/** The chat panel: a transcript of messages, the input line and a loading
    flag. Sending appends the user's message and an empty model message,
    then every streamed chunk is appended to that last model message. */
module ConversationalUI {
  import opened Wrappers
  import opened Types
  import opened JsStrings
  import opened GeminiService

  predicate LastIsModel(messages: seq<ChatMessage>) {
    |messages| > 0 && messages[|messages| - 1].role == ModelRole
  }

  /** The updater the chunk callback passes to `setMessages`: the chunk
      goes at the end of the last message when that one is the model's;
      otherwise the transcript is left as it is. */
  function AppendChunk(prev: seq<ChatMessage>, chunk: string): (next: seq<ChatMessage>)
    ensures |next| == |prev|
    ensures forall i :: 0 <= i < |prev| - 1 ==> next[i] == prev[i]
    ensures LastIsModel(prev) ==>
      next[|prev| - 1] == ChatMessage(ModelRole, prev[|prev| - 1].text + chunk)
    ensures !LastIsModel(prev) ==> next == prev
  {
    if LastIsModel(prev) then
      var last := prev[|prev| - 1];
      prev[|prev| - 1 := last.(text := last.text + chunk)]
    else prev
  }

  /** Folding the chunks over a transcript that ends with a model message
      leaves every earlier message alone and gives the last one the
      chunks' concatenation, in delivery order. */
  lemma {:induction false} AppendChunks(prev: seq<ChatMessage>, chunks: seq<string>)
    requires LastIsModel(prev)
    ensures Fold(AppendChunk, prev, chunks) ==
      prev[..|prev| - 1] + [ChatMessage(ModelRole, prev[|prev| - 1].text + Concat(chunks))]
    decreases |chunks|
  {
    var p, t := prev[..|prev| - 1], prev[|prev| - 1].text;
    if chunks == [] {
      assert prev[|prev| - 1] == ChatMessage(ModelRole, t);
      assert t + Concat(chunks) == t;
      assert prev == p + [prev[|prev| - 1]];
    } else {
      var init, c := chunks[..|chunks| - 1], chunks[|chunks| - 1];
      AppendChunks(prev, init);
      var mid := Fold(AppendChunk, prev, init);
      assert mid == p + [ChatMessage(ModelRole, t + Concat(init))];
      assert Concat(chunks) == Concat(init) + c;
      assert t + Concat(init) + c == t + Concat(chunks);
      calc {
        Fold(AppendChunk, prev, chunks);
        AppendChunk(mid, c);
        p + [ChatMessage(ModelRole, t + Concat(init) + c)];
      }
    }
  }

  /** One send's transcript: after the user message and the empty model
      message, the delivered chunks fill the model message with their
      concatenation and leave everything before it alone. */
  lemma ReplyTranscript(prev: seq<ChatMessage>, text: string, chunks: seq<string>)
    ensures Fold(AppendChunk, prev + [ChatMessage(UserRole, text), ChatMessage(ModelRole, "")], chunks)
      == prev + [ChatMessage(UserRole, text), ChatMessage(ModelRole, Concat(chunks))]
  {
    var before := prev + [ChatMessage(UserRole, text), ChatMessage(ModelRole, "")];
    AppendChunks(before, chunks);
    assert before[..|before| - 1] == prev + [ChatMessage(UserRole, text)];
    assert before[|before| - 1].text + Concat(chunks) == Concat(chunks);
  }

  /** Without a trailing model message no chunk changes the transcript. */
  lemma {:induction false} ChunksIgnored(prev: seq<ChatMessage>, chunks: seq<string>)
    requires !LastIsModel(prev)
    ensures Fold(AppendChunk, prev, chunks) == prev
    decreases |chunks|
  {
    if chunks != [] {
      ChunksIgnored(prev, chunks[..|chunks| - 1]);
    }
  }

  class ChatPanel {
    var messages: seq<ChatMessage>
    var input: string
    var isLoading: bool

    constructor ()
      ensures messages == [] && input == "" && !isLoading
    {
      messages, input, isLoading := [], "", false;
    }

    /** The input field's change handler. */
    method SetInput(text: string)
      modifies this`input
      ensures input == text
    {
      input := text;
    }

    /** The send button is disabled while loading or when the input is
        blank. */
    predicate SendDisabled(): (disabled: bool)
      reads this
      ensures disabled <==> isLoading || forall i :: 0 <= i < |input| ==> IsJsSpace(input[i])
    {
      isLoading || Trim(input) == ""
    }

    /** `handleSend`. A blank input or a reply in progress, exactly when
        the send button is disabled, makes it a no-op. Otherwise it appends the untrimmed input as a user message
        and an empty model message, clears the input, sends the ORIGINAL
        input, appends every delivered chunk to the model message, and
        clears the loading flag once the stream call has returned. */
    method HandleSend(session: ChatSession, apiKey: Option<string>, stream: StreamOutcome)
      modifies this, session
      ensures old(SendDisabled()) ==>
        && messages == old(messages) && input == old(input) && isLoading == old(isLoading)
        && session.sent == old(session.sent) && session.chatInstance == old(session.chatInstance)
      ensures !old(SendDisabled()) ==>
        var ready := old(session.chatInstance) != null || HasApiKey(apiKey);
        && messages == old(messages) + [ChatMessage(UserRole, old(input)),
                                        ChatMessage(ModelRole, Concat(Delivered(ready, stream)))]
        && input == "" && !isLoading
        && session.sent == (if ready then old(session.sent) + [old(input)] else old(session.sent))
        && (ready ==> session.chatInstance != null)
        && (old(session.chatInstance) != null ==> session.chatInstance == old(session.chatInstance))
        && (!ready ==> session.chatInstance == null)
    {
      if SendDisabled() {
        return;
      }
      var text := input;
      messages := messages + [ChatMessage(UserRole, text)];
      input := "";
      isLoading := true;
      messages := messages + [ChatMessage(ModelRole, "")];
      assert messages == old(messages) + [ChatMessage(UserRole, text), ChatMessage(ModelRole, "")];
      var delivered, after := session.StreamChatResponse(text, apiKey, stream, AppendChunk, messages);
      ReplyTranscript(old(messages), text, delivered);
      messages := after;
      isLoading := false;
    }
  }
}
