/** The wrappers around the generative-language service: a client that
    needs an API key on every use, four one-shot extraction calls that
    degrade to a fixed default instead of failing, and a lazily created
    chat session whose streamed reply is forwarded chunk by chunk.

    The service itself is a parameter: `Service` says what a one-shot call
    settles to for the artifact asked for and the data embedded in the
    prompt, and `StreamOutcome` what a streamed call yields. `JSON.parse`
    is a parameter too: a partial function from text to the declared
    array type. */
module GeminiService {
  import opened Wrappers
  import opened Types
  import opened JsStrings

  const MissingKeyError := "API_KEY environment variable not set"
  const SummaryApology := "Sir, I seem to be having trouble accessing my cognitive circuits. Please try again later."
  const StreamApology := "My apologies, sir. I'm encountering a communication issue."
  const ModelName := "gemini-2.5-flash"

  /** A configured client, holding the key it was built with. */
  datatype Client = Client(apiKey: string)

  /** `process.env.API_KEY` is truthy: set and not the empty string. */
  predicate HasApiKey(apiKey: Option<string>) {
    apiKey.Some? && apiKey.value != ""
  }

  /** `getAI`: a client when the key is present, the configuration error
      otherwise. The key is read on every call, never cached. */
  function GetAI(apiKey: Option<string>): (r: Result<Client, string>)
    ensures r.Success? <==> HasApiKey(apiKey)
    ensures r.Success? ==> r.value.apiKey == apiKey.value
    ensures r.Failure? ==> r.error == MissingKeyError
  {
    if HasApiKey(apiKey) then Success(Client(apiKey.value)) else Failure(MissingKeyError)
  }

  /** The artifact a one-shot call asks for. */
  datatype Kind = SummaryKind | TasksKind | EventsKind | InsightsKind

  /** What one `generateContent` call settles to: the response text, or a
      rejection (network, quota, refused request, ...). */
  datatype Reply = Reply(text: string) | ServiceError

  /** The one-shot service: the reply to the request for an artifact built
      from the given data. */
  type Service = (Kind, string) -> Reply

  /** `JSON.parse` followed by the unchecked cast to the declared array
      type: `None` when parsing throws. */
  type Parser<T> = string -> Option<seq<T>>

  /** `generateDailySummary`: the service text, or the fixed apology on any
      failure, the missing key included. */
  function GenerateDailySummary(apiKey: Option<string>, service: Service, rawData: string): (r: string)
    ensures HasApiKey(apiKey) && service(SummaryKind, rawData).Reply? ==>
      r == service(SummaryKind, rawData).text
    ensures !HasApiKey(apiKey) || service(SummaryKind, rawData).ServiceError? ==>
      r == SummaryApology
  {
    match GetAI(apiKey)
    case Failure(_) => SummaryApology
    case Success(_) =>
      match service(SummaryKind, rawData)
      case ServiceError => SummaryApology
      case Reply(text) => text
  }

  /** The common body of the three JSON extraction calls: whatever the
      parser yields, unchanged, or `[]` when the key is missing, the call
      rejects or the text does not parse. */
  function ExtractArray<T>(apiKey: Option<string>, reply: Reply, parse: Parser<T>): (r: seq<T>)
    ensures HasApiKey(apiKey) && reply.Reply? && parse(reply.text).Some? ==>
      r == parse(reply.text).value
    ensures !HasApiKey(apiKey) || reply.ServiceError? || parse(reply.text).None? ==>
      r == []
  {
    match GetAI(apiKey)
    case Failure(_) => []
    case Success(_) =>
      match reply
      case ServiceError => []
      case Reply(text) =>
        match parse(text)
        case None => []
        case Some(items) => items
  }

  /** `generateTasks`. */
  function GenerateTasks(apiKey: Option<string>, service: Service, parse: Parser<Task>, rawData: string): (r: seq<Task>)
    ensures HasApiKey(apiKey) && service(TasksKind, rawData).Reply? && parse(service(TasksKind, rawData).text).Some? ==>
      r == parse(service(TasksKind, rawData).text).value
    ensures !HasApiKey(apiKey) || service(TasksKind, rawData).ServiceError? || parse(service(TasksKind, rawData).text).None? ==>
      r == []
  {
    ExtractArray(apiKey, service(TasksKind, rawData), parse)
  }

  /** `generateCalendarEvents`. */
  function GenerateCalendarEvents(apiKey: Option<string>, service: Service, parse: Parser<CalendarEvent>, rawData: string): (r: seq<CalendarEvent>)
    ensures HasApiKey(apiKey) && service(EventsKind, rawData).Reply? && parse(service(EventsKind, rawData).text).Some? ==>
      r == parse(service(EventsKind, rawData).text).value
    ensures !HasApiKey(apiKey) || service(EventsKind, rawData).ServiceError? || parse(service(EventsKind, rawData).text).None? ==>
      r == []
  {
    ExtractArray(apiKey, service(EventsKind, rawData), parse)
  }

  /** `generateInsights`. */
  function GenerateInsights(apiKey: Option<string>, service: Service, parse: Parser<Insight>, rawData: string): (r: seq<Insight>)
    ensures HasApiKey(apiKey) && service(InsightsKind, rawData).Reply? && parse(service(InsightsKind, rawData).text).Some? ==>
      r == parse(service(InsightsKind, rawData).text).value
    ensures !HasApiKey(apiKey) || service(InsightsKind, rawData).ServiceError? || parse(service(InsightsKind, rawData).text).None? ==>
      r == []
  {
    ExtractArray(apiKey, service(InsightsKind, rawData), parse)
  }

  /** Without a key every extraction degrades, whatever the service would
      have answered. */
  lemma MissingKeyDegradesAll(apiKey: Option<string>, service: Service, pt: Parser<Task>,
                              pe: Parser<CalendarEvent>, pi: Parser<Insight>, rawData: string)
    requires !HasApiKey(apiKey)
    ensures GenerateDailySummary(apiKey, service, rawData) == SummaryApology
    ensures GenerateTasks(apiKey, service, pt, rawData) == []
    ensures GenerateCalendarEvents(apiKey, service, pe, rawData) == []
    ensures GenerateInsights(apiKey, service, pi, rawData) == []
  {
  }

  /** The extraction calls check no shape of their own: whatever lists
      `JSON.parse` yields for the three requests, with repeated ids, empty
      texts or any length, are handed back exactly as parsed. */
  lemma NoShapeCheck(apiKey: Option<string>, service: Service, pt: Parser<Task>,
                     pe: Parser<CalendarEvent>, pi: Parser<Insight>, rawData: string,
                     tasks: seq<Task>, events: seq<CalendarEvent>, insights: seq<Insight>)
    requires HasApiKey(apiKey)
    requires service(TasksKind, rawData).Reply? && pt(service(TasksKind, rawData).text) == Some(tasks)
    requires service(EventsKind, rawData).Reply? && pe(service(EventsKind, rawData).text) == Some(events)
    requires service(InsightsKind, rawData).Reply? && pi(service(InsightsKind, rawData).text) == Some(insights)
    ensures GenerateTasks(apiKey, service, pt, rawData) == tasks
    ensures GenerateCalendarEvents(apiKey, service, pe, rawData) == events
    ensures GenerateInsights(apiKey, service, pi, rawData) == insights
  {
  }

  /** The chat handle the SDK creates; only its identity matters here. */
  class Chat {
    const model: string

    constructor ()
      ensures model == ModelName
    {
      model := ModelName;
    }
  }

  /** What a streamed reply yields: all its chunks, or some chunks and then
      a failure (`FailedAfter([])` when the request itself is rejected). */
  datatype StreamOutcome = Completed(chunks: seq<string>) | FailedAfter(chunks: seq<string>)

  /** The calls `streamChatResponse` makes to its callback: the chunks of
      the reply and, after any failure, one apology; only the apology when
      no chat handle can be had (`ready` false). */
  function Delivered(ready: bool, stream: StreamOutcome): (r: seq<string>)
    ensures ready ==> |stream.chunks| <= |r| && r[..|stream.chunks|] == stream.chunks
    ensures |r| == (if ready then |stream.chunks| else 0) + (if ready && stream.Completed? then 0 else 1)
    ensures !(ready && stream.Completed?) ==> r[|r| - 1] == StreamApology
  {
    if !ready then [StreamApology]
    else match stream
      case Completed(chunks) => chunks
      case FailedAfter(chunks) => chunks + [StreamApology]
  }

  /** Read in order, the delivered chunks spell the reply: all of it when
      the stream completes, and what arrived followed by the apology when
      it fails. */
  lemma DeliveredText(ready: bool, stream: StreamOutcome)
    ensures ready && stream.Completed? ==> Concat(Delivered(ready, stream)) == Concat(stream.chunks)
    ensures ready && stream.FailedAfter? ==>
      Concat(Delivered(ready, stream)) == Concat(stream.chunks) + StreamApology
    ensures !ready ==> Concat(Delivered(ready, stream)) == StreamApology
  {
    if ready && stream.FailedAfter? {
      ConcatAppend(stream.chunks, [StreamApology]);
    }
    if !ready {
      ConcatAppend([], [StreamApology]);
    }
  }

  /** The state a chunk callback folds over, applied to chunks in order. */
  function Fold<S>(onChunk: (S, string) -> S, state: S, chunks: seq<string>): S
  {
    if chunks == [] then state
    else onChunk(Fold(onChunk, state, chunks[..|chunks| - 1]), chunks[|chunks| - 1])
  }

  /** The module-level chat state: the lazily created handle and, as a
      record for the specification, the messages sent through it. */
  class ChatSession {
    var chatInstance: Chat?
    var sent: seq<string>

    constructor ()
      ensures chatInstance == null && sent == []
    {
      chatInstance := null;
      sent := [];
    }

    /** `getChatInstance`: creates the chat at most once; a later call gets
        the same handle. When creation throws (no key) the handle stays
        null, so the next call tries again. */
    method GetChatInstance(apiKey: Option<string>) returns (r: Result<Chat, string>)
      modifies this`chatInstance
      ensures old(chatInstance) != null ==> r == Success(old(chatInstance)) && chatInstance == old(chatInstance)
      ensures old(chatInstance) == null && HasApiKey(apiKey) ==>
        r.Success? && fresh(r.value) && chatInstance == r.value
      ensures old(chatInstance) == null && !HasApiKey(apiKey) ==>
        r == Failure(MissingKeyError) && chatInstance == null
    {
      if chatInstance == null {
        var ai := GetAI(apiKey);
        if ai.Failure? {
          return Failure(ai.error);
        }
        chatInstance := new Chat();
      }
      return Success(chatInstance);
    }

    /** `streamChatResponse`: hands every chunk of the reply to `onChunk`,
        one call per chunk and in stream order; on any failure it makes
        exactly one more call, with the apology, and returns normally.
        `delivered` records the calls made; `final` is the callback's
        state after them. */
    method StreamChatResponse<S>(message: string, apiKey: Option<string>, stream: StreamOutcome,
                                 onChunk: (S, string) -> S, state: S)
      returns (delivered: seq<string>, final: S)
      modifies this
      ensures var ready := old(chatInstance) != null || HasApiKey(apiKey);
        && (ready && stream.Completed? ==> delivered == stream.chunks)
        && (ready && stream.FailedAfter? ==> delivered == stream.chunks + [StreamApology])
        && (!ready ==> delivered == [StreamApology])
        && sent == (if ready then old(sent) + [message] else old(sent))
        && (ready ==> chatInstance != null)
        && (!ready ==> chatInstance == null)
        && (old(chatInstance) != null ==> chatInstance == old(chatInstance))
      ensures delivered == Delivered(old(chatInstance) != null || HasApiKey(apiKey), stream)
      ensures final == Fold(onChunk, state, delivered)
    {
      var chat := GetChatInstance(apiKey);
      if chat.Failure? {
        delivered := [StreamApology];
        final := onChunk(state, StreamApology);
        assert delivered[..0] == [];
        return;
      }
      sent := sent + [message];
      var chunks := stream.chunks;
      delivered, final := [], state;
      for i := 0 to |chunks|
        invariant delivered == chunks[..i]
        invariant final == Fold(onChunk, state, delivered)
      {
        assert (delivered + [chunks[i]])[..i] == delivered;
        delivered := delivered + [chunks[i]];
        final := onChunk(final, chunks[i]);
      }
      assert delivered == chunks;
      if stream.FailedAfter? {
        assert (delivered + [StreamApology])[..|delivered|] == delivered;
        delivered := delivered + [StreamApology];
        final := onChunk(final, StreamApology);
      }
    }
  }
}
