/** The briefing input screen: picking the WhatsApp export, signing in,
    and submitting, which builds one labelled corpus from the built-in
    email sample and the export, runs the four extractions on it, and on
    success saves the assembled briefing under the user's id before
    handing it on. Alerts, the save and the `onDataGenerated` call are
    recorded, in order, as effects. */
module DataSourceInput {
  import opened Wrappers
  import opened Types
  import opened JsStrings
  import opened GeminiService

  /** The email sample built into the screen (`MOCK_EMAIL_DATA`). */
  const MockEmailData :=
    "\n"
    + "From: ariadne@starkindustries.com\n"
    + "To: tony@starkindustries.com\n"
    + "Subject: Project Chimera - Phase 3 Go/No-Go\n"
    + "Tony, The final simulation results for the Chimera energy distribution grid are in. We are seeing a 12% efficiency gain, but the resonance cascade at peak load is still a concern. General Ross is breathing down my neck. We need a final review for tomorrow, 10 AM. I've looped in Dr. Helen Cho. We need your sign-off. Best, Ariadne\n"
    + "---\n"
    + "From: happy.hogan@starkindustries.com\n"
    + "To: tony@starkindustries.com\n"
    + "Subject: RE: Security upgrade for the Malibu compound\n"
    + "Boss, The new perimeter defense drones are installed. Unit 7 is reporting a faulty targeting sensor. The vendor can have a replacement here by Thursday, meaning a potential blind spot for 48 hours. Should I re-task another unit to cover? Happy\n"
    + "---\n"
    + "From: legal@starkindustries.com\n"
    + "To: tony@starkindustries.com\n"
    + "Subject: URGENT: Accords Compliance Documentation\n"
    + "Mr. Stark, This is a final reminder that the quarterly Sokovia Accords compliance report is due by EOD Friday. We are missing your sign-off on the 'Enhanced Interrogation Technologies' disclosure. Please review and approve. Regards, Legal Dept.\n"

  const ProvideDataAlert := "Sir, please provide the WhatsApp data for a full analysis."
  const AnalysisErrorAlert := "My apologies, sir. There was an error in my cognitive analysis. Please try again."
  const SignInAlert := "Sir, I was unable to complete the connection. Please try again."

  const EmailOpen := "--- EMAIL DATA ---"
  const EmailClose := "--- END EMAIL DATA ---"
  const WhatsappOpen := "--- WHATSAPP DATA ---"
  const WhatsappClose := "--- END WHATSAPP DATA ---"

  /** One section of the corpus: the opening marker, the text and the
      closing marker, each on a line of its own. */
  function Section(open: string, text: string, close: string): string
  {
    open + "\n" + text + "\n" + close + "\n"
  }

  /** The corpus template: a blank first line, the email section, a blank
      line, the WhatsApp section. */
  function Labelled(email: string, whatsapp: string): string
  {
    "\n" + Section(EmailOpen, email, EmailClose) + "\n" + Section(WhatsappOpen, whatsapp, WhatsappClose)
  }

  /** Slicing the right operand of a concatenation. */
  lemma SliceRight(a: string, b: string, i: nat, j: nat)
    requires i <= j <= |b|
    ensures (a + b)[|a| + i..|a| + j] == b[i..j]
  {
  }

  /** Slicing the left operand of a concatenation. */
  lemma SliceLeft(a: string, b: string, i: nat, j: nat)
    requires i <= j <= |a|
    ensures (a + b)[i..j] == a[i..j]
  {
  }

  /** A section opens with its marker, holds its text on the next line and
      closes with its end marker and a line break. */
  lemma SectionLayout(open: string, text: string, close: string)
    ensures var s := Section(open, text, close);
      && |s| == |open| + |text| + |close| + 3
      && OccursAt(s, open, 0)
      && s[|open|] == '\n'
      && s[|open| + 1..|open| + 1 + |text|] == text
      && s[|open| + 1 + |text|] == '\n'
      && OccursAt(s, close, |open| + |text| + 2)
      && s[|s| - 1] == '\n'
  {
    var s := Section(open, text, close);
    var p := open + "\n";
    var q := p + text + "\n";
    assert s == q + (close + "\n");
    assert s == p + (text + "\n" + close + "\n");
    assert s == open + ("\n" + text + "\n" + close + "\n");
    SliceLeft(open, "\n" + text + "\n" + close + "\n", 0, |open|);
    SliceRight(p, text + "\n" + close + "\n", 0, |text|);
    SliceLeft(text, "\n" + close + "\n", 0, |text|);
    SliceRight(q, close + "\n", 0, |close|);
    SliceLeft(close, "\n", 0, |close|);
  }

  /** Where the WhatsApp section starts in a corpus whose email text is
      `email`. */
  function WhatsappAt(email: string): nat
  {
    |EmailOpen| + |email| + |EmailClose| + 5
  }

  /** The corpus ends with the line break that closes the WhatsApp end
      marker's line. */
  lemma LabelledEnd(e: string, w: string)
    ensures |Labelled(e, w)| > 0 && Labelled(e, w)[|Labelled(e, w)| - 1] == '\n'
  {
    var s2 := Section(WhatsappOpen, w, WhatsappClose);
    SectionLayout(WhatsappOpen, w, WhatsappClose);
    var a := "\n" + Section(EmailOpen, e, EmailClose) + "\n";
    assert Labelled(e, w) == a + s2;
  }

  /** The template's layout: the email marker opens the second line and
      the email text follows it, closed by its end marker; only after that
      come the WhatsApp marker, the WhatsApp text and its end marker, whose
      line ends the corpus. */
  lemma LabelledLayout(e: string, w: string)
    ensures var c := Labelled(e, w);
      var k := WhatsappAt(e);
      && |c| == k + |WhatsappOpen| + |w| + |WhatsappClose| + 3
      && c[0] == '\n'
      && c[k - 1] == '\n' && c[k - 2] == '\n'
      && OccursAt(c, EmailOpen, 1)
      && c[|EmailOpen| + 2..|EmailOpen| + 2 + |e|] == e
      && OccursAt(c, EmailClose, |EmailOpen| + |e| + 3)
      && |EmailOpen| + |e| + |EmailClose| + 3 < k
      && OccursAt(c, WhatsappOpen, k)
      && c[k + |WhatsappOpen| + 1..k + |WhatsappOpen| + 1 + |w|] == w
      && OccursAt(c, WhatsappClose, k + |WhatsappOpen| + |w| + 2)
      && c[|c| - 1] == '\n'
  {
    var s1 := Section(EmailOpen, e, EmailClose);
    var s2 := Section(WhatsappOpen, w, WhatsappClose);
    SectionLayout(EmailOpen, e, EmailClose);
    SectionLayout(WhatsappOpen, w, WhatsappClose);
    var a := "\n" + s1 + "\n";
    assert Labelled(e, w) == a + s2;
    assert a == "\n" + (s1 + "\n");
    var eo, ec := |EmailOpen|, |EmailOpen| + |e| + 2;
    SliceRight("\n", s1 + "\n", 0, eo);
    SliceLeft(s1, "\n", 0, eo);
    SliceRight("\n", s1 + "\n", eo + 1, eo + 1 + |e|);
    SliceLeft(s1, "\n", eo + 1, eo + 1 + |e|);
    SliceRight("\n", s1 + "\n", ec, ec + |EmailClose|);
    SliceLeft(s1, "\n", ec, ec + |EmailClose|);
    SliceLeft(a, s2, 1, eo + 1);
    SliceLeft(a, s2, eo + 2, eo + 2 + |e|);
    SliceLeft(a, s2, ec + 1, ec + 1 + |EmailClose|);
    var wo, wc := |WhatsappOpen|, |WhatsappOpen| + |w| + 2;
    SliceRight(a, s2, 0, wo);
    SliceRight(a, s2, wo + 1, wo + 1 + |w|);
    SliceRight(a, s2, wc, wc + |WhatsappClose|);
    LabelledEnd(e, w);
  }

  /** Reading the WhatsApp text back out of a corpus, given the email text
      it was built with: what lies between the WhatsApp marker's line and
      the end marker's line. */
  function WhatsappText(corpus: string, email: string): string
    requires WhatsappAt(email) + |WhatsappOpen| + |WhatsappClose| + 3 <= |corpus|
  {
    corpus[WhatsappAt(email) + |WhatsappOpen| + 1..|corpus| - |WhatsappClose| - 2]
  }

  /** The export survives the corpus: its section gives back the export,
      whatever it contains and whatever the email text is. */
  lemma WhatsappRoundTrip(email: string, whatsapp: string)
    ensures WhatsappAt(email) + |WhatsappOpen| + |WhatsappClose| + 3 <= |Labelled(email, whatsapp)|
    ensures WhatsappText(Labelled(email, whatsapp), email) == whatsapp
  {
    LabelledLayout(email, whatsapp);
  }

  /** The labelled corpus (`combinedData`): the trimmed email sample and
      the trimmed export, put into the template. Reading its WhatsApp
      section back gives the trimmed export: trimming is all that happens
      to the export. */
  function CombinedData(whatsappContent: string): (corpus: string)
    ensures WhatsappAt(Trim(MockEmailData)) + |WhatsappOpen| + |WhatsappClose| + 3 <= |corpus|
    ensures WhatsappText(corpus, Trim(MockEmailData)) == Trim(whatsappContent)
  {
    WhatsappRoundTrip(Trim(MockEmailData), Trim(whatsappContent));
    Labelled(Trim(MockEmailData), Trim(whatsappContent))
  }

  /** An exported chat file; `contents` is `None` when `file.text()`
      rejects. */
  datatype File = File(name: string, contents: Option<string>)

  /** What the screen makes happen outside itself, in order. */
  datatype Effect = Alert(message: string) | Save(uid: string, data: DashboardData) | DataGenerated(data: DashboardData)

  /** How a promise handed to `Promise.all` settles. */
  datatype Settled<T> = Fulfilled(value: T) | Rejected

  /** `Promise.all` of the four calls followed by the record literal: the
      briefing when all four fulfil, nothing otherwise. */
  function JoinAll(summary: Settled<string>, tasks: Settled<seq<Task>>,
                   events: Settled<seq<CalendarEvent>>, insights: Settled<seq<Insight>>): (r: Option<DashboardData>)
    ensures r.Some? <==> summary.Fulfilled? && tasks.Fulfilled? && events.Fulfilled? && insights.Fulfilled?
    ensures r.Some? ==> r.value.summary == summary.value && r.value.tasks == tasks.value
                        && r.value.events == events.value && r.value.insights == insights.value
  {
    match (summary, tasks, events, insights)
    case (Fulfilled(s), Fulfilled(t), Fulfilled(e), Fulfilled(i)) => Some(DashboardData(s, t, e, i))
    case _ => None
  }

  /** The `try`/`catch` around the join: save, then hand on; or alert. */
  function SubmitEffects(uid: string, joined: Option<DashboardData>): seq<Effect>
  {
    match joined
    case Some(data) => [Save(uid, data), DataGenerated(data)]
    case None => [Alert(AnalysisErrorAlert)]
  }

  /** All or nothing: when any call rejects, nothing is saved and nothing
      handed on; when all fulfil, the briefing of the four results, in
      field order, is saved under the user's id and then handed on. */
  lemma AllOrNothing(uid: string, summary: Settled<string>, tasks: Settled<seq<Task>>,
                     events: Settled<seq<CalendarEvent>>, insights: Settled<seq<Insight>>)
    ensures var effects := SubmitEffects(uid, JoinAll(summary, tasks, events, insights));
      && (summary.Rejected? || tasks.Rejected? || events.Rejected? || insights.Rejected? ==>
            forall k :: 0 <= k < |effects| ==> effects[k].Alert?)
      && (summary.Fulfilled? && tasks.Fulfilled? && events.Fulfilled? && insights.Fulfilled? ==>
            var data := DashboardData(summary.value, tasks.value, events.value, insights.value);
            effects == [Save(uid, data), DataGenerated(data)])
  {
  }

  /** The generation back end: the key, the service and the three parsers. */
  datatype Backend = Backend(apiKey: Option<string>, service: Service, parseTasks: Parser<Task>,
                             parseEvents: Parser<CalendarEvent>, parseInsights: Parser<Insight>)

  /** The four extractions, all run on the same corpus. */
  function Extractions(backend: Backend, corpus: string): (Settled<string>, Settled<seq<Task>>, Settled<seq<CalendarEvent>>, Settled<seq<Insight>>)
  {
    (Fulfilled(GenerateDailySummary(backend.apiKey, backend.service, corpus)),
     Fulfilled(GenerateTasks(backend.apiKey, backend.service, backend.parseTasks, corpus)),
     Fulfilled(GenerateCalendarEvents(backend.apiKey, backend.service, backend.parseEvents, corpus)),
     Fulfilled(GenerateInsights(backend.apiKey, backend.service, backend.parseInsights, corpus)))
  }

  /** Each extraction call catches its own failures, so the join never
      fails and the error alert of `handleSubmit` is never reached. */
  lemma ExtractionsNeverReject(backend: Backend, corpus: string)
    ensures var (s, t, e, i) := Extractions(backend, corpus);
      JoinAll(s, t, e, i) == Some(DashboardData(
        GenerateDailySummary(backend.apiKey, backend.service, corpus),
        GenerateTasks(backend.apiKey, backend.service, backend.parseTasks, corpus),
        GenerateCalendarEvents(backend.apiKey, backend.service, backend.parseEvents, corpus),
        GenerateInsights(backend.apiKey, backend.service, backend.parseInsights, corpus)))
  {
  }

  class DataSourceInputState {
    var user: Option<User>
    var isSubmitting: bool
    var whatsappFile: Option<File>
    var effects: seq<Effect>

    /** The screen starts with the current user, no file and not
        submitting. */
    constructor (currentUser: Option<User>)
      ensures user == currentUser && !isSubmitting && whatsappFile == None && effects == []
    {
      user, isSubmitting, whatsappFile, effects := currentUser, false, None, [];
    }

    /** `handleFileChange`: keeps the first selected file; a missing or
        empty selection leaves the previous file. */
    method HandleFileChange(files: Option<seq<File>>)
      modifies this`whatsappFile
      ensures files.Some? && |files.value| > 0 ==> whatsappFile == Some(files.value[0])
      ensures files.None? || |files.value| == 0 ==> whatsappFile == old(whatsappFile)
    {
      if files.Some? && |files.value| > 0 {
        whatsappFile := Some(files.value[0]);
      }
    }

    /** `handleAuth`: the popup's user on success, an alert on failure. */
    method HandleAuth(signedIn: Option<User>)
      modifies this
      ensures signedIn.Some? ==> user == signedIn && effects == old(effects)
      ensures signedIn.None? ==> user == old(user) && effects == old(effects) + [Alert(SignInAlert)]
      ensures isSubmitting == old(isSubmitting) && whatsappFile == old(whatsappFile)
    {
      if signedIn.Some? {
        user := signedIn;
      } else {
        effects := effects + [Alert(SignInAlert)];
      }
    }

    /** The submit button's `disabled`: no file, or a submission under
        way. */
    function SubmitDisabled(): (disabled: bool)
      reads this
      ensures whatsappFile.None? ==> disabled
      ensures isSubmitting ==> disabled
      ensures whatsappFile.Some? && !isSubmitting ==> !disabled
    {
      whatsappFile.None? || isSubmitting
    }

    /** `handleSubmit`. Without a file or a user it only alerts. Otherwise
        it marks the submission under way and reads the file; a failed
        read escapes the `try`, so the flag stays set and nothing else
        happens. After a good read the four extractions run on the corpus
        and their briefing is saved and then handed on, and the flag is
        cleared. */
    method HandleSubmit(backend: Backend)
      modifies this
      ensures user == old(user) && whatsappFile == old(whatsappFile)
      ensures old(whatsappFile.None? || user.None?) ==>
        effects == old(effects) + [Alert(ProvideDataAlert)] && isSubmitting == old(isSubmitting)
      ensures old(whatsappFile.Some? && user.Some? && whatsappFile.value.contents.None?) ==>
        effects == old(effects) && isSubmitting
      ensures old(whatsappFile.Some? && user.Some? && whatsappFile.value.contents.Some?) ==>
        var corpus := CombinedData(old(whatsappFile.value.contents.value));
        var data := DashboardData(
          GenerateDailySummary(backend.apiKey, backend.service, corpus),
          GenerateTasks(backend.apiKey, backend.service, backend.parseTasks, corpus),
          GenerateCalendarEvents(backend.apiKey, backend.service, backend.parseEvents, corpus),
          GenerateInsights(backend.apiKey, backend.service, backend.parseInsights, corpus));
        && effects == old(effects) + [Save(old(user.value.uid), data), DataGenerated(data)]
        && !isSubmitting
    {
      if whatsappFile.None? || user.None? {
        effects := effects + [Alert(ProvideDataAlert)];
        return;
      }
      isSubmitting := true;
      var file, uid := whatsappFile.value, user.value.uid;
      if file.contents.None? {
        return;
      }
      var corpus := CombinedData(file.contents.value);
      var (summary, tasks, events, insights) := Extractions(backend, corpus);
      var joined := JoinAll(summary, tasks, events, insights);
      ExtractionsNeverReject(backend, corpus);
      effects := effects + SubmitEffects(uid, joined);
      isSubmitting := false;
    }
  }
}
