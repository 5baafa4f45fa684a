/** The schedule widget: each event shows a day label, an hour label, its
    title and its participants joined by `, `; an empty list shows a
    placeholder instead. */
module CalendarWidget {
  import opened Wrappers
  import opened Types
  import opened JsStrings

  /** `time.split(' ')[0]`: the text up to its first space, or all of it. */
  function DayLabel(time: string): (r: string)
    ensures StartsWith(time, r)
    ensures !Contains(r, " ")
    ensures r == time <==> !Contains(time, " ")
    ensures r != time ==> time[|r|] == ' '
  {
    SplitHead(time, " ");
    var r := Split(time, " ")[0];
    assert r != time ==> OccursAt(time, " ", |r|) && time[|r|..|r| + 1] == [time[|r|]];
    r
  }

  /** `time.split(' at ')[1]`, `None` for `undefined`: the text between the
      first ` at ` and the next one, or the end; absent when the time has
      no ` at `. */
  function HourLabel(time: string): (r: Option<string>)
    ensures r.None? <==> !Contains(time, " at ")
    ensures r.Some? ==>
      var rest := time[IndexOf(time, " at ").value + 4..];
      && StartsWith(rest, r.value)
      && !Contains(r.value, " at ")
      && (forall j :: 0 <= j < |r.value| ==> !OccursAt(rest, " at ", j))
      && (r.value == rest || OccursAt(rest, " at ", |r.value|))
  {
    var parts := Split(time, " at ");
    SplitHead(time, " at ");
    if |parts| > 1 then
      var rest := time[IndexOf(time, " at ").value + 4..];
      SplitSecond(time, " at ");
      SplitHead(rest, " at ");
      Some(parts[1])
    else None
  }

  /** `participants.join(', ')`. */
  function ParticipantsLabel(participants: seq<string>): (joined: string)
    ensures participants == [] ==> joined == ""
    ensures |participants| >= 1 ==> StartsWith(joined, participants[0])
  {
    Join(participants, ", ")
  }

  /** The joined participants can be read back in list order, as long as
      no name itself contains `, `. */
  lemma {:induction false} ParticipantsRoundTrip(participants: seq<string>)
    requires |participants| >= 1
    requires forall k :: 0 <= k < |participants| ==> !Contains(participants[k], ", ")
    ensures Split(ParticipantsLabel(participants), ", ") == participants
    decreases |participants|
  {
    var sep := ", ";
    var p := participants[0];
    if |participants| == 1 {
      assert ParticipantsLabel(participants) == p;
      assert IndexOf(p, sep).None?;
    } else {
      var tail := participants[1..];
      ParticipantsRoundTrip(tail);
      var s := ParticipantsLabel(participants);
      var rest := ParticipantsLabel(tail);
      assert s == p + sep + rest;
      assert s[..|p|] == p;
      assert s[|p|..|p| + 2] == sep;
      assert s[|p|] == ',';
      forall j: nat | j < |p| ensures !OccursAt(s, sep, j) {
        if j + 2 <= |p| {
          assert s[j..j + 2] == p[j..j + 2];
          assert !OccursAt(p, sep, j);
        } else {
          assert j + 1 == |p|;
          assert s[j..j + 2][1] == ',';
          assert sep[1] == ' ';
        }
      }
      assert OccursAt(s, sep, |p|);
      var r := IndexOf(s, sep);
      assert r.Some? && r.value <= |p|;
      assert r.value >= |p|;
      assert s[..|p|] == p;
      assert s[|p| + 2..] == rest;
      assert Split(s, sep) == [p] + Split(rest, sep);
    }
  }

  /** One row of the schedule. */
  datatype EventRow = EventRow(day: string, hour: Option<string>, title: string, participants: string)

  function RowOf(event: CalendarEvent): EventRow
  {
    EventRow(DayLabel(event.time), HourLabel(event.time), event.title, ParticipantsLabel(event.participants))
  }

  /** What the widget shows once loaded. */
  datatype Schedule = ScheduleClear | Rows(rows: seq<EventRow>)

  /** The placeholder for no events, otherwise one row per event in input
      order. */
  function RenderSchedule(events: seq<CalendarEvent>): (s: Schedule)
    ensures s == ScheduleClear <==> events == []
    ensures s.Rows? ==> |s.rows| == |events|
    ensures s.Rows? ==> forall i :: 0 <= i < |events| ==> s.rows[i] == RowOf(events[i])
  {
    if |events| > 0 then Rows(seq(|events|, i requires 0 <= i < |events| => RowOf(events[i])))
    else ScheduleClear
  }
}
