/** The summary card: the summary text is cut into lines at `\n`; each
    line whose trimmed form starts with `*` or `-` becomes a bullet, with
    its first marker and the white space after it removed. */
module SummaryCard {
  import opened Wrappers
  import opened JsStrings

  predicate IsMarker(c: char) {
    c == '*' || c == '-'
  }

  /** `item.trim().startsWith('*') || item.trim().startsWith('-')`. */
  predicate IsBulletLine(line: string) {
    StartsWith(Trim(line), "*") || StartsWith(Trim(line), "-")
  }

  /** Where the pattern `[*-]\s*` of the replacement first matches: the
      first marker of the line. */
  function FirstMarker(line: string): (r: Option<nat>)
    ensures r.Some? ==> r.value < |line| && IsMarker(line[r.value])
    ensures r.Some? ==> forall i :: 0 <= i < r.value ==> !IsMarker(line[i])
    ensures r.None? ==> forall i :: 0 <= i < |line| ==> !IsMarker(line[i])
  {
    if line == [] then None
    else if IsMarker(line[0]) then Some(0)
    else match FirstMarker(line[1..])
      case None => None
      case Some(k) => Some(k + 1)
  }

  /** `item.replace` of the pattern `[*-]\s*` by nothing: the first marker and the run of white
      space after it are cut out; a line without a marker is unchanged. */
  function StripMarker(line: string): (stripped: string)
    ensures FirstMarker(line).None? ==> stripped == line
    ensures FirstMarker(line).Some? ==>
      var k := FirstMarker(line).value;
      && k <= |stripped| <= |line| - 1
      && stripped[..k] == line[..k]
      && (k < |stripped| ==> !IsJsSpace(stripped[k]))
    ensures FirstMarker(line).Some? ==>
      var k, n := FirstMarker(line).value, |line| - |stripped|;
      && k + n <= |line|
      && stripped == line[..k] + line[k + n..]
      && (forall i :: k < i < k + n ==> IsJsSpace(line[i]))
  {
    match FirstMarker(line)
    case None => line
    case Some(k) =>
      var after := line[k + 1..];
      line[..k] + after[LeadingSpace(after)..]
  }

  /** A bullet line's trimmed form starts with its first non-space
      character, which is a marker. */
  lemma BulletMarker(line: string)
    requires IsBulletLine(line)
    ensures LeadingSpace(line) < |line| && IsMarker(line[LeadingSpace(line)])
  {
    var t := Trim(line);
    assert |t| > 0 && IsMarker(t[0]) by {
      assert t[..1] == "*" || t[..1] == "-";
    }
    assert t[0] == line[LeadingSpace(line)];
  }

  /** The text of a bullet: a bullet line's first marker sits right after
      its leading white space, so that white space is kept and what
      follows the marker is kept once its own leading white space is
      gone. */
  lemma BulletText(line: string)
    requires IsBulletLine(line)
    ensures LeadingSpace(line) < |line| && IsMarker(line[LeadingSpace(line)])
    ensures var k := LeadingSpace(line); var after := line[k + 1..];
      StripMarker(line) == line[..k] + after[LeadingSpace(after)..]
  {
    var k := LeadingSpace(line);
    BulletMarker(line);
    forall i | 0 <= i < k ensures !IsMarker(line[i]) {
      assert IsJsSpace(line[i]);
    }
    var r := FirstMarker(line);
    assert r.Some? && r.value <= k;
    assert r.value >= k;
  }

  /** What one line contributes to the list: its bullet, or nothing. */
  function LineBullet(line: string): (r: seq<string>)
    ensures |r| <= 1
  {
    if IsBulletLine(line) then [StripMarker(line)] else []
  }

  /** The `<li>` texts for a list of lines, in line order (the `map` that
      renders `null` for non-bullet lines). */
  function BulletsOf(lines: seq<string>): (bullets: seq<string>)
    ensures |bullets| <= |lines|
  {
    Gather(LineBullet, lines)
  }

  /** Each line's contribution, one after the other. */
  function Gather(f: string -> seq<string>, xs: seq<string>): (r: seq<string>)
    requires forall x :: |f(x)| <= 1
    ensures |r| <= |xs|
  {
    if |xs| == 0 then [] else f(xs[0]) + Gather(f, xs[1..])
  }

  /** Bullets keep line order: those of a concatenation are those of the
      first part followed by those of the second. */
  lemma BulletsOfAppend(a: seq<string>, b: seq<string>)
    ensures BulletsOf(a + b) == BulletsOf(a) + BulletsOf(b)
  {
    GatherAppend(LineBullet, a, b);
  }

  lemma {:induction false} GatherAppend(f: string -> seq<string>, a: seq<string>, b: seq<string>)
    requires forall x :: |f(x)| <= 1
    ensures Gather(f, a + b) == Gather(f, a) + Gather(f, b)
    decreases |a|
  {
    if |a| == 0 {
      assert a + b == b;
    } else {
      var ab := a + b;
      assert ab[0] == a[0];
      assert ab[1..] == a[1..] + b;
      GatherAppend(f, a[1..], b);
      assert Gather(f, ab) == f(a[0]) + Gather(f, a[1..] + b);
    }
  }

  /** A single line yields one bullet exactly when it is a bullet line. */
  lemma BulletsOfLine(line: string)
    ensures BulletsOf([line]) == if IsBulletLine(line) then [StripMarker(line)] else []
  {
    assert [line][1..] == [];
    assert Gather(LineBullet, [line]) == LineBullet(line) + [];
  }

  /** The bullets of a summary. */
  function Bullets(summary: string): (bullets: seq<string>)
    ensures |bullets| <= |Split(summary, "\n")|
  {
    BulletsOf(Split(summary, "\n"))
  }
}
