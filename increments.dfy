/**
 * The loop-step patch. When a converted END/ENDDO carries the step of its
 * DO loop, the converter looks back from the current line for the nearest
 * `For … by NAME` it emitted earlier and writes the step in: a step of ""
 * or "1" drops the `by` clause, any other step replaces NAME, and a step
 * written with a leading '-' also turns the first ` to ` after it into
 * ` downto `. Every line passed over on the way back raises one message.
 */
module Increments {
  import opened JsString
  import opened Results

  /**
   * Where `(For .*?)( by NAME)` matches: the first "For " and the first
   * " by NAME" that starts after it. A later "For " can only match if the
   * first one does, so the first is where the match always starts.
   */
  function ForBy(line: string, name: string): (m: Option<(nat, nat)>)
    ensures m.Some? ==>
      At(line, "For ", m.value.0) && m.value.0 + 4 <= m.value.1 && At(line, " by " + name, m.value.1)
    ensures m.None? ==> forall p, q :: 0 <= p && p + 4 <= q && At(line, "For ", p) ==> !At(line, " by " + name, q)
  {
    var p := IndexOf(line, "For ");
    if p == -1 then None
    else
      var q := IndexOfFrom(line, " by " + name, p + 4);
      if q == -1 then None else Some((p, q))
  }

  /** The last occurrence of `pat` starting at or after `from`, or -1. */
  function LastAt(s: string, pat: string, from: nat): (r: int)
    ensures r == -1 || (from <= r && At(s, pat, r))
    ensures forall i :: (if r == -1 then from else r + 1) <= i ==> !At(s, pat, i)
    decreases |s| - from
  {
    if from > |s| then -1
    else
      var later := LastAt(s, pat, from + 1);
      if later != -1 then later else if At(s, pat, from) then from else -1
  }

  /**
   * `(For .* by VALUE)( to )` replaced by `$1 downto `: greedy, so the last
   * " by VALUE to " after the first "For " is the one rewritten.
   */
  function Downto(line: string, value: string): string {
    var p := IndexOf(line, "For ");
    if p == -1 then line
    else
      var r := LastAt(line, " by " + value + " to ", p + 4);
      if r == -1 then line
      else line[..r + |" by " + value|] + " downto " + line[r + |" by " + value + " to "|..]
  }

  /** The line with the ` by NAME` at `q` written as ` by VALUE`. */
  function Rewritten(line: string, q: nat, name: string, value: string): string
    requires q + |" by " + name| <= |line|
  {
    line[..q] + " by " + value + line[q + |" by " + name|..]
  }

  /** The matching line after the patch. */
  function Patch(line: string, name: string, value: string): string
    requires ForBy(line, name).Some?
  {
    var q := ForBy(line, name).value.1;
    if value == "" || value == "1" then line[..q] + line[q + |" by " + name|..]
    else if FirstChar(value) == "-" then Downto(Rewritten(line, q, name, value), value)
    else Rewritten(line, q, name, value)
  }

  /** The nearest line strictly before `from` that matches, or -1. */
  function NearestFor(lines: seq<string>, from: int, name: string): (k: int)
    requires from <= |lines|
    ensures k == -1 || (0 <= k < from && ForBy(lines[k], name).Some?)
    ensures forall j :: k < j < from && 0 <= j ==> ForBy(lines[j], name).None?
    decreases from
  {
    if from <= 0 then -1
    else if ForBy(lines[from - 1], name).Some? then from - 1
    else NearestFor(lines, from - 1, name)
  }

  function MissText(name: string, value: string): string {
    "Unabled to find matching FOR for END/ENDDO; increment \"" + name + "\" with value \"" + value + "\" not set."
  }

  /** One copy of the miss message per line passed over. */
  function Misses(line: int, n: nat, name: string, value: string): (r: seq<Message>)
    ensures |r| == n && forall i :: 0 <= i < n ==> r[i] == Message(line, MissText(name, value))
  {
    seq(n, _ => Message(line, MissText(name, value)))
  }

  /** The lines after the scan: only the nearest match, if there is one, is patched. */
  function Patched(lines: seq<string>, from: int, name: string, value: string): (r: seq<string>)
    requires from <= |lines|
    ensures |r| == |lines|
  {
    var k := NearestFor(lines, from, name);
    if k == -1 then lines else lines[k := Patch(lines[k], name, value)]
  }

  /** How many lines the scan passes over before it matches or runs out. */
  function Passed(lines: seq<string>, from: int, name: string): nat
    requires from <= |lines|
  {
    var k := NearestFor(lines, from, name);
    if from <= 0 then 0 else from - 1 - k
  }

  /**
   * The backwards scan from `currentLine - 1` to line 0: it stops at the
   * first line that matches and patches it, and raises a message for every
   * line it passed over.
   */
  method PatchIncrement(lines: seq<string>, currentLine: int, name: string, value: string)
    returns (r: seq<string>, notes: seq<Message>)
    requires 0 <= currentLine <= |lines|
    ensures r == Patched(lines, currentLine, name, value)
    ensures notes == Misses(currentLine, Passed(lines, currentLine, name), name, value)
  {
    r := lines;
    notes := [];
    var idx := currentLine - 1;
    while idx >= 0
      invariant -1 <= idx < currentLine
      invariant NearestFor(lines, currentLine, name) == NearestFor(lines, idx + 1, name)
      invariant r == lines
      invariant notes == Misses(currentLine, currentLine - 1 - idx, name, value)
      decreases idx
    {
      if ForBy(lines[idx], name).Some? {
        r := lines[idx := Patch(lines[idx], name, value)];
        notes := Misses(currentLine, currentLine - 1 - idx, name, value);
        return;
      }
      notes := notes + [Message(currentLine, MissText(name, value))];
      idx := idx - 1;
    }
  }

  /**
   * A step of "" or "1" removes the matched ` by NAME` and nothing else:
   * putting the clause back at the match gives the line as it was.
   */
  lemma DropStep(line: string, name: string, value: string)
    requires ForBy(line, name).Some? && (value == "" || value == "1")
    ensures var q := ForBy(line, name).value.1;
      var r := Patch(line, name, value);
      q <= |r| && |r| == |line| - |" by " + name| &&
      r[..q] + " by " + name + r[q..] == line
  {
    var q := ForBy(line, name).value.1;
    var clause := " by " + name;
    var r := Patch(line, name, value);
    assert r == line[..q] + line[q + |clause|..];
    assert r[..q] == line[..q] && r[q..] == line[q + |clause|..];
    assert line[q..q + |clause|] == clause;
    assert line == line[..q] + line[q..q + |clause|] + line[q + |clause|..];
  }

  /** A positive step takes NAME's place, and the rest of the line is kept around it. */
  lemma SubstituteStep(line: string, name: string, value: string)
    requires ForBy(line, name).Some? && value != "" && value != "1" && FirstChar(value) != "-"
    ensures var q := ForBy(line, name).value.1;
      var r := Patch(line, name, value);
      r[..q] == line[..q] && At(r, " by " + value, q) &&
      r[q + |" by " + value|..] == line[q + |" by " + name|..]
  {
    var q := ForBy(line, name).value.1;
    assert Patch(line, name, value) == Rewritten(line, q, name, value);
    RewrittenShape(line, q, name, value);
  }

  lemma RewrittenShape(line: string, q: nat, name: string, value: string)
    requires q + |" by " + name| <= |line|
    ensures var r := Rewritten(line, q, name, value);
      r[..q] == line[..q] && At(r, " by " + value, q) &&
      r[q + |" by " + value|..] == line[q + |" by " + name|..]
  {
    assert Rewritten(line, q, name, value) == line[..q] + (" by " + value) + line[q + |" by " + name|..];
  }

  /** Once a " by VALUE to " follows a "For ", `Downto` rewrites some such ` to `. */
  lemma DowntoFinds(line: string, value: string, p0: nat, q: nat) returns (i: nat)
    requires At(line, "For ", p0) && p0 + 4 <= q && At(line, " by " + value + " to ", q)
    ensures At(Downto(line, value), " by " + value + " downto ", i)
  {
    var p := IndexOf(line, "For ");
    assert p != -1 && p <= p0;
    var step := " by " + value;
    var r := LastAt(line, step + " to ", p + 4);
    assert r != -1;
    assert Downto(line, value) == line[..r + |step|] + " downto " + line[r + |step + " to "|..];
    AtPrefix(line, step, " to ", r);
    var kept := line[..r + |step|];
    assert kept[r..] == line[r..r + |step|];
    AtJoin(kept, " downto ", line[r + |step + " to "|..], step, r);
    i := r;
  }

  lemma AtPrefix(s: string, x: string, y: string, i: int)
    requires At(s, x + y, i)
    ensures At(s, x, i)
  {
    assert s[i..i + |x|] == s[i..i + |x + y|][..|x|];
  }

  lemma AtJoin(a: string, b: string, c: string, x: string, i: nat)
    requires i + |x| == |a| && a[i..] == x
    ensures At(a + b + c, x + b, i)
  {
    assert (a + b + c)[i..i + |x + b|] == a[i..] + b;
  }

  /**
   * A negative step written in front of a ` to ` makes the loop count down:
   * the patched line holds ` downto ` right after some ` by VALUE`.
   */
  lemma NegativeStep(line: string, name: string, value: string)
    requires ForBy(line, name).Some? && value != "" && value != "1" && FirstChar(value) == "-"
    requires At(line, " to ", ForBy(line, name).value.1 + |" by " + name|)
    ensures exists i :: At(Patch(line, name, value), " by " + value + " downto ", i)
  {
    var p0, q := ForBy(line, name).value.0, ForBy(line, name).value.1;
    var patched := Rewritten(line, q, name, value);
    assert Patch(line, name, value) == Downto(patched, value);
    StepWritten(line, p0, q, name, value);
    var i := DowntoFinds(patched, value, p0, q);
    assert At(Patch(line, name, value), " by " + value + " downto ", i);
  }

  /** Writing the step in keeps the `For ` and puts ` by VALUE to ` where ` by NAME to ` stood. */
  lemma StepWritten(line: string, p0: nat, q: nat, name: string, value: string)
    requires At(line, "For ", p0) && p0 + 4 <= q && At(line, " by " + name, q)
    requires At(line, " to ", q + |" by " + name|)
    ensures At(Rewritten(line, q, name, value), "For ", p0)
    ensures At(Rewritten(line, q, name, value), " by " + value + " to ", q)
  {
    var rest := line[q + |" by " + name|..];
    var patched := Rewritten(line, q, name, value);
    assert patched == line[..q] + " by " + value + rest;
    assert rest[..4] == " to ";
    assert patched[q..q + |" by " + value + " to "|] == " by " + value + " to ";
    assert patched[p0..p0 + 4] == line[p0..p0 + 4];
  }

  /** The scan never touches the current line or anything after it. */
  lemma PatchedKeepsFrom(lines: seq<string>, from: int, name: string, value: string)
    requires 0 <= from <= |lines|
    ensures Patched(lines, from, name, value)[from..] == lines[from..]
  {
  }
}
