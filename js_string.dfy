/**
 * The JavaScript string operations the converter relies on, with the
 * clamping and negative-index rules of String.prototype.{substr, substring,
 * slice, indexOf, trim, padEnd}. Case mapping is ASCII only.
 */
module JsString {

  /** WhiteSpace and LineTerminator code points, the set `trim` removes. */
  predicate IsSpace(c: char) {
    c == ' ' || c == '\t' || c == '\n' || c == '\r' || c == '\U{B}' || c == '\U{C}' ||
    c == '\U{A0}' || c == '\U{1680}' || ('\U{2000}' <= c <= '\U{200A}') ||
    c == '\U{2028}' || c == '\U{2029}' || c == '\U{202F}' || c == '\U{205F}' ||
    c == '\U{3000}' || c == '\U{FEFF}'
  }

  predicate AllSpaces(s: string) {
    forall i :: 0 <= i < |s| ==> IsSpace(s[i])
  }

  /** `s.trimEnd()` (alias `trimRight`). */
  function TrimEnd(s: string): (r: string)
    ensures |r| <= |s| && r == s[..|r|]
    ensures r == [] || !IsSpace(r[|r| - 1])
    ensures AllSpaces(s[|r|..])
  {
    if s == [] || !IsSpace(s[|s| - 1]) then s
    else
      var r := TrimEnd(s[..|s| - 1]);
      assert s[|r|..] == s[..|s| - 1][|r|..] + [s[|s| - 1]];
      r
  }

  /** The number of blanks at the start of `s`. */
  function LeadingSpaces(s: string): (k: nat)
    ensures k <= |s|
    ensures k == |s| || !IsSpace(s[k])
    ensures forall i :: 0 <= i < k ==> IsSpace(s[i])
  {
    if s == [] || !IsSpace(s[0]) then 0 else 1 + LeadingSpaces(s[1..])
  }

  /** `s.trimStart()` (alias `trimLeft`). */
  function TrimStart(s: string): (r: string)
    ensures |r| <= |s|
    ensures r == [] || !IsSpace(r[0])
    ensures AllSpaces(s[..|s| - |r|])
  {
    s[LeadingSpaces(s)..]
  }

  /** `s.trim()`. */
  function Trim(s: string): (r: string)
    ensures |r| <= |s|
    ensures r == [] || (!IsSpace(r[0]) && !IsSpace(r[|r| - 1]))
  {
    TrimStart(TrimEnd(s))
  }

  lemma {:induction false} TrimEndOfTrimmed(s: string)
    requires s == [] || !IsSpace(s[|s| - 1])
    ensures TrimEnd(s) == s
  {
  }

  lemma {:induction false} TrimEndOfTrim(s: string)
    ensures TrimEnd(Trim(s)) == Trim(s)
  {
    TrimEndOfTrimmed(Trim(s));
  }

  lemma {:induction false} TrimStartOfTrimmed(s: string)
    requires s == [] || !IsSpace(s[0])
    ensures TrimStart(s) == s
  {
  }

  /** Trimming a string that has no blank at either end changes nothing. */
  lemma {:induction false} TrimOfTrimmed(s: string)
    requires s == [] || (!IsSpace(s[0]) && !IsSpace(s[|s| - 1]))
    ensures Trim(s) == s
  {
    TrimEndOfTrimmed(s);
    TrimStartOfTrimmed(s);
  }

  /** `Trim` is idempotent. */
  lemma {:induction false} TrimIdempotent(s: string)
    ensures Trim(Trim(s)) == Trim(s)
  {
    TrimOfTrimmed(Trim(s));
  }

  /** Trailing blanks after a non-blank are all that TrimEnd removes. */
  lemma {:induction false} TrimEndAppendSpaces(s: string, pad: string)
    requires s == [] || !IsSpace(s[|s| - 1])
    requires AllSpaces(pad)
    ensures TrimEnd(s + pad) == s
    decreases |pad|
  {
    if pad == [] {
      assert s + pad == s;
      TrimEndOfTrimmed(s);
    } else {
      var t := pad[..|pad| - 1];
      assert (s + pad)[..|s + pad| - 1] == s + t;
      assert AllSpaces(t) by {
        forall i | 0 <= i < |t| ensures IsSpace(t[i]) { assert t[i] == pad[i]; }
      }
      TrimEndAppendSpaces(s, t);
    }
  }

  /** Right-trimming never cuts into a prefix that ends in a non-blank. */
  lemma {:induction false} TrimEndKeepsPrefix(p: string, x: string)
    requires p != [] && !IsSpace(p[|p| - 1])
    ensures StartsWith(TrimEnd(p + x), p)
  {
    var s := p + x;
    var r := TrimEnd(s);
    if |r| < |p| {
      assert false;
    }
    assert r[..|p|] == s[..|p|];
  }

  function UpperChar(c: char): char {
    if 'a' <= c <= 'z' then c - 'a' + 'A' else c
  }

  function LowerChar(c: char): char {
    if 'A' <= c <= 'Z' then c - 'A' + 'a' else c
  }

  /** `s.toUpperCase()` restricted to ASCII letters. */
  function Upper(s: string): (r: string)
    ensures |r| == |s|
    ensures forall i :: 0 <= i < |s| ==> r[i] == UpperChar(s[i])
  {
    seq(|s|, i requires 0 <= i < |s| => UpperChar(s[i]))
  }

  /** `s.toLowerCase()` restricted to ASCII letters. */
  function Lower(s: string): (r: string)
    ensures |r| == |s|
    ensures forall i :: 0 <= i < |s| ==> r[i] == LowerChar(s[i])
  {
    seq(|s|, i requires 0 <= i < |s| => LowerChar(s[i]))
  }

  /** `"".padEnd(n)`. */
  function Spaces(n: int): (r: string)
    ensures |r| == if n < 0 then 0 else n
    ensures AllSpaces(r)
    ensures forall i :: 0 <= i < |r| ==> r[i] == ' '
  {
    seq(if n < 0 then 0 else n, i => ' ')
  }

  /** `s.padEnd(n)`: s followed by blanks up to length n. */
  function PadEnd(s: string, n: int): (r: string)
    ensures |r| == if n > |s| then n else |s|
    ensures r[..|s|] == s
    ensures forall i :: |s| <= i < |r| ==> r[i] == ' '
  {
    s + Spaces(n - |s|)
  }

  function Clamp(i: int, n: nat): (r: nat)
    ensures r <= n
    ensures 0 <= i <= n ==> r == i
  {
    if i < 0 then 0 else if i > n then n else i
  }

  /**
   * Start position normalisation shared by substr, slice and array splice:
   * negative counts from the end, past the end is the end.
   */
  function FromEnd(i: int, n: nat): (r: nat)
    ensures r <= n
    ensures 0 <= i <= n ==> r == i
    ensures i > n ==> r == n
  {
    if i < 0 then (if n + i < 0 then 0 else n + i) else if i > n then n else i
  }

  /** `s.substr(start)`. */
  function SubstrFrom(s: string, start: int): string {
    s[FromEnd(start, |s|)..]
  }

  /** `s.substr(start, length)`. */
  function Substr(s: string, start: int, length: int): (r: string)
    ensures |r| <= (if length < 0 then 0 else length)
  {
    var a := FromEnd(start, |s|);
    var b := if length <= 0 then a else if a + length > |s| then |s| else a + length;
    s[a..b]
  }

  /** `s.substring(a, b)`: both ends clamped to [0, |s|], swapped when out of order. */
  function Substring(s: string, a: int, b: int): string {
    var x := Clamp(a, |s|);
    var y := Clamp(b, |s|);
    if x <= y then s[x..y] else s[y..x]
  }

  /** `s.substring(a)`. */
  function SubstringFrom(s: string, a: int): string {
    s[Clamp(a, |s|)..]
  }

  /** `s.slice(a, b)`. */
  function Slice(s: string, a: int, b: int): string {
    var x := FromEnd(a, |s|);
    var y := FromEnd(b, |s|);
    if x < y then s[x..y] else ""
  }

  /** `s.slice(a)`. */
  function SliceFrom(s: string, a: int): string {
    s[FromEnd(a, |s|)..]
  }

  /** `pat` occurs in `s` at position `i`. */
  predicate At(s: string, pat: string, i: int) {
    0 <= i && i + |pat| <= |s| && s[i..i + |pat|] == pat
  }

  function Search(s: string, pat: string, from: nat): (r: int)
    requires from <= |s|
    ensures r == -1 || (from <= r && At(s, pat, r))
    ensures forall i :: from <= i && (r == -1 || i < r) ==> !At(s, pat, i)
    decreases |s| - from
  {
    if from + |pat| > |s| then -1
    else if At(s, pat, from) then from
    else if from == |s| then -1
    else Search(s, pat, from + 1)
  }

  /** `s.indexOf(pat, from)`: the first occurrence at or after `from`, or -1. */
  function IndexOfFrom(s: string, pat: string, from: int): (r: int)
    ensures r == -1 || (Clamp(from, |s|) <= r && At(s, pat, r))
    ensures forall i :: Clamp(from, |s|) <= i && (r == -1 || i < r) ==> !At(s, pat, i)
  {
    Search(s, pat, Clamp(from, |s|))
  }

  /** `s.indexOf(pat)`. */
  function IndexOf(s: string, pat: string): (r: int)
    ensures r == -1 || At(s, pat, r)
    ensures forall i :: 0 <= i && (r == -1 || i < r) ==> !At(s, pat, i)
  {
    IndexOfFrom(s, pat, 0)
  }

  predicate Contains(s: string, pat: string) {
    IndexOf(s, pat) != -1
  }

  predicate StartsWith(s: string, pat: string) {
    |pat| <= |s| && s[..|pat|] == pat
  }

  predicate EndsWith(s: string, pat: string) {
    |pat| <= |s| && s[|s| - |pat|..] == pat
  }

  /** `s.replace(pat, rep)` with a string pattern: only the first occurrence is replaced. */
  function ReplaceFirst(s: string, pat: string, rep: string): string {
    var i := IndexOf(s, pat);
    if i == -1 then s else s[..i] + rep + s[i + |pat|..]
  }

  /** `String.prototype.charAt(0)`: the first code unit, or "" for an empty string. */
  function FirstChar(s: string): (r: string)
    ensures |r| <= 1
  {
    if s == [] then "" else [s[0]]
  }

  /** `s.slice(-1)`: the last character, or "" for an empty string. */
  function LastChar(s: string): (r: string)
    ensures r == (if s == [] then "" else [s[|s| - 1]])
  {
    SliceFrom(s, -1)
  }

  /** The number of occurrences of `ch` in `s`. */
  function Count(s: string, ch: char): nat {
    if s == [] then 0 else Count(s[..|s| - 1], ch) + (if s[|s| - 1] == ch then 1 else 0)
  }

  lemma {:induction false} CountAppend(a: string, b: string, ch: char)
    ensures Count(a + b, ch) == Count(a, ch) + Count(b, ch)
    decreases |b|
  {
    if b != [] {
      assert (a + b)[..|a + b| - 1] == a + b[..|b| - 1];
      CountAppend(a, b[..|b| - 1], ch);
    } else {
      assert a + b == a;
    }
  }

  lemma {:induction false} CountAbsent(s: string, ch: char)
    requires forall i :: 0 <= i < |s| ==> s[i] != ch
    ensures Count(s, ch) == 0
    decreases |s|
  {
    if s != [] {
      CountAbsent(s[..|s| - 1], ch);
    }
  }

  lemma CountSingle(c: char, ch: char)
    ensures Count([c], ch) == if c == ch then 1 else 0
  {
    assert [c][..0] == [];
  }
}
