/**
 * `Array.prototype.splice` as the converter uses it on its line array:
 * inserting one element, deleting one element, and inserting a run of
 * elements one at a time at an advancing position. A start index beyond
 * the end is clamped to the end; a negative start counts from the end.
 */
module Splice {
  import opened JsString

  /** `s.splice(i, 0, x)`. */
  function InsertAt<T>(s: seq<T>, i: int, x: T): (r: seq<T>)
    ensures |r| == |s| + 1
  {
    var k := FromEnd(i, |s|);
    s[..k] + [x] + s[k..]
  }

  /** `s.splice(i, 1)`. */
  function DeleteAt<T>(s: seq<T>, i: int): (r: seq<T>)
    ensures FromEnd(i, |s|) < |s| ==> |r| == |s| - 1
    ensures FromEnd(i, |s|) == |s| ==> r == s
  {
    var k := FromEnd(i, |s|);
    if k < |s| then s[..k] + s[k + 1..] else s
  }

  /** Inserting `xs` element by element, each at the position after the previous one. */
  function InsertAll<T>(s: seq<T>, i: int, xs: seq<T>): (r: seq<T>)
    ensures |r| == |s| + |xs|
    decreases |xs|
  {
    if xs == [] then s else InsertAll(InsertAt(s, i, xs[0]), i + 1, xs[1..])
  }

  /** Inside the array, the run lands in order at the start position. */
  lemma {:induction false} InsertAllInRange<T>(s: seq<T>, i: int, xs: seq<T>)
    requires 0 <= i <= |s|
    ensures InsertAll(s, i, xs) == s[..i] + xs + s[i..]
    decreases |xs|
  {
    if xs != [] {
      var s' := InsertAt(s, i, xs[0]);
      assert s' == s[..i] + [xs[0]] + s[i..];
      InsertAllInRange(s', i + 1, xs[1..]);
      assert s'[..i + 1] == s[..i] + [xs[0]];
      assert s'[i + 1..] == s[i..];
      assert [xs[0]] + xs[1..] == xs;
    }
  }

  /** Past the end, the run is appended in order. */
  lemma {:induction false} InsertAllPastEnd<T>(s: seq<T>, i: int, xs: seq<T>)
    requires i >= |s|
    ensures InsertAll(s, i, xs) == s + xs
    decreases |xs|
  {
    if xs != [] {
      var s' := InsertAt(s, i, xs[0]);
      assert s' == s + [xs[0]];
      InsertAllPastEnd(s', i + 1, xs[1..]);
      assert s + [xs[0]] + xs[1..] == s + xs;
    }
  }

  /**
   * Into an empty array from position -1, the first element is placed and
   * every later one goes in front of it: the first element ends up last.
   */
  lemma {:induction false} InsertAllIntoEmptyFromEnd<T>(xs: seq<T>)
    requires xs != []
    ensures InsertAll([], -1, xs) == xs[1..] + [xs[0]]
  {
    var s' := InsertAt([], -1, xs[0]);
    assert s' == [xs[0]];
    InsertAllInRange(s', 0, xs[1..]);
    assert s'[..0] == [] && s'[0..] == [xs[0]];
  }

  /** Inserting at a position inside the array leaves everything from that position on at the end. */
  lemma InsertAllKeepsSuffix<T>(s: seq<T>, i: int, xs: seq<T>)
    requires 0 <= i <= |s|
    ensures InsertAll(s, i, xs)[i + |xs|..] == s[i..]
  {
    InsertAllInRange(s, i, xs);
    assert (s[..i] + xs + s[i..])[i + |xs|..] == s[i..];
  }

  /** Replacing the element at i by a run leaves everything after i at the end. */
  lemma ReplaceKeepsSuffix<T>(s: seq<T>, i: int, xs: seq<T>)
    requires 0 <= i < |s|
    ensures InsertAll(DeleteAt(s, i), i, xs)[i + |xs|..] == s[i + 1..]
  {
    var d := DeleteAt(s, i);
    assert d == s[..i] + s[i + 1..];
    InsertAllKeepsSuffix(d, i, xs);
    assert d[i..] == s[i + 1..];
  }

  /**
   * `for (y in xs) { s.splice(i, 0, xs[y]); i++; }`: the run inserted one
   * element at a time, each after the previous one.
   */
  method SpliceIn<T>(s: seq<T>, i: int, xs: seq<T>) returns (r: seq<T>, j: int)
    ensures r == InsertAll(s, i, xs)
    ensures j == i + |xs|
  {
    r, j := s, i;
    var y := 0;
    while y < |xs|
      invariant 0 <= y <= |xs| && j == i + y
      invariant InsertAll(r, j, xs[y..]) == InsertAll(s, i, xs)
    {
      assert xs[y..][0] == xs[y] && xs[y..][1..] == xs[y + 1..];
      r := InsertAt(r, j, xs[y]);
      j := j + 1;
      y := y + 1;
    }
    assert xs[y..] == [];
  }
}
