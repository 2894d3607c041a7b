/** The array built-ins the tracker calls: `find`/`findIndex` (first element
    satisfying a test), `indexOf` (first element equal to a value) and
    `splice(i, 1)` (remove the element at one position). Arrays are modelled
    as sequences. */
module JsArrays {

  /** `k` is the position of the first element of `s` that satisfies `p`. */
  ghost predicate IsFirst<T>(s: seq<T>, p: T -> bool, k: int) {
    0 <= k < |s| && p(s[k]) && forall j :: 0 <= j < k ==> !p(s[j])
  }

  /** `findIndex`: the position of the first element satisfying `p`,
      or -1 when no element does. */
  function FindIndex<T>(s: seq<T>, p: T -> bool): (i: int)
    ensures i == -1 <==> forall j :: 0 <= j < |s| ==> !p(s[j])
    ensures i != -1 ==> IsFirst(s, p, i)
  {
    if s == [] then -1
    else if p(s[0]) then 0
    else
      var k := FindIndex(s[1..], p);
      if k == -1 then -1 else k + 1
  }

  /** `indexOf`: the position of the first element equal to `x`, or -1
      when `x` does not occur. */
  function IndexOf<T(==)>(s: seq<T>, x: T): (i: int)
    ensures i == -1 <==> x !in s
    ensures i != -1 ==> 0 <= i < |s| && s[i] == x && x !in s[..i]
  {
    FindIndex(s, y => y == x)
  }

  /** `splice` of one element: the element at position `i` removed. */
  function RemoveAt<T>(s: seq<T>, i: nat): (r: seq<T>)
    requires i < |s|
    ensures |r| == |s| - 1
    ensures forall j :: 0 <= j < i ==> r[j] == s[j]
    ensures forall j :: i <= j < |r| ==> r[j] == s[j + 1]
  {
    s[..i] + s[i + 1..]
  }

  /** The delete handlers' removal, as a value: find `x` with `indexOf` and,
      when found, splice it out. The first occurrence of `x` is dropped, every
      other element keeps its place in order, and a list without `x` is
      returned unchanged. */
  function RemoveFirst<T(==)>(s: seq<T>, x: T): (r: seq<T>)
    ensures x !in s ==> r == s
    ensures x in s ==> |r| == |s| - 1 && multiset(r) == multiset(s) - multiset{x}
    ensures x in s ==> r == RemoveAt(s, IndexOf(s, x))
  {
    var ix := IndexOf(s, x);
    if ix > -1 then
      assert s == s[..ix] + [x] + s[ix + 1..];
      RemoveAt(s, ix)
    else s
  }
}
