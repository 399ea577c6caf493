/**
 * Python's `s[a:b]` on lists and strings: negative bounds count from the end,
 * bounds past either end are clamped, and an empty range yields `[]`.
 */
module Slices {

  /** A slice bound as Python resolves it against a sequence of length `len`. */
  function SliceBound(b: int, len: nat): (r: nat)
    ensures r <= len
    ensures 0 <= b <= len ==> r == b
    ensures b > len ==> r == len
    ensures b < 0 ==> r == if b + len < 0 then 0 else b + len
  {
    if b < 0 then (if b + len < 0 then 0 else b + len)
    else if b > len then len
    else b
  }

  /** `s[a:b]`. */
  function PySlice<T>(s: seq<T>, a: int, b: int): seq<T> {
    var lo := SliceBound(a, |s|);
    var hi := SliceBound(b, |s|);
    if lo < hi then s[lo..hi] else []
  }

  function Min(a: int, b: int): int {
    if a <= b then a else b
  }

  function Max(a: int, b: int): int {
    if a >= b then a else b
  }

  /**
   * A slice with bounds `0 <= a <= b` is the run of elements from `a`
   * onwards, at most `b - a` of them, stopping at the end of `s`.
   */
  lemma ForwardSlice<T>(s: seq<T>, a: int, b: int)
    requires 0 <= a <= b
    ensures |PySlice(s, a, b)| == Max(0, Min(b - a, |s| - a))
    ensures forall k :: 0 <= k < |PySlice(s, a, b)| ==> PySlice(s, a, b)[k] == s[a + k]
  {
  }

  /** A slice never has more elements than the sequence it is taken from. */
  lemma SliceLength<T>(s: seq<T>, a: int, b: int)
    ensures |PySlice(s, a, b)| <= |s|
    ensures 0 <= a <= b ==> |PySlice(s, a, b)| <= b - a
  {
  }

  /** `s[-k:]` for `k > 0`: the last `k` elements, or all of `s` if shorter. */
  lemma TailSlice<T>(s: seq<T>, k: int)
    requires k > 0
    ensures PySlice(s, -k, |s|) == if k >= |s| then s else s[|s| - k..]
  {
  }
}
