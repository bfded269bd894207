/** Sequence helpers with JavaScript's array meaning: `slice(0, end)` and `filter`. */
module Lists {
  /**
   * The end index `slice(0, end)` uses on an array of length `n`: a negative
   * end counts back from the length, and the index is clamped to `[0, n]`.
   */
  function SliceEnd(n: nat, end: int): (r: nat)
    ensures r <= n
    ensures 0 <= end ==> r == if end < n then end else n
    ensures end < 0 ==> r == if n + end < 0 then 0 else n + end
  {
    if end < 0 then (if n + end < 0 then 0 else n + end)
    else if end < n then end
    else n
  }

  /** `s.slice(0, end)`. */
  function Take<T>(s: seq<T>, end: int): (r: seq<T>)
    ensures |r| == SliceEnd(|s|, end) && r == s[..|r|]
    ensures 0 <= end ==> |r| <= end
  {
    s[..SliceEnd(|s|, end)]
  }

  /** Taking at least the whole length gives the whole sequence back. */
  lemma TakeAll<T>(s: seq<T>, end: int)
    requires end >= |s|
    ensures Take(s, end) == s
  {
  }
}
