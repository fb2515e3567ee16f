/** The helper functions the page templates call: `add`, `sub` and `seq`. */
module Templates {

  /** `add`: the sum of its two arguments. */
  function Add(a: int, b: int): (r: int)
    ensures r - b == a && r - a == b
  {
    a + b
  }

  /** `sub`: the difference of its two arguments. */
  function Sub(a: int, b: int): (r: int)
    ensures r + b == a
  {
    a - b
  }

  /** `sub` undoes `add` and `add` undoes `sub`, so "previous" and "next" links are inverse. */
  lemma AddSubInverse(a: int, b: int)
    ensures Sub(Add(a, b), b) == a
    ensures Add(Sub(a, b), b) == a
  {
  }

  /**
   * `seq(start, end)`: the integers from `start` to `end` inclusive, in
   * increasing order, built by a counting loop; empty when `end < start`.
   */
  method Seq(start: int, end: int) returns (s: seq<int>)
    ensures end < start ==> s == []
    ensures start <= end ==> |s| == end - start + 1
    ensures forall i :: 0 <= i < |s| ==> s[i] == start + i
    ensures forall k :: k in s <==> start <= k <= end
  {
    if end < start {
      return [];
    }
    s := [];
    var i := start;
    while i <= end
      invariant start <= i <= end + 1
      invariant |s| == i - start
      invariant forall j :: 0 <= j < |s| ==> s[j] == start + j
    {
      s := s + [i];
      i := i + 1;
    }
    forall k | start <= k <= end
      ensures k in s
    {
      assert s[k - start] == k;
    }
  }
}
