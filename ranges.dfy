/**
 * Index ranges shared by the scan and the sampler: `Range(lo, hi)` is the
 * sequence lo, lo + 1, ..., hi - 1 that a counted `for` loop visits.
 */
module Ranges {

  function Range(lo: int, hi: int): (r: seq<int>)
    requires lo <= hi
    ensures |r| == hi - lo && forall k :: 0 <= k < |r| ==> r[k] == lo + k
    decreases hi - lo
  {
    if lo == hi then [] else Range(lo, hi - 1) + [hi - 1]
  }

  /** Two adjacent ranges join into one. */
  lemma {:induction false} RangeAppend(lo: int, mid: int, hi: int)
    requires lo <= mid <= hi
    ensures Range(lo, mid) + Range(mid, hi) == Range(lo, hi)
    decreases hi - mid
  {
    if mid < hi {
      RangeAppend(lo, mid, hi - 1);
    }
  }

  /** `Range(lo, hi)` holds exactly the integers from lo up to hi - 1. */
  lemma RangeMembers(lo: int, hi: int, x: int)
    requires lo <= hi
    ensures x in Range(lo, hi) <==> lo <= x < hi
  {
    if lo <= x < hi {
      assert Range(lo, hi)[x - lo] == x;
    }
  }
}
