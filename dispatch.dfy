/**
 * The scatter-gather plumbing of the sampler (src/analyze.cpp): blocking
 * queues of unit indexes or index ranges going to worker threads and of
 * completion notices coming back, the fixed 250-wide blocks the driver cuts
 * the index space into, and the `(-1, -1)` range that stops a worker.
 *
 * The model is sequential: a queue is a sequence of items; a pop from an
 * empty queue, where the thread would block, is excluded by precondition,
 * so every pop the driver makes must be matched by an earlier push.
 */
module Dispatch {
  import opened Ranges

  /** A half-open range `[first, second)` of unit indexes. */
  datatype IdxRange = IdxRange(first: int, second: int)

  /** The range pushed to stop a worker. */
  const Sentinel := IdxRange(-1, -1)

  /** Workers stop on any range whose `first` is -1. */
  predicate Stops(r: IdxRange)
  {
    r.first == -1
  }

  /** Units of work queued for threads (`block_size` in `Analyze::sample`). */
  const BlockSize: nat := 250

  /** A first-in first-out queue shared by the driver and its worker threads. */
  class Queue<T> {
    var items: seq<T>

    constructor ()
      ensures items == []
    {
      items := [];
    }

    method Push(x: T)
      modifies this
      ensures items == old(items) + [x]
    {
      items := items + [x];
    }

    /** Takes the oldest item; the caller must know one is there. */
    method Pop() returns (x: T)
      requires items != []
      modifies this
      ensures old(items) == [x] + items
    {
      x := items[0];
      items := items[1..];
    }
  }

  /** The unit indexes a worker's `for (j = first; j < second; ++j)` visits. */
  function Span(r: IdxRange): seq<int>
  {
    if r.first <= r.second then Range(r.first, r.second) else []
  }

  /** The unit indexes a sequence of ranges visits, range after range. */
  function Indexes(rs: seq<IdxRange>): seq<int>
  {
    if rs == [] then [] else Indexes(rs[..|rs| - 1]) + Span(rs[|rs| - 1])
  }

  /** The ranges a worker processes from a queue before it meets a stopping range. */
  function Work(items: seq<IdxRange>): (r: seq<IdxRange>)
    ensures |r| <= |items| && r == items[..|r|]
    ensures forall k :: 0 <= k < |r| ==> !Stops(r[k])
    ensures |r| < |items| ==> Stops(items[|r|])
  {
    if items == [] || Stops(items[0]) then [] else [items[0]] + Work(items[1..])
  }

  /**
   * A worker that found `before` in its queue and left `after` there:
   * it stopped exactly when a stopping range followed its work, which it
   * consumed, and otherwise emptied the queue (where the thread would block).
   */
  ghost predicate Drained(before: seq<IdxRange>, after: seq<IdxRange>, stopped: bool)
  {
    var w := Work(before);
    && (stopped <==> |w| < |before|)
    && after == if stopped then before[|w| + 1..] else []
  }

  /** A worker that has processed m ranges and finds its queue empty has done all its work. */
  lemma DrainEmpty(items: seq<IdxRange>, m: nat)
    requires m <= |Work(items)| && m == |items|
    ensures m == |Work(items)| && Work(items)[..m] == Work(items) && Drained(items, [], false)
  {
  }

  /** A worker that has processed m ranges and pops a stopping range has done all its work. */
  lemma DrainStop(items: seq<IdxRange>, m: nat)
    requires m <= |Work(items)| && m < |items| && Stops(items[m])
    ensures m == |Work(items)| && Work(items)[..m] == Work(items) && Drained(items, items[m + 1..], true)
  {
  }

  /** A worker that has processed m ranges and pops another range pops its m-th range of work. */
  lemma DrainNext(items: seq<IdxRange>, m: nat)
    requires m <= |Work(items)| && m < |items| && !Stops(items[m])
    ensures m < |Work(items)| && Work(items)[m] == items[m]
  {
  }

  function Min(a: int, b: int): int
  {
    if a <= b then a else b
  }

  /** How many blocks the driver's `for (i = 0; i < n; i += block_size)` makes. */
  function NumBlocks(n: nat): nat
  {
    (n + BlockSize - 1) / BlockSize
  }

  /** The ranges `[i, min(n, i + 250))` for i = 0, 250, 500, ... below n. */
  function Blocks(n: nat): (r: seq<IdxRange>)
    ensures |r| == NumBlocks(n)
  {
    seq(NumBlocks(n), b requires 0 <= b < NumBlocks(n) => IdxRange(b * BlockSize, Min(n, b * BlockSize + BlockSize)))
  }

  /** `notify_queue.push(1)` repeated `m` times. */
  function Notices(m: nat): (r: seq<int>)
    ensures |r| == m && forall k :: 0 <= k < m ==> r[k] == 1
  {
    seq(m, _ => 1)
  }

  /** One more notice. */
  lemma NoticesNext(m: nat)
    ensures Notices(m + 1) == Notices(m) + [1]
  {
  }

  /** The driver's push loop over blocks of `n` units. */
  method PushBlocks(q: Queue<IdxRange>, n: nat)
    modifies q
    ensures q.items == old(q.items) + Blocks(n)
  {
    ghost var b := 0;
    var i := 0;
    while i < n
      invariant i == b * BlockSize && b <= NumBlocks(n)
      invariant i < n ==> b < NumBlocks(n)
      invariant i >= n ==> b == NumBlocks(n)
      invariant q.items == old(q.items) + Blocks(n)[..b]
    {
      q.Push(IdxRange(i, Min(n, i + BlockSize)));
      assert Blocks(n)[..b + 1] == Blocks(n)[..b] + [Blocks(n)[b]];
      i := i + BlockSize;
      b := b + 1;
    }
    assert Blocks(n)[..b] == Blocks(n);
  }

  /** The driver's pop loop over the same blocks: one notice per block. */
  method PopBlockNotices(q: Queue<int>, n: nat)
    requires |q.items| >= NumBlocks(n)
    modifies q
    ensures q.items == old(q.items)[NumBlocks(n)..]
  {
    ghost var b := 0;
    var i := 0;
    while i < n
      invariant i == b * BlockSize && b <= NumBlocks(n)
      invariant i < n ==> b < NumBlocks(n)
      invariant i >= n ==> b == NumBlocks(n)
      invariant q.items == old(q.items)[b..]
    {
      var _ := q.Pop();
      i := i + BlockSize;
      b := b + 1;
    }
  }

  /** Pushes the unit indexes 0 .. count-1, one item each. */
  method PushIndexes(q: Queue<int>, count: nat)
    modifies q
    ensures q.items == old(q.items) + Range(0, count)
  {
    var i := 0;
    while i < count
      invariant 0 <= i <= count
      invariant q.items == old(q.items) + Range(0, i)
    {
      q.Push(i);
      RangeAppend(0, i, i + 1);
      i := i + 1;
    }
  }

  /** Pops `count` items, one per unit of work handed out. */
  method PopCount<T>(q: Queue<T>, count: nat)
    requires |q.items| >= count
    modifies q
    ensures q.items == old(q.items)[count..]
  {
    var i := 0;
    while i < count
      invariant 0 <= i <= count
      invariant q.items == old(q.items)[i..]
    {
      var _ := q.Pop();
      i := i + 1;
    }
  }

  /**
   * Block `b` of `n` units starts at 250 b, is non-empty, ends where the
   * next one starts, and the last one ends at `n`: the blocks are disjoint,
   * contiguous and cover `[0, n)`, and there are ceil(n / 250) of them.
   */
  lemma BlocksTile(n: nat)
    ensures NumBlocks(n) == 0 <==> n == 0
    ensures NumBlocks(n) > 0 ==> (NumBlocks(n) - 1) * BlockSize < n <= NumBlocks(n) * BlockSize
    ensures forall b :: 0 <= b < NumBlocks(n) ==>
      Blocks(n)[b].first == b * BlockSize < Blocks(n)[b].second <= n
    ensures forall b :: 0 < b < NumBlocks(n) ==> Blocks(n)[b - 1].second == Blocks(n)[b].first
    ensures NumBlocks(n) > 0 ==> Blocks(n)[0].first == 0 && Blocks(n)[NumBlocks(n) - 1].second == n
  {
  }

  /** The ranges up to block `b` visit exactly the indexes 0 .. min(n, 250 b) - 1. */
  lemma {:induction false} BlocksPrefixCover(n: nat, b: nat)
    requires b <= NumBlocks(n)
    ensures Indexes(Blocks(n)[..b]) == Range(0, Min(n, b * BlockSize))
  {
    if b > 0 {
      var lo := (b - 1) * BlockSize;
      var hi := Min(n, b * BlockSize);
      assert lo < n;
      assert Blocks(n)[b - 1] == IdxRange(lo, hi);
      BlocksPrefixCover(n, b - 1);
      IndexesStep(Blocks(n), b - 1);
      RangeAppend(0, lo, hi);
    }
  }

  /** Every unit index below `n` is visited exactly once, in increasing order. */
  lemma BlocksCover(n: nat)
    ensures Indexes(Blocks(n)) == Range(0, n)
  {
    BlocksPrefixCover(n, NumBlocks(n));
    BlocksTile(n);
    assert Blocks(n)[..NumBlocks(n)] == Blocks(n);
  }

  /** No block stops a worker, so a worker handed only blocks processes them all. */
  lemma BlocksAreWork(n: nat)
    ensures Work(Blocks(n)) == Blocks(n)
  {
    BlocksTile(n);
  }

  /** No index occurs twice. */
  ghost predicate Distinct(xs: seq<int>)
  {
    forall p, q :: 0 <= p < q < |xs| ==> xs[p] != xs[q]
  }

  /**
   * The ranges a worker will process from `items` visit only indexes below
   * `n`, none of them twice: what the driver's blocks guarantee.
   */
  ghost predicate Fits(items: seq<IdxRange>, n: nat)
  {
    var xs := Indexes(Work(items));
    (forall p :: 0 <= p < |xs| ==> 0 <= xs[p] < n) && Distinct(xs)
  }

  /** Processing one more range extends the visited indexes by that range's span. */
  lemma IndexesStep(rs: seq<IdxRange>, m: nat)
    requires m < |rs|
    ensures Indexes(rs[..m + 1]) == Indexes(rs[..m]) + Span(rs[m])
  {
    assert rs[..m + 1][..m] == rs[..m];
  }

  /** The indexes visited by the first i ranges are a prefix of those visited by all of them. */
  lemma {:induction false} IndexesPrefix(rs: seq<IdxRange>, i: nat)
    requires i <= |rs|
    ensures Indexes(rs[..i]) <= Indexes(rs)
    decreases |rs| - i
  {
    if i < |rs| {
      IndexesPrefix(rs, i + 1);
      IndexesStep(rs, i);
    } else {
      assert rs[..i] == rs;
    }
  }

  /**
   * The index a worker is about to visit, inside its m-th range, is below
   * `n` and was not visited before.
   */
  lemma NextIndexFresh(items: seq<IdxRange>, n: nat, m: nat, x: int)
    requires Fits(items, n)
    requires m < |Work(items)| && Work(items)[m].first <= x < Work(items)[m].second
    ensures 0 <= x < n
    ensures x !in Indexes(Work(items)[..m]) + Range(Work(items)[m].first, x)
  {
    var w := Work(items);
    var r := w[m];
    var pre := Indexes(w[..m]);
    var all := Indexes(w);
    IndexesStep(w, m);
    IndexesPrefix(w, m + 1);
    var span := Range(r.first, r.second);
    assert Span(r) == span;
    var upto := pre + span;
    assert upto <= all;
    var at := |pre| + (x - r.first);
    assert all[at] == upto[at] == x;
    var seen := pre + Range(r.first, x);
    assert |seen| == at;
    forall p | 0 <= p < at ensures seen[p] != x {
      assert seen[p] == upto[p] == all[p];
      assert all[p] != all[at];
    }
  }

  /** `s` with the entry at every index in `seen` replaced by the entry of `target` there. */
  function Overlay<X>(s: seq<X>, seen: seq<int>, target: seq<X>): (r: seq<X>)
    requires |target| == |s|
    ensures |r| == |s| && forall t :: 0 <= t < |s| ==> r[t] == if t in seen then target[t] else s[t]
  {
    seq(|s|, t requires 0 <= t < |s| => if t in seen then target[t] else s[t])
  }

  /** Writing the target entry at `t` into an overlay adds `t` to the indexes overlaid. */
  lemma OverlayStep<X>(s: seq<X>, seen: seq<int>, target: seq<X>, t: nat)
    requires |target| == |s| && t < |s|
    ensures Overlay(s, seen, target)[t := target[t]] == Overlay(s, seen + [t], target)
  {
  }

  /** When every unit has been visited, every unit holds its target. */
  lemma OverlayAll<X>(s: seq<X>, seen: seq<int>, target: seq<X>)
    requires |target| == |s| && forall t :: 0 <= t < |s| ==> t in seen
    ensures Overlay(s, seen, target) == target
  {
  }

  /** When no unit has been visited, every unit keeps its value. */
  lemma OverlayNone<X>(s: seq<X>, target: seq<X>)
    requires |target| == |s|
    ensures Overlay(s, [], target) == s
  {
  }

  /** Index x is below `n` and not among the indexes `seen`. */
  ghost predicate FreshIndex(x: int, n: nat, seen: seq<int>)
  {
    0 <= x < n && x !in seen
  }

  /**
   * Every index of a worker's m-th range is below `n` and was not visited
   * by the ranges before it.
   */
  lemma RangeFresh(items: seq<IdxRange>, n: nat, m: nat)
    requires Fits(items, n) && m < |Work(items)|
    ensures forall x :: Work(items)[m].first <= x < Work(items)[m].second ==>
      FreshIndex(x, n, Indexes(Work(items)[..m]))
  {
    var w := Work(items);
    var pre := Indexes(w[..m]);
    forall x | w[m].first <= x < w[m].second
      ensures FreshIndex(x, n, pre)
    {
      NextIndexFresh(items, n, m, x);
      assert x !in pre + Range(w[m].first, x);
    }
  }

  /** The blocks of `n` units fit `n`: every unit index below `n` once. */
  lemma BlocksFit(n: nat)
    ensures Fits(Blocks(n), n)
  {
    BlocksAreWork(n);
    BlocksCover(n);
  }

  /** The items a worker of the tick queue processes before it meets -1. */
  function WorkIdx(items: seq<int>): (r: seq<int>)
    ensures |r| <= |items| && r == items[..|r|]
    ensures forall k :: 0 <= k < |r| ==> r[k] != -1
    ensures |r| < |items| ==> items[|r|] == -1
  {
    if items == [] || items[0] == -1 then [] else [items[0]] + WorkIdx(items[1..])
  }

  /** As `Drained`, for a queue of sample indexes stopped by -1. */
  ghost predicate DrainedIdx(before: seq<int>, after: seq<int>, stopped: bool)
  {
    var w := WorkIdx(before);
    && (stopped <==> |w| < |before|)
    && after == if stopped then before[|w| + 1..] else []
  }

  /** Sample indexes 0 .. count-1 contain no -1, so a tick worker processes them all. */
  lemma RangeIsWork(count: nat)
    ensures WorkIdx(Range(0, count)) == Range(0, count)
  {
  }

  /** A tick worker that has processed m indexes and finds its queue empty has done all its work. */
  lemma DrainIdxEmpty(items: seq<int>, m: nat)
    requires m <= |WorkIdx(items)| && m == |items|
    ensures m == |WorkIdx(items)| && WorkIdx(items)[..m] == WorkIdx(items) && DrainedIdx(items, [], false)
  {
  }

  /** A tick worker that has processed m indexes and pops -1 has done all its work. */
  lemma DrainIdxStop(items: seq<int>, m: nat)
    requires m <= |WorkIdx(items)| && m < |items| && items[m] == -1
    ensures m == |WorkIdx(items)| && WorkIdx(items)[..m] == WorkIdx(items) && DrainedIdx(items, items[m + 1..], true)
  {
  }

  /** A tick worker that has processed m indexes and pops another one pops its m-th index of work. */
  lemma DrainIdxNext(items: seq<int>, m: nat)
    requires m <= |WorkIdx(items)| && m < |items| && items[m] != -1
    ensures m < |WorkIdx(items)| && WorkIdx(items)[m] == items[m]
  {
  }

  /**
   * Every index a tick worker will process from `items` is below `n`, and
   * none comes twice: what the driver's push of 0 .. K-1 guarantees.
   */
  ghost predicate IdxFits(items: seq<int>, n: nat)
  {
    (forall p :: 0 <= p < |WorkIdx(items)| ==> 0 <= WorkIdx(items)[p] < n) && Distinct(WorkIdx(items))
  }
}
