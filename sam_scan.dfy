/**
 * The alignment scan of src/sam_scan.cpp:49-213: intervals are given the
 * header's reference id of their sequence name, sorted in the order of a
 * coordinate-sorted BAM file, and then one pass over the alignment records
 * counts alignments per read and hands every alignment to the intervals that
 * contain it, finishing each interval once no later alignment can reach it.
 *
 * The BAM stream is a sequence of records; the header's name-to-id hash is a
 * map. An interval's read set and its `finish()` are represented by the list
 * of alignments it was given and by the trace of finished interval positions.
 */
module SamScan {
  import opened AlnCount
  import opened Ranges

  /** BAM flag bits read by the scan (BAM_FUNMAP and BAM_FREAD2 of samtools). */
  const FlagUnmapped: bv16 := 0x4
  const FlagRead2: bv16 := 0x80

  /**
   * One alignment record: reference id, 0-based leftmost position, the end
   * position `bam_calend` computes from the CIGAR (one past the last aligned
   * base), the flag word and the read name.
   */
  datatype BamRecord = BamRecord(tid: int, pos: int, calEnd: int, flag: bv16, qname: string)

  /**
   * An interval of the scan. `tid` is filled in by the scan from the header;
   * `alignments` stands for the interval's read set `rs`.
   */
  datatype SamScanInterval = SamScanInterval(
    seqname: string, start: int, end: int, tid: int, alignments: seq<BamRecord>)

  /** Records the scan passes over: unmapped, or without a reference. */
  predicate Skipped(b: BamRecord)
  {
    b.flag & FlagUnmapped != 0 || b.tid < 0
  }

  /** Which mate counter a record increments. */
  function MateOf(b: BamRecord): Mate
  {
    if b.flag & FlagRead2 != 0 then Second else First
  }

  /** The last aligned base, `bam_calend(...) - 1`. */
  function AlnEnd(b: BamRecord): int
  {
    b.calEnd - 1
  }

  // ---------------------------------------------------------------------
  // Interval order (SamScanInterval::operator< and SamScanIntervalPtrCmp)
  // ---------------------------------------------------------------------

  /** `operator<`: by tid, then start, then end. */
  predicate Less(a: SamScanInterval, b: SamScanInterval)
  {
    if a.tid != b.tid then a.tid < b.tid
    else if a.start != b.start then a.start < b.start
    else a.end < b.end
  }

  /** Two intervals `operator<` cannot tell apart. */
  predicate SameKey(a: SamScanInterval, b: SamScanInterval)
  {
    a.tid == b.tid && a.start == b.start && a.end == b.end
  }

  lemma LessIrreflexive(a: SamScanInterval)
    ensures !Less(a, a)
  {
  }

  lemma LessTransitive(a: SamScanInterval, b: SamScanInterval, c: SamScanInterval)
    requires Less(a, b) && Less(b, c)
    ensures Less(a, c)
  {
  }

  /** Incomparability is exactly equality of (tid, start, end): the order is a strict weak order. */
  lemma LessIncomparable(a: SamScanInterval, b: SamScanInterval)
    ensures !Less(a, b) && !Less(b, a) <==> SameKey(a, b)
  {
  }

  /** Sorted by `operator<`: no later interval is less than an earlier one. */
  ghost predicate Sorted(s: seq<SamScanInterval>)
  {
    forall p, q :: 0 <= p < q < |s| ==> !Less(s[q], s[p])
  }

  // ---------------------------------------------------------------------
  // Reference ids of the intervals (src/sam_scan.cpp:132-136)
  // ---------------------------------------------------------------------

  /** The header's id for the interval's sequence name, or -1 when the header lacks it. */
  function WithTid(iv: SamScanInterval, header: map<string, int>): SamScanInterval
  {
    iv.(tid := if iv.seqname in header then header[iv.seqname] else -1)
  }

  function TidsAssigned(s: seq<SamScanInterval>, header: map<string, int>): (r: seq<SamScanInterval>)
    ensures |r| == |s|
  {
    seq(|s|, k requires 0 <= k < |s| => WithTid(s[k], header))
  }

  /** Looks every interval's sequence name up in the header and stores its id. */
  method AssignTids(intervals: array<SamScanInterval>, header: map<string, int>)
    modifies intervals
    ensures intervals[..] == TidsAssigned(old(intervals[..]), header)
  {
    var k := 0;
    while k < intervals.Length
      invariant 0 <= k <= intervals.Length
      invariant forall m :: 0 <= m < k ==> intervals[m] == WithTid(old(intervals[m]), header)
      invariant forall m :: k <= m < intervals.Length ==> intervals[m] == old(intervals[m])
    {
      if intervals[k].seqname !in header {
        intervals[k] := intervals[k].(tid := -1);
      } else {
        intervals[k] := intervals[k].(tid := header[intervals[k].seqname]);
      }
      k := k + 1;
    }
  }

  // ---------------------------------------------------------------------
  // Sorting the intervals (src/sam_scan.cpp:138)
  // ---------------------------------------------------------------------

  /**
   * Sorts the intervals in place by `operator<`. The library sort is not
   * shown; any comparison sort meets this contract, here an insertion sort.
   */
  method SortIntervals(a: array<SamScanInterval>)
    modifies a
    ensures Sorted(a[..])
    ensures multiset(a[..]) == old(multiset(a[..]))
  {
    var i := 1;
    while i < a.Length
      invariant 1 <= i || a.Length == 0
      invariant i <= a.Length || a.Length == 0
      invariant forall p, q :: 0 <= p < q < i && q < a.Length ==> !Less(a[q], a[p])
      invariant multiset(a[..]) == old(multiset(a[..]))
    {
      var j := i;
      while j > 0 && Less(a[j], a[j - 1])
        invariant 0 <= j <= i < a.Length
        invariant forall p, q :: 0 <= p < q <= i && q != j ==> !Less(a[q], a[p])
        invariant forall p, q :: 0 <= p < j < q <= i ==> !Less(a[q], a[p])
        invariant multiset(a[..]) == old(multiset(a[..]))
      {
        a[j - 1], a[j] := a[j], a[j - 1];
        j := j - 1;
      }
      i := i + 1;
    }
  }

  // ---------------------------------------------------------------------
  // The sweep (src/sam_scan.cpp:140-207)
  // ---------------------------------------------------------------------

  /** (t1, p1) precedes (t2, p2) in coordinate order. */
  predicate KeyLess(t1: int, p1: int, t2: int, p2: int)
  {
    t1 < t2 || (t1 == t2 && p1 < p2)
  }

  /** The mapped records come in coordinate order, as `samtools sort` leaves them. */
  ghost predicate InOrder(rs: seq<BamRecord>)
  {
    forall p, q :: 0 <= p < q < |rs| && !Skipped(rs[p]) && !Skipped(rs[q]) ==>
      !KeyLess(rs[q].tid, rs[q].pos, rs[p].tid, rs[p].pos)
  }

  /** The interval is contained in, and receives, the alignment. */
  predicate Holds(iv: SamScanInterval, b: BamRecord)
  {
    !Skipped(b) && iv.tid == b.tid && iv.start <= b.pos <= iv.end && AlnEnd(b) <= iv.end
  }

  /** The interval lies wholly before position (t, p): no alignment at or after it can fall in it. */
  predicate Passed(iv: SamScanInterval, t: int, p: int)
  {
    iv.tid < t || (iv.tid == t && iv.end < p)
  }

  /** The alignments of `rs`, in order, that interval `iv` contains. */
  function Contained(iv: SamScanInterval, rs: seq<BamRecord>): (r: seq<BamRecord>)
    ensures forall b :: b in r ==> Holds(iv, b)
  {
    if rs == [] then []
    else Contained(iv, rs[..|rs| - 1]) + (if Holds(iv, rs[|rs| - 1]) then [rs[|rs| - 1]] else [])
  }

  /** The interval after it has been handed every alignment of `rs` it contains. */
  function Collect(iv: SamScanInterval, rs: seq<BamRecord>): SamScanInterval
  {
    iv.(alignments := iv.alignments + Contained(iv, rs))
  }

  /** The interval after one alignment has been offered to it. */
  function Offer(iv: SamScanInterval, b: BamRecord): SamScanInterval
  {
    if Holds(iv, b) then iv.(alignments := iv.alignments + [b]) else iv
  }

  /** The trie contents after counting the mapped records of `rs`. */
  function CountMates(slots: map<string, Slot>, rs: seq<BamRecord>): map<string, Slot>
  {
    if rs == [] then slots
    else
      var before := CountMates(slots, rs[..|rs| - 1]);
      var b := rs[|rs| - 1];
      if Skipped(b) then before else before[b.qname := Bump(SlotOf(before, b.qname), MateOf(b))]
  }

  /** The increments the mapped records of `rs` make to read `id`, in order. */
  function MatesOf(rs: seq<BamRecord>, id: string): seq<Mate>
  {
    if rs == [] then []
    else
      var b := rs[|rs| - 1];
      MatesOf(rs[..|rs| - 1], id) + (if !Skipped(b) && b.qname == id then [MateOf(b)] else [])
  }

  datatype ScanOutcome =
    | Completed(finished: seq<int>)  // positions of the finished intervals, in the order `finish()` ran
    | Aborted(at: nat)               // the first record found out of coordinate order

  /**
   * The inner loop of the sweep for one mapped alignment: starting at the
   * first unfinished interval `j0`, finish intervals that lie wholly before
   * the alignment, hand the alignment to the intervals containing it and stop
   * at the first interval that starts after it. Returns the new `j0` and the
   * positions finished on the way.
   */
  method OfferAlignment(intervals: array<SamScanInterval>, b: BamRecord, j0: nat)
    returns (j1: nat, finished: seq<int>)
    requires !Skipped(b)
    requires j0 <= intervals.Length
    requires Sorted(intervals[..])
    requires forall k :: 0 <= k < j0 ==> Passed(intervals[k], b.tid, b.pos)
    modifies intervals
    ensures j0 <= j1 <= intervals.Length
    ensures finished == Range(j0, j1)
    ensures forall k :: 0 <= k < j1 ==> Passed(intervals[k], b.tid, b.pos)
    ensures forall k :: 0 <= k < intervals.Length ==> intervals[k] == Offer(old(intervals[k]), b)
  {
    var n := intervals.Length;
    ghost var orig := intervals[..];
    j1, finished := j0, [];
    var j := j0;
    while j < n
      invariant j0 <= j1 <= j <= n
      invariant finished == Range(j0, j1)
      invariant j1 < j ==> orig[j1].tid == b.tid
      invariant forall k :: 0 <= k < j1 ==> Passed(orig[k], b.tid, b.pos)
      invariant forall k :: 0 <= k < j ==> intervals[k] == Offer(orig[k], b)
      invariant forall k :: j <= k < n ==> intervals[k] == orig[k]
    {
      if b.tid < intervals[j].tid {
        assert forall k :: j <= k < n ==> !Less(orig[k], orig[j]);
        break;
      }
      if b.tid > intervals[j].tid {
        assert j == j1;
        finished := finished + [j1];
        j1 := j1 + 1;
        j := j + 1;
        continue;
      }
      if b.pos < intervals[j].start {
        assert forall k :: j <= k < n ==> !Less(orig[k], orig[j]);
        break;
      }
      if b.pos > intervals[j].end {
        if j == j1 {
          finished := finished + [j1];
          j1 := j1 + 1;
        }
        j := j + 1;
        continue;
      }
      if AlnEnd(b) <= intervals[j].end {
        intervals[j] := intervals[j].(alignments := intervals[j].alignments + [b]);
      }
      j := j + 1;
    }
    forall k | 0 <= k < j1 ensures Passed(intervals[k], b.tid, b.pos) {
      assert Passed(orig[k], b.tid, b.pos);
    }
  }

  /** Handing out alignments keeps every interval's (tid, start, end), so the sorted order survives. */
  lemma {:induction false} CollectKeepsOrder(orig: seq<SamScanInterval>, now: seq<SamScanInterval>, rs: seq<BamRecord>)
    requires |orig| == |now| && Sorted(orig)
    requires forall k :: 0 <= k < |now| ==> now[k] == Collect(orig[k], rs)
    ensures Sorted(now)
  {
    forall p, q | 0 <= p < q < |now| ensures !Less(now[q], now[p]) {
      assert !Less(orig[q], orig[p]);
      assert SameKey(now[p], orig[p]) && SameKey(now[q], orig[q]);
    }
  }

  /**
   * What the scan knows about the order of the records read so far: (lastTid,
   * lastPos) is the position of the last mapped record (index `lastIdx`), or
   * (-1, -1) before any, no mapped record lies after it, and the mapped
   * records came in coordinate order.
   */
  ghost predicate OrderSoFar(rs: seq<BamRecord>, lastTid: int, lastPos: int, lastIdx: int)
  {
    && -1 <= lastIdx < |rs|
    && (lastIdx == -1 ==> lastTid == -1 && lastPos == -1)
    && (lastIdx >= 0 ==>
          !Skipped(rs[lastIdx]) && lastTid == rs[lastIdx].tid && lastPos == rs[lastIdx].pos)
    && (forall p :: 0 <= p < |rs| && !Skipped(rs[p]) ==> !KeyLess(lastTid, lastPos, rs[p].tid, rs[p].pos))
    && InOrder(rs)
  }

  /** A mapped record at or after the last position becomes the new last position. */
  lemma OrderAdvance(rs: seq<BamRecord>, b: BamRecord, lastTid: int, lastPos: int, lastIdx: int)
    requires OrderSoFar(rs, lastTid, lastPos, lastIdx)
    requires !Skipped(b) && !KeyLess(b.tid, b.pos, lastTid, lastPos)
    ensures OrderSoFar(rs + [b], b.tid, b.pos, |rs|)
  {
    var s := rs + [b];
    forall p, q | 0 <= p < q < |s| && !Skipped(s[p]) && !Skipped(s[q])
      ensures !KeyLess(s[q].tid, s[q].pos, s[p].tid, s[p].pos)
    {
      if q < |rs| {
        assert s[p] == rs[p] && s[q] == rs[q];
      } else {
        assert s[p] == rs[p] && s[q] == b;
      }
    }
    forall p | 0 <= p < |s| && !Skipped(s[p]) ensures !KeyLess(b.tid, b.pos, s[p].tid, s[p].pos) {
      if p < |rs| {
        assert s[p] == rs[p];
      }
    }
  }

  /** A skipped record leaves what the scan knows about order as it was. */
  lemma OrderSkip(rs: seq<BamRecord>, b: BamRecord, lastTid: int, lastPos: int, lastIdx: int)
    requires OrderSoFar(rs, lastTid, lastPos, lastIdx) && Skipped(b)
    ensures OrderSoFar(rs + [b], lastTid, lastPos, lastIdx)
  {
    var s := rs + [b];
    forall p, q | 0 <= p < q < |s| && !Skipped(s[p]) && !Skipped(s[q])
      ensures !KeyLess(s[q].tid, s[q].pos, s[p].tid, s[p].pos)
    {
      assert s[p] == rs[p] && s[q] == rs[q];
    }
    forall p | 0 <= p < |s| && !Skipped(s[p]) ensures !KeyLess(lastTid, lastPos, s[p].tid, s[p].pos) {
      assert s[p] == rs[p];
    }
  }

  /** A mapped record before the last position breaks the coordinate order. */
  lemma OrderBroken(rs: seq<BamRecord>, b: BamRecord, lastTid: int, lastPos: int, lastIdx: int)
    requires OrderSoFar(rs, lastTid, lastPos, lastIdx)
    requires !Skipped(b) && KeyLess(b.tid, b.pos, lastTid, lastPos)
    ensures !InOrder(rs + [b])
  {
    var s := rs + [b];
    assert s[lastIdx] == rs[lastIdx] && s[|rs|] == b;
  }

  /** Order of the whole stream implies order of every prefix. */
  lemma InOrderPrefix(rs: seq<BamRecord>, k: nat)
    requires k <= |rs|
    ensures InOrder(rs) ==> InOrder(rs[..k])
  {
    if InOrder(rs) {
      var s := rs[..k];
      forall p, q | 0 <= p < q < |s| && !Skipped(s[p]) && !Skipped(s[q])
        ensures !KeyLess(s[q].tid, s[q].pos, s[p].tid, s[p].pos)
      {
        assert s[p] == rs[p] && s[q] == rs[q];
      }
    }
  }

  /** A skipped record changes nothing any interval holds. */
  lemma SkippedKeepsIntervals(ivs: seq<SamScanInterval>, rs: seq<BamRecord>, b: BamRecord)
    requires Skipped(b)
    ensures forall k :: 0 <= k < |ivs| ==> Collect(ivs[k], rs + [b]) == Collect(ivs[k], rs)
  {
    assert (rs + [b])[..|rs|] == rs;
  }

  /** A skipped record changes no count. */
  lemma SkippedKeepsCounts(slots: map<string, Slot>, rs: seq<BamRecord>, b: BamRecord)
    requires Skipped(b)
    ensures CountMates(slots, rs + [b]) == CountMates(slots, rs)
  {
    assert (rs + [b])[..|rs|] == rs;
  }

  /** Counts one mapped record: `inc_mate2` for a second mate, `inc_mate1` otherwise. */
  method CountRecord(trie: AlnCountTrie, b: BamRecord)
    requires trie.Valid()
    modifies trie
    ensures trie.Valid()
    ensures trie.slots == old(trie.slots)[b.qname := Bump(SlotOf(old(trie.slots), b.qname), MateOf(b))]
  {
    if b.flag & FlagRead2 != 0 {
      trie.IncMate2(b.qname);
    } else {
      trie.IncMate1(b.qname);
    }
  }

  /** Every interval holds the alignments of `rs` that its original holds and contains. */
  ghost predicate Holding(ivs: seq<SamScanInterval>, orig: seq<SamScanInterval>, rs: seq<BamRecord>)
  {
    |ivs| == |orig| && forall k :: 0 <= k < |orig| ==> ivs[k] == Collect(orig[k], rs)
  }

  /**
   * What the scan does with one mapped, in-order record: count it under its
   * read name and mate, then offer it to the intervals from `j0` on.
   */
  method CountAndOffer(intervals: array<SamScanInterval>, trie: AlnCountTrie, b: BamRecord, j0: nat,
                       ghost orig: seq<SamScanInterval>, ghost slots0: map<string, Slot>,
                       ghost prefix: seq<BamRecord>)
    returns (j1: nat, finished: seq<int>)
    requires !Skipped(b)
    requires trie.Valid() && trie.slots == CountMates(slots0, prefix)
    requires |orig| == intervals.Length && Sorted(orig) && j0 <= |orig|
    requires Holding(intervals[..], orig, prefix)
    requires forall k :: 0 <= k < j0 ==> Passed(orig[k], b.tid, b.pos)
    modifies intervals, trie
    ensures trie.Valid() && trie.slots == CountMates(slots0, prefix + [b])
    ensures j0 <= j1 <= |orig| && finished == Range(j0, j1)
    ensures forall k :: 0 <= k < j1 ==> Passed(orig[k], b.tid, b.pos)
    ensures Holding(intervals[..], orig, prefix + [b])
  {
    assert (prefix + [b])[..|prefix|] == prefix;
    CountRecord(trie, b);
    CollectKeepsOrder(orig, intervals[..], prefix);
    j1, finished := OfferAlignment(intervals, b, j0);
    forall k | 0 <= k < |orig| ensures intervals[k] == Collect(orig[k], prefix + [b]) {
      assert SameKey(old(intervals[k]), orig[k]);
    }
  }

  /**
   * The read loop and the closing loop of the scan over the sorted
   * intervals: skips unmapped records, aborts on the first mapped record that
   * comes before its predecessor, counts every mapped record under its read
   * name and mate, and offers it to the intervals from `j0` on.
   */
  method Sweep(intervals: array<SamScanInterval>, records: seq<BamRecord>, trie: AlnCountTrie)
    returns (outcome: ScanOutcome)
    requires Sorted(intervals[..]) && trie.Valid()
    modifies intervals, trie
    ensures trie.Valid()
    ensures outcome.Aborted? <==> !InOrder(records)
    ensures outcome.Aborted? ==>
      outcome.at < |records| && InOrder(records[..outcome.at]) && !InOrder(records[..outcome.at + 1])
    ensures outcome.Completed? ==> outcome.finished == Range(0, intervals.Length)
    ensures outcome.Completed? ==> trie.slots == CountMates(old(trie.slots), records)
    ensures outcome.Completed? ==>
      forall k :: 0 <= k < intervals.Length ==> intervals[k] == Collect(old(intervals[k]), records)
  {
    var n := intervals.Length;
    ghost var orig := intervals[..];
    ghost var origSlots := trie.slots;
    var j0: nat := 0;
    var lastTid, lastPos := -1, -1;
    ghost var lastIdx := -1;
    var finished: seq<int> := [];
    var r := 0;
    while r < |records|
      invariant 0 <= r <= |records|
      invariant j0 <= n
      invariant finished == Range(0, j0)
      invariant trie.Valid() && trie.slots == CountMates(origSlots, records[..r])
      invariant Holding(intervals[..], orig, records[..r])
      invariant OrderSoFar(records[..r], lastTid, lastPos, lastIdx)
      invariant forall k :: 0 <= k < j0 ==> Passed(orig[k], lastTid, lastPos)
    {
      var b := records[r];
      assert records[..r + 1] == records[..r] + [b];
      if !Skipped(b) {
        if KeyLess(b.tid, b.pos, lastTid, lastPos) {
          OrderBroken(records[..r], b, lastTid, lastPos, lastIdx);
          InOrderPrefix(records, r + 1);
          return Aborted(r);
        }
        OrderAdvance(records[..r], b, lastTid, lastPos, lastIdx);
        lastTid, lastPos := b.tid, b.pos;
        lastIdx := r;
        var fin;
        ghost var j0Before := j0;
        j0, fin := CountAndOffer(intervals, trie, b, j0, orig, origSlots, records[..r]);
        RangeAppend(0, j0Before, j0);
        finished := finished + fin;
      } else {
        OrderSkip(records[..r], b, lastTid, lastPos, lastIdx);
        SkippedKeepsIntervals(orig, records[..r], b);
        SkippedKeepsCounts(origSlots, records[..r], b);
      }
      r := r + 1;
    }
    assert records[..r] == records;
    finished := FinishRest(finished, j0, n);
    return Completed(finished);
  }

  /** The closing loop of the scan: every interval not yet finished is finished, in order. */
  method FinishRest(finished0: seq<int>, j0: nat, n: nat) returns (finished: seq<int>)
    requires j0 <= n && finished0 == Range(0, j0)
    ensures finished == Range(0, n)
  {
    finished := finished0;
    var j := j0;
    while j < n
      invariant j0 <= j <= n
      invariant finished == Range(0, j)
    {
      finished := finished + [j];
      j := j + 1;
    }
  }

  /**
   * `sam_scan`: give the intervals their reference ids, sort them, then sweep
   * the records. `arranged` is the sorted order the sweep runs over.
   */
  method Scan(intervals: array<SamScanInterval>, header: map<string, int>, records: seq<BamRecord>,
              trie: AlnCountTrie)
    returns (outcome: ScanOutcome, ghost arranged: seq<SamScanInterval>)
    requires trie.Valid()
    modifies intervals, trie
    ensures trie.Valid()
    ensures |arranged| == intervals.Length && Sorted(arranged)
    ensures multiset(arranged) == multiset(TidsAssigned(old(intervals[..]), header))
    ensures outcome.Aborted? <==> !InOrder(records)
    ensures outcome.Completed? ==> outcome.finished == Range(0, intervals.Length)
    ensures outcome.Completed? ==> trie.slots == CountMates(old(trie.slots), records)
    ensures outcome.Completed? ==>
      forall k :: 0 <= k < |arranged| ==> intervals[k] == Collect(arranged[k], records)
  {
    AssignTids(intervals, header);
    SortIntervals(intervals);
    arranged := intervals[..];
    outcome := Sweep(intervals, records, trie);
  }

  /** An interval receives exactly the alignments of the stream it contains, each where it occurs. */
  lemma {:induction false} ContainedExactly(iv: SamScanInterval, rs: seq<BamRecord>, b: BamRecord)
    ensures b in Contained(iv, rs) <==> b in rs && Holds(iv, b)
  {
    if rs != [] {
      var p := rs[..|rs| - 1];
      ContainedExactly(iv, p, b);
      assert rs == p + [rs[|rs| - 1]];
    }
  }

  /** A read's slot after the scan replays, from its slot before, the increments its mapped records make. */
  lemma {:induction false} CountMatesSlot(slots: map<string, Slot>, rs: seq<BamRecord>, id: string)
    ensures SlotOf(CountMates(slots, rs), id) == Replay(SlotOf(slots, id), MatesOf(rs, id))
  {
    if rs != [] {
      var p := rs[..|rs| - 1];
      var b := rs[|rs| - 1];
      CountMatesSlot(slots, p, id);
      var ms := MatesOf(p, id);
      if !Skipped(b) && b.qname == id {
        assert (ms + [MateOf(b)])[..|ms|] == ms;
      } else {
        assert ms + [] == ms;
        assert SlotOf(CountMates(slots, rs), id) == SlotOf(CountMates(slots, p), id);
      }
    }
  }

  /**
   * After scanning `records` into an empty trie, `get` of any read name
   * returns how many of its mapped records were first and second mates,
   * each modulo 2^16.
   */
  lemma ScanCounts(trie: AlnCountTrie, records: seq<BamRecord>, id: string)
    requires trie.slots == CountMates(map[], records)
    ensures trie.Get(id) == MateCount(Tally(MatesOf(records, id), First), Tally(MatesOf(records, id), Second))
  {
    var ms := MatesOf(records, id);
    CountMatesSlot(map[], records, id);
    FreshMate1Count(ms);
    FreshMate2Count(ms);
  }
}
