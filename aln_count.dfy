/**
 * Per-read alignment counters of the SAM/BAM scan (src/sam_scan.cpp:13-46).
 *
 * The trie maps a read id to one machine word (`unsigned long`, 64 bits on
 * LP64 platforms) that packs two 16-bit wrapping counters: the number of
 * mate-1 alignments in bits 0..15 and the number of mate-2 alignments in
 * bits 16..31. A slot that was never written reads as 0.
 */
module AlnCount {

  /** One trie slot: the `unsigned long` the trie stores per read id. */
  type Slot = bv64

  /** A 16-bit counter; its arithmetic wraps modulo 2^16. */
  type Counter = bv16

  /** The counter pair returned by `get`. */
  datatype MateCount = MateCount(mate1: Counter, mate2: Counter)

  /** Which mate an alignment belongs to. */
  datatype Mate = First | Second

  /** The mate-1 counter: bits 0..15. */
  function Mate1Bits(v: Slot): Counter
  {
    (v & 0xffff) as Counter
  }

  /** The mate-2 counter: bits 16..31. */
  function Mate2Bits(v: Slot): Counter
  {
    ((v >> 16) & 0xffff) as Counter
  }

  /** True when bits 32..63 of a slot are clear, as every slot the trie writes is. */
  predicate Narrow(v: Slot)
  {
    v >> 32 == 0
  }

  /** The slot of `id`, or 0 for an id never inserted (hattrie_get zero-fills a fresh slot). */
  function SlotOf(slots: map<string, Slot>, id: string): Slot
  {
    if id in slots then slots[id] else 0
  }

  /** The word `inc_mate1` stores: mate-1 counter plus one modulo 2^16, mate-2 counter kept. */
  function BumpMate1(v: Slot): (r: Slot)
    ensures Mate1Bits(r) == Mate1Bits(v) + 1
    ensures Mate2Bits(r) == Mate2Bits(v)
    ensures Narrow(r)
  {
    var cnt := ((v & 0xffff) + 1) & 0xffff;
    (v & 0xffff0000) | cnt
  }

  /** The word `inc_mate2` stores: mate-2 counter plus one modulo 2^16, mate-1 counter kept. */
  function BumpMate2(v: Slot): (r: Slot)
    ensures Mate2Bits(r) == Mate2Bits(v) + 1
    ensures Mate1Bits(r) == Mate1Bits(v)
    ensures Narrow(r)
  {
    var cnt := ((v >> 16) + 1) & 0xffff;
    (cnt << 16) | (v & 0xffff)
  }

  function Bump(v: Slot, m: Mate): Slot
  {
    if m == First then BumpMate1(v) else BumpMate2(v)
  }

  /** The slot after a sequence of increments, applied left to right. */
  function Replay(v: Slot, ms: seq<Mate>): Slot
  {
    if ms == [] then v else Bump(Replay(v, ms[..|ms| - 1]), ms[|ms| - 1])
  }

  /** How many increments of mate `m` a sequence holds, counted modulo 2^16. */
  function Tally(ms: seq<Mate>, m: Mate): Counter
  {
    if ms == [] then 0
    else if ms[|ms| - 1] == m then Tally(ms[..|ms| - 1], m) + 1
    else Tally(ms[..|ms| - 1], m)
  }

  class AlnCountTrie {
    /** The trie's contents: read id to packed slot. */
    var slots: map<string, Slot>

    /** Every stored slot has bits 32..63 clear. */
    ghost predicate Valid()
      reads this
    {
      forall id :: id in slots ==> Narrow(slots[id])
    }

    constructor ()
      ensures slots == map[] && Valid()
    {
      slots := map[];
    }

    /** `inc_mate1`: insert `id` if absent (slot 0), then bump its mate-1 counter. */
    method IncMate1(id: string)
      requires Valid()
      modifies this
      ensures Valid()
      ensures slots == old(slots)[id := BumpMate1(SlotOf(old(slots), id))]
    {
      var val := SlotOf(slots, id);
      var cnt := ((val & 0xffff) + 1) & 0xffff;
      slots := slots[id := (val & 0xffff0000) | cnt];
    }

    /** `inc_mate2`: insert `id` if absent (slot 0), then bump its mate-2 counter. */
    method IncMate2(id: string)
      requires Valid()
      modifies this
      ensures Valid()
      ensures slots == old(slots)[id := BumpMate2(SlotOf(old(slots), id))]
    {
      var val := SlotOf(slots, id);
      var cnt := ((val >> 16) + 1) & 0xffff;
      slots := slots[id := (cnt << 16) | (val & 0xffff)];
    }

    /** `get`: (0, 0) for an id never inserted, otherwise the two unpacked counters. */
    function Get(id: string): (r: MateCount)
      reads this
      ensures id !in slots ==> r == MateCount(0, 0)
    {
      if id !in slots then MateCount(0, 0)
      else MateCount(Mate1Bits(slots[id]), Mate2Bits(slots[id]))
    }
  }

  /** One increment seen through the mate-1 counter. */
  lemma Mate1Step(w: Slot, m: Mate, t: Counter)
    requires Mate1Bits(w) == t
    ensures Mate1Bits(Bump(w, m)) == if m == First then t + 1 else t
  {
  }

  /** One increment seen through the mate-2 counter. */
  lemma Mate2Step(w: Slot, m: Mate, t: Counter)
    requires Mate2Bits(w) == t
    ensures Mate2Bits(Bump(w, m)) == if m == Second then t + 1 else t
  {
  }

  /** A fresh slot's mate-1 counter after `ms` is the number of mate-1 increments modulo 2^16. */
  lemma {:induction false} FreshMate1Count(ms: seq<Mate>)
    ensures Mate1Bits(Replay(0, ms)) == Tally(ms, First)
  {
    if ms != [] {
      var p := ms[..|ms| - 1];
      FreshMate1Count(p);
      Mate1Step(Replay(0, p), ms[|ms| - 1], Tally(p, First));
    }
  }

  /** A fresh slot's mate-2 counter after `ms` is the number of mate-2 increments modulo 2^16. */
  lemma {:induction false} FreshMate2Count(ms: seq<Mate>)
    ensures Mate2Bits(Replay(0, ms)) == Tally(ms, Second)
  {
    if ms != [] {
      var p := ms[..|ms| - 1];
      FreshMate2Count(p);
      Mate2Step(Replay(0, p), ms[|ms| - 1], Tally(p, Second));
    }
  }
}
