/**
 * What the `Analyze` constructor computes once (src/analyze.cpp:1327-1347):
 * the list of spliced tgroups, and the seeds of the random number
 * generators of the driver, of every spliced tgroup and of every transcript.
 */
module Setup {

  /** `unsigned int`: 32 bits, arithmetic modulo 2^32. */
  const Mod32: nat := 0x1_0000_0000
  type U32 = x: nat | x < Mod32

  /**
   * `spliced_tgroup_indexes`: the tgroups with more than one transcript,
   * pushed in increasing order.
   */
  method SplicedTgroupIndexes(tgroupTids: seq<seq<nat>>) returns (spliced: seq<nat>)
    ensures forall j :: 0 <= j < |spliced| ==> spliced[j] < |tgroupTids|
    ensures forall j, j' :: 0 <= j < j' < |spliced| ==> spliced[j] < spliced[j']
    ensures forall g :: 0 <= g < |tgroupTids| ==> (g in spliced <==> |tgroupTids[g]| > 1)
  {
    spliced := [];
    for i := 0 to |tgroupTids|
      invariant forall j :: 0 <= j < |spliced| ==> spliced[j] < i
      invariant forall j, j' :: 0 <= j < j' < |spliced| ==> spliced[j] < spliced[j']
      invariant forall g :: 0 <= g < i ==> (g in spliced <==> |tgroupTids[g]| > 1)
      invariant forall g :: g in spliced ==> g < i
    {
      if |tgroupTids[i]| > 1 {
        spliced := spliced + [i];
      }
    }
  }

  /**
   * The seeds: the driver's generator takes `rngSeed`; the counter (the
   * constructor's parameter) then runs over the spliced tgroups' generators
   * and on over the transcripts', each taking the counter and bumping it
   * modulo 2^32.
   */
  method SeedPools(rngSeed: U32, s: nat, n: nat) returns (driver: U32, splicePool: seq<U32>, transcriptPool: seq<U32>)
    ensures driver == rngSeed
    ensures |splicePool| == s && forall i :: 0 <= i < s ==> splicePool[i] == (rngSeed + i) % Mod32
    ensures |transcriptPool| == n && forall t :: 0 <= t < n ==> transcriptPool[t] == (rngSeed + s + t) % Mod32
  {
    driver := rngSeed;
    var seed := rngSeed;
    splicePool := [];
    for i := 0 to s
      invariant |splicePool| == i && seed == (rngSeed + i) % Mod32
      invariant forall u :: 0 <= u < i ==> splicePool[u] == (rngSeed + u) % Mod32
    {
      splicePool := splicePool + [seed];
      seed := (seed + 1) % Mod32;
    }
    transcriptPool := [];
    for t := 0 to n
      invariant |transcriptPool| == t && seed == (rngSeed + s + t) % Mod32
      invariant forall u :: 0 <= u < t ==> transcriptPool[u] == (rngSeed + s + u) % Mod32
    {
      transcriptPool := transcriptPool + [seed];
      seed := (seed + 1) % Mod32;
    }
  }

  /** Counters `u` and `v` steps apart from the same start differ modulo 2^32 when fewer than 2^32 steps apart. */
  lemma StepsDiffer(start: nat, u: nat, v: nat)
    requires u < v < u + Mod32
    ensures (start + u) % Mod32 != (start + v) % Mod32
  {
  }

  /**
   * With at most 2^32 generators in the two pools, every splice generator
   * and every transcript generator has a seed of its own; the driver's
   * generator shares the seed of splice generator 0 (or, with no spliced
   * tgroup, of transcript generator 0).
   */
  lemma SeedsDistinct(rngSeed: U32, s: nat, n: nat, driver: U32, splicePool: seq<U32>, transcriptPool: seq<U32>)
    requires s + n <= Mod32
    requires driver == rngSeed
    requires |splicePool| == s && forall i :: 0 <= i < s ==> splicePool[i] == (rngSeed + i) % Mod32
    requires |transcriptPool| == n && forall t :: 0 <= t < n ==> transcriptPool[t] == (rngSeed + s + t) % Mod32
    ensures forall i, i' :: 0 <= i < i' < s ==> splicePool[i] != splicePool[i']
    ensures forall t, t' :: 0 <= t < t' < n ==> transcriptPool[t] != transcriptPool[t']
    ensures forall i, t :: 0 <= i < s && 0 <= t < n ==> splicePool[i] != transcriptPool[t]
    ensures s > 0 ==> driver == splicePool[0]
    ensures s == 0 && n > 0 ==> driver == transcriptPool[0]
  {
    forall i, i' | 0 <= i < i' < s
      ensures splicePool[i] != splicePool[i']
    {
      StepsDiffer(rngSeed, i, i');
    }
    forall t, t' | 0 <= t < t' < n
      ensures transcriptPool[t] != transcriptPool[t']
    {
      StepsDiffer(rngSeed, s + t, s + t');
    }
    forall i, t | 0 <= i < s && 0 <= t < n
      ensures splicePool[i] != transcriptPool[t]
    {
      StepsDiffer(rngSeed, i, s + t);
    }
  }
}
