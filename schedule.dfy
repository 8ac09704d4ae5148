/**
 * The phase schedule of `Analyze::run` (src/analyze.cpp:2013-2070) as the
 * sequence of steps the driver takes: the optimisation iterations, the
 * priors engaged, the maximum posterior state written as sample 0, the
 * burn-in flags cleared, the burn-in iterations, one iteration and one
 * output per further sample, and the shutdown of the threads.
 */
module Phases {
  import opened Ranges

  /** One step of `run()`; a sweep records its optimize flag and the threads' burn-in flag. */
  datatype Event =
    | Iteration(optimize: bool, burnin: bool)
    | EngagePriors
    | WriteOutput(index: nat)
    | EndBurnin
    | Shutdown(threads: nat)

  /** `count` iterations with the same two flags. */
  function Iterations(optimize: bool, burnin: bool, count: nat): (r: seq<Event>)
    ensures |r| == count && forall i :: 0 <= i < count ==> r[i] == Iteration(optimize, burnin)
  {
    seq(count, _ => Iteration(optimize, burnin))
  }

  /** One more iteration with the same flags. */
  lemma IterationsNext(optimize: bool, burnin: bool, count: nat)
    ensures Iterations(optimize, burnin, count) + [Iteration(optimize, burnin)] == Iterations(optimize, burnin, count + 1)
  {
  }

  /** The output loop for samples `lo .. hi - 1`: a sampling iteration, then the output of that sample. */
  function Outputs(lo: nat, hi: nat): seq<Event>
    decreases hi - lo
  {
    if hi <= lo then [] else Outputs(lo, hi - 1) + [Iteration(false, false), WriteOutput(hi - 1)]
  }

  /** The output loop runs from 1 however small `num_samples` is. */
  lemma OutputsFrom(numSamples: nat)
    ensures Outputs(1, Written(numSamples)) == Outputs(1, numSamples)
  {
  }

  /** Everything `run()` does after the threads are started, in order. */
  function Schedule(optRounds: nat, burnin: nat, numSamples: nat, nopriors: bool, threads: nat): seq<Event>
  {
    Iterations(true, true, optRounds)
    + (if nopriors then [] else [EngagePriors])
    + [WriteOutput(0), EndBurnin]
    + Iterations(false, false, burnin)
    + Outputs(1, numSamples)
    + [Shutdown(threads)]
  }

  /** The sample indexes written, in the order they are written. */
  function WriteIndexes(evs: seq<Event>): seq<nat>
  {
    if evs == [] then []
    else (if evs[0].WriteOutput? then [evs[0].index] else []) + WriteIndexes(evs[1..])
  }

  /** The number of iterations with the given optimize flag. */
  function CountIterations(evs: seq<Event>, optimize: bool): nat
  {
    if evs == [] then 0
    else (if evs[0].Iteration? && evs[0].optimize == optimize then 1 else 0) + CountIterations(evs[1..], optimize)
  }

  lemma {:induction false} WriteIndexesAppend(a: seq<Event>, b: seq<Event>)
    ensures WriteIndexes(a + b) == WriteIndexes(a) + WriteIndexes(b)
    decreases |a|
  {
    if a != [] {
      assert (a + b)[0] == a[0] && (a + b)[1..] == a[1..] + b;
      WriteIndexesAppend(a[1..], b);
    } else {
      assert a + b == b;
    }
  }

  lemma {:induction false} CountIterationsAppend(a: seq<Event>, b: seq<Event>, optimize: bool)
    ensures CountIterations(a + b, optimize) == CountIterations(a, optimize) + CountIterations(b, optimize)
    decreases |a|
  {
    if a != [] {
      assert (a + b)[0] == a[0] && (a + b)[1..] == a[1..] + b;
      CountIterationsAppend(a[1..], b, optimize);
    } else {
      assert a + b == b;
    }
  }

  /** One step writes its index if it is an output and counts if it is a sweep with the flag. */
  lemma One(e: Event, flag: bool)
    ensures WriteIndexes([e]) == if e.WriteOutput? then [e.index] else []
    ensures CountIterations([e], flag) == if e.Iteration? && e.optimize == flag then 1 else 0
  {
    assert [e][1..] == [];
  }

  /** A run of sweeps writes nothing and counts once per sweep with its own flag. */
  lemma {:induction false} IterationsCount(optimize: bool, burnin: bool, count: nat, flag: bool)
    ensures WriteIndexes(Iterations(optimize, burnin, count)) == []
    ensures CountIterations(Iterations(optimize, burnin, count), flag) == if flag == optimize then count else 0
  {
    if count > 0 {
      assert Iterations(optimize, burnin, count)[1..] == Iterations(optimize, burnin, count - 1);
      IterationsCount(optimize, burnin, count - 1, flag);
    }
  }

  /** The output loop writes its samples in increasing order. */
  lemma {:induction false} OutputsWrites(lo: nat, hi: nat)
    requires lo <= hi
    ensures WriteIndexes(Outputs(lo, hi)) == Range(lo, hi)
    decreases hi - lo
  {
    if lo < hi {
      var step := [Iteration(false, false), WriteOutput(hi - 1)];
      OutputsWrites(lo, hi - 1);
      WriteIndexesAppend(Outputs(lo, hi - 1), step);
      One(Iteration(false, false), false);
      One(WriteOutput(hi - 1), false);
      assert step == [Iteration(false, false)] + [WriteOutput(hi - 1)];
      WriteIndexesAppend([Iteration(false, false)], [WriteOutput(hi - 1)]);
    }
  }

  /** The output loop samples once, outside optimisation, before each output. */
  lemma {:induction false} OutputsIterations(lo: nat, hi: nat, flag: bool)
    ensures CountIterations(Outputs(lo, hi), flag) == if flag || hi <= lo then 0 else hi - lo
    decreases hi - lo
  {
    if lo < hi {
      OutputsIterations(lo, hi - 1, flag);
      var prefix := Outputs(lo, hi - 1) + [Iteration(false, false)];
      assert Outputs(lo, hi) == prefix + [WriteOutput(hi - 1)];
      One(Iteration(false, false), flag);
      One(WriteOutput(hi - 1), flag);
      CountIterationsAppend(Outputs(lo, hi - 1), [Iteration(false, false)], flag);
      CountIterationsAppend(prefix, [WriteOutput(hi - 1)], flag);
    }
  }

  /** Every step of the output loop is a sampling iteration outside burn-in or an output. */
  lemma {:induction false} OutputsShape(lo: nat, hi: nat)
    ensures forall i :: 0 <= i < |Outputs(lo, hi)| ==>
      Outputs(lo, hi)[i] == Iteration(false, false) || Outputs(lo, hi)[i].WriteOutput?
    decreases hi - lo
  {
    if lo < hi {
      OutputsShape(lo, hi - 1);
    }
  }

  /** The number of samples written: `write_output(0)` runs even when `num_samples` is 0. */
  function Written(numSamples: nat): nat
  {
    if numSamples == 0 then 1 else numSamples
  }

  /** The schedule as the steps up to sample 0 and the burn-in flags cleared, then the rest. */
  lemma Split(optRounds: nat, burnin: nat, numSamples: nat, nopriors: bool, threads: nat)
    ensures Schedule(optRounds, burnin, numSamples, nopriors, threads)
      == (Iterations(true, true, optRounds) + (if nopriors then [] else [EngagePriors]) + [WriteOutput(0), EndBurnin])
         + ((Iterations(false, false, burnin) + Outputs(1, numSamples)) + [Shutdown(threads)])
  {
  }

  /** The steps between the optimising iterations and the burn-in iterations write sample 0 and sweep never. */
  lemma {:induction false} MiddleCounts(nopriors: bool, flag: bool)
    ensures WriteIndexes((if nopriors then [] else [EngagePriors]) + [WriteOutput(0), EndBurnin]) == [0]
    ensures CountIterations((if nopriors then [] else [EngagePriors]) + [WriteOutput(0), EndBurnin], flag) == 0
  {
    var priors: seq<Event> := if nopriors then [] else [EngagePriors];
    One(EngagePriors, flag);
    One(WriteOutput(0), flag);
    One(EndBurnin, flag);
    WriteIndexesAppend([WriteOutput(0)], [EndBurnin]);
    CountIterationsAppend([WriteOutput(0)], [EndBurnin], flag);
    assert [WriteOutput(0)] + [EndBurnin] == [WriteOutput(0), EndBurnin];
    WriteIndexesAppend(priors, [WriteOutput(0), EndBurnin]);
    CountIterationsAppend(priors, [WriteOutput(0), EndBurnin], flag);
    if nopriors {
      assert priors + [WriteOutput(0), EndBurnin] == [WriteOutput(0), EndBurnin];
    }
  }

  /** The steps from the burn-in iterations on write samples 1 .. num_samples - 1. */
  lemma {:induction false} TailCounts(burnin: nat, numSamples: nat, threads: nat, flag: bool)
    ensures WriteIndexes(Iterations(false, false, burnin) + (Outputs(1, numSamples) + [Shutdown(threads)]))
      == WriteIndexes(Outputs(1, numSamples))
    ensures CountIterations(Iterations(false, false, burnin) + (Outputs(1, numSamples) + [Shutdown(threads)]), flag)
      == if flag then 0 else burnin + Written(numSamples) - 1
  {
    IterationsCount(false, false, burnin, flag);
    OutputsIterations(1, numSamples, flag);
    One(Shutdown(threads), flag);
    WriteIndexesAppend(Outputs(1, numSamples), [Shutdown(threads)]);
    CountIterationsAppend(Outputs(1, numSamples), [Shutdown(threads)], flag);
    WriteIndexesAppend(Iterations(false, false, burnin), Outputs(1, numSamples) + [Shutdown(threads)]);
    CountIterationsAppend(Iterations(false, false, burnin), Outputs(1, numSamples) + [Shutdown(threads)], flag);
  }

  /**
   * `run()` writes samples 0, 1, ..., num_samples - 1, each exactly once and
   * in increasing order (sample 0 also when num_samples is 0); it runs
   * `num_opt_rounds` optimising iterations and `burnin + num_samples - 1`
   * sampling ones.
   */
  lemma ScheduleCounts(optRounds: nat, burnin: nat, numSamples: nat, nopriors: bool, threads: nat)
    ensures WriteIndexes(Schedule(optRounds, burnin, numSamples, nopriors, threads)) == Range(0, Written(numSamples))
    ensures CountIterations(Schedule(optRounds, burnin, numSamples, nopriors, threads), true) == optRounds
    ensures CountIterations(Schedule(optRounds, burnin, numSamples, nopriors, threads), false)
      == burnin + Written(numSamples) - 1
  {
    var head := Iterations(true, true, optRounds);
    var middle := (if nopriors then [] else [EngagePriors]) + [WriteOutput(0), EndBurnin];
    var tail := Iterations(false, false, burnin) + (Outputs(1, numSamples) + [Shutdown(threads)]);
    Split(optRounds, burnin, numSamples, nopriors, threads);
    ghost var priors: seq<Event> := if nopriors then [] else [EngagePriors];
    assert Schedule(optRounds, burnin, numSamples, nopriors, threads) == head + middle + tail by {
      assert head + priors + [WriteOutput(0), EndBurnin] == head + middle;
      assert Iterations(false, false, burnin) + Outputs(1, numSamples) + [Shutdown(threads)] == tail;
    }
    forall flag: bool
      ensures CountIterations(head + middle + tail, flag) == if flag then optRounds else burnin + Written(numSamples) - 1
    {
      IterationsCount(true, true, optRounds, flag);
      MiddleCounts(nopriors, flag);
      TailCounts(burnin, numSamples, threads, flag);
      CountIterationsAppend(head, middle, flag);
      CountIterationsAppend(head + middle, tail, flag);
    }
    IterationsCount(true, true, optRounds, true);
    MiddleCounts(nopriors, true);
    TailCounts(burnin, numSamples, threads, true);
    WriteIndexesAppend(head, middle);
    WriteIndexesAppend(head + middle, tail);
    OutputsWrites(1, Written(numSamples));
    OutputsFrom(numSamples);
    if numSamples > 0 {
      RangeAppend(0, 1, numSamples);
    } else {
      assert Range(0, 1) == [0];
    }
  }

  /**
   * The order of the phases: the optimising iterations come first, with the
   * burn-in flag set; the priors are engaged right after them exactly when
   * `nopriors` is unset, and sample 0 is written next; the burn-in flag is
   * cleared before the first sampling iteration, so every iteration has
   * the burn-in flag set exactly when it optimises; the shutdown comes last.
   */
  lemma SchedulePhases(optRounds: nat, burnin: nat, numSamples: nat, nopriors: bool, threads: nat)
    ensures var s := Schedule(optRounds, burnin, numSamples, nopriors, threads);
      && (forall i :: 0 <= i < optRounds ==> s[i] == Iteration(true, true))
      && (EngagePriors in s <==> !nopriors)
      && (!nopriors ==> s[optRounds] == EngagePriors)
      && s[optRounds + (if nopriors then 0 else 1)] == WriteOutput(0)
      && (forall i :: 0 <= i < |s| && s[i].Iteration? ==> s[i].burnin == s[i].optimize)
      && s[|s| - 1] == Shutdown(threads)
  {
    var s := Schedule(optRounds, burnin, numSamples, nopriors, threads);
    var priors: seq<Event> := if nopriors then [] else [EngagePriors];
    var p := optRounds + |priors|;
    var rest := Iterations(false, false, burnin) + Outputs(1, numSamples) + [Shutdown(threads)];
    assert s == Iterations(true, true, optRounds) + priors + [WriteOutput(0), EndBurnin] + rest;
    OutputsShape(1, numSamples);
    forall i | 0 <= i < |rest|
      ensures rest[i] != EngagePriors && (rest[i].Iteration? ==> rest[i] == Iteration(false, false))
    {
      if i >= burnin && i - burnin < |Outputs(1, numSamples)| {
        assert rest[i] == Outputs(1, numSamples)[i - burnin];
      }
    }
    forall i | 0 <= i < |s|
      ensures s[i] != EngagePriors || (!nopriors && i == optRounds)
      ensures s[i].Iteration? ==> s[i].burnin == s[i].optimize
    {
      if p + 2 <= i {
        assert s[i] == rest[i - p - 2];
      }
    }
    if !nopriors {
      assert s[optRounds] == EngagePriors;
    }
  }
}
