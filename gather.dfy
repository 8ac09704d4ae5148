/**
 * The driver's side of the scatter-gather rounds of `Analyze::sample`
 * (src/analyze.cpp:2114-2229) and of the shutdown of `Analyze::run`
 * (src/analyze.cpp:2056-2070), with one worker standing for each group of
 * threads: the driver pushes the work, the worker drains its queue, and the
 * driver pops one notice per item pushed. After a round every unit of the
 * index space holds its target and both queues are empty again.
 */
module Gather {
  import opened Ranges
  import opened Dispatch
  import opened Params
  import opened Workers

  // ---------------------------------------------------------------------
  // Quantification samplers (src/analyze.cpp:2116-2124, 2183-2185)
  // ---------------------------------------------------------------------

  /** Every tick thread takes the optimize flag, then the driver queues the sample indexes 0 .. K-1. */
  method TickDispatch(w: TickWorker, optimize: bool)
    requires w.tasks.items == []
    modifies w, w.tasks
    ensures w.optimizeState == optimize && w.tasks.items == Range(0, w.k)
  {
    w.SetOptimizeState(optimize);
    PushIndexes(w.tasks, w.k);
  }

  /**
   * The tick threads work through the K indexes and the driver pops K
   * tocks: every row of Q holds the state of its own sampler, run with the
   * flag and the hyperparameters of this iteration, and both queues are
   * empty.
   */
  method TickCollect(w: TickWorker)
    requires w.Valid() && w.tasks.items == Range(0, w.k) && w.notify.items == []
    modifies w.q, w.tasks, w.notify
    ensures w.Valid() && w.tasks.items == [] && w.notify.items == []
    ensures w.q.rows == TickTargets(w.qd, old(w.q.rows), w.bank.hp, w.optimizeState)
  {
    RangeIsWork(w.k);
    assert Distinct(Range(0, w.k));
    var _ := w.Run();
    forall t | 0 <= t < w.k
      ensures t in Range(0, w.k)
    {
      RangeMembers(0, w.k, t);
    }
    OverlayAll(old(w.q.rows), Range(0, w.k), TickTargets(w.qd, old(w.q.rows), w.bank.hp, w.optimizeState));
    PopCount(w.notify, w.k);
  }

  // ---------------------------------------------------------------------
  // Condition level (src/analyze.cpp:2190-2209)
  // ---------------------------------------------------------------------

  /** The blocks of `Blocks(n)` visit every index below `n`. */
  lemma BlocksVisitAll(n: nat)
    ensures Work(Blocks(n)) == Blocks(n)
    ensures forall t :: 0 <= t < n ==> t in Indexes(Blocks(n))
  {
    BlocksAreWork(n);
    BlocksCover(n);
    forall t | 0 <= t < n
      ensures t in Indexes(Blocks(n))
    {
      RangeMembers(0, n, t);
    }
  }

  /**
   * The mean/shape threads drain the N-transcript blocks: every transcript
   * holds the condition means and shape `MeanShapeStep` draws for it, and
   * one notice per block is waiting.
   */
  method MeanShapeBlocks(w: ConditionMeanShapeWorker, es: real, shapeBeta: real)
    requires w.Valid() && w.tasks.items == Blocks(w.l.n)
    modifies w.cm, w.cs, w.tasks, w.notify
    ensures w.Valid() && w.q.rows == old(w.q.rows) && w.em.cells == old(w.em.cells)
    ensures w.tasks.items == [] && w.notify.items == old(w.notify.items) + Notices(NumBlocks(w.l.n))
    ensures var target := MeanShapeTargets(w.l, w.d, old(w.cm.rows), old(w.cs.cells), w.q.rows, w.em.cells,
                                           es, shapeBeta, w.burninState);
      w.cm.rows == Means(target) && w.cs.cells == Shapes(target)
  {
    BlocksFit(w.l.n);
    BlocksVisitAll(w.l.n);
    var _ := w.Run(es, shapeBeta);
    var target := MeanShapeTargets(w.l, w.d, old(w.cm.rows), old(w.cs.cells), w.q.rows, w.em.cells,
                                   es, shapeBeta, w.burninState);
    OverlayAll(old(w.cm.rows), Indexes(Blocks(w.l.n)), Means(target));
    OverlayAll(old(w.cs.cells), Indexes(Blocks(w.l.n)), Shapes(target));
  }

  /**
   * The splice threads drain the blocks of spliced tgroups: every tgroup
   * holds the mu, sigma and eta `SpliceStep` gives it, and one notice per
   * block is waiting.
   */
  method SpliceBlocks(w: ConditionSpliceWorker, ess: real, spliceBeta: real, minSigma: real)
    requires w.Valid() && w.tasks.items == Blocks(w.l.S())
    modifies w.csm, w.sigma, w.eta, w.tasks, w.notify
    ensures w.Valid() && w.q.rows == old(w.q.rows) && w.esmu.rows == old(w.esmu.rows)
    ensures w.tasks.items == [] && w.notify.items == old(w.notify.items) + Notices(NumBlocks(w.l.S()))
    ensures var target := SpliceTargets(w.l, w.d, old(w.csm.cells), old(w.sigma.rows), old(w.eta.rows), w.q.rows,
                                        w.esmu.rows, ess, spliceBeta, minSigma, w.burninState);
      w.csm.cells == Mus(target) && w.sigma.rows == Sigmas(target) && w.eta.rows == Etas(target)
  {
    BlocksFit(w.l.S());
    BlocksVisitAll(w.l.S());
    var _ := w.Run(ess, spliceBeta, minSigma);
    var target := SpliceTargets(w.l, w.d, old(w.csm.cells), old(w.sigma.rows), old(w.eta.rows), w.q.rows,
                                w.esmu.rows, ess, spliceBeta, minSigma, w.burninState);
    OverlayAll(old(w.csm.cells), Indexes(Blocks(w.l.S())), Mus(target));
    OverlayAll(old(w.sigma.rows), Indexes(Blocks(w.l.S())), Sigmas(target));
    OverlayAll(old(w.eta.rows), Indexes(Blocks(w.l.S())), Etas(target));
  }

  // ---------------------------------------------------------------------
  // Experiment level (src/analyze.cpp:2211-2228)
  // ---------------------------------------------------------------------

  /** The experiment mean threads drain the N-transcript blocks: every experiment mean holds its draw. */
  method ExperimentMeanBlocks(w: ExperimentMeanWorker, es: real)
    requires w.Valid() && w.tasks.items == Blocks(w.l.n)
    modifies w.em, w.tasks, w.notify
    ensures w.Valid()
    ensures w.tasks.items == [] && w.notify.items == old(w.notify.items) + Notices(NumBlocks(w.l.n))
    ensures w.em.cells == ExperimentMeanTargets(w.d, old(w.em.cells), w.cm.rows, es)
  {
    BlocksFit(w.l.n);
    BlocksVisitAll(w.l.n);
    var _ := w.Run(es);
    OverlayAll(old(w.em.cells), Indexes(Blocks(w.l.n)), ExperimentMeanTargets(w.d, old(w.em.cells), w.cm.rows, es));
  }

  /** The experiment splice threads drain the tgroup blocks: every tgroup's experiment splice means hold their draws. */
  method ExperimentSpliceBlocks(w: ExperimentSpliceWorker, ess: real)
    requires w.Valid() && w.tasks.items == Blocks(w.l.S())
    modifies w.esmu, w.tasks, w.notify
    ensures w.Valid()
    ensures w.tasks.items == [] && w.notify.items == old(w.notify.items) + Notices(NumBlocks(w.l.S()))
    ensures w.esmu.rows == ExperimentSpliceTargets(w.l, w.d, old(w.esmu.rows), w.csm.cells, ess)
  {
    BlocksFit(w.l.S());
    BlocksVisitAll(w.l.S());
    var _ := w.Run(ess);
    OverlayAll(old(w.esmu.rows), Indexes(Blocks(w.l.S())), ExperimentSpliceTargets(w.l, w.d, old(w.esmu.rows), w.csm.cells, ess));
  }

  // ---------------------------------------------------------------------
  // Shutdown (src/analyze.cpp:2056-2070)
  // ---------------------------------------------------------------------

  /** `count` stopping ranges. */
  function Sentinels(count: nat): (r: seq<IdxRange>)
    ensures |r| == count && forall i :: 0 <= i < count ==> Stops(r[i])
  {
    seq(count, _ => Sentinel)
  }

  /** `count` stopping indexes of the tick queue. */
  function StopIndexes(count: nat): (r: seq<int>)
    ensures |r| == count && forall i :: 0 <= i < count ==> r[i] == -1
  {
    seq(count, _ => -1)
  }

  /** A worker that finds only stopping ranges stops on the first one and does no work. */
  lemma SentinelsStop(count: nat)
    requires count > 0
    ensures Work(Sentinels(count)) == []
    ensures Drained(Sentinels(count), Sentinels(count - 1), true)
  {
    assert Sentinels(count)[1..] == Sentinels(count - 1);
  }

  /** A tick worker that finds only -1 stops on the first one and does no work. */
  lemma StopIndexesStop(count: nat)
    requires count > 0
    ensures WorkIdx(StopIndexes(count)) == []
    ensures DrainedIdx(StopIndexes(count), StopIndexes(count - 1), true)
  {
    assert StopIndexes(count)[1..] == StopIndexes(count - 1);
  }

  /** The `threads` tick threads each pop one -1 and stop; Q is left as it was and no tock is pushed. */
  method JoinTick(w: TickWorker, threads: nat)
    requires w.Valid() && w.tasks.items == StopIndexes(threads)
    modifies w.q, w.tasks, w.notify
    ensures w.Valid() && w.tasks.items == [] && w.notify.items == old(w.notify.items)
    ensures w.q.rows == old(w.q.rows)
  {
    for i := 0 to threads
      invariant w.Valid() && w.tasks.items == StopIndexes(threads - i)
      invariant w.notify.items == old(w.notify.items) && w.q.rows == old(w.q.rows)
    {
      StopIndexesStop(threads - i);
      ghost var q0 := w.q.rows;
      var stopped := w.Run();
      OverlayNone(q0, TickTargets(w.qd, q0, w.bank.hp, w.optimizeState));
    }
  }

  /** The `threads` mean/shape threads each pop one stopping range and stop, changing nothing. */
  method JoinMeanShape(w: ConditionMeanShapeWorker, threads: nat)
    requires w.Valid() && w.tasks.items == Sentinels(threads)
    modifies w.cm, w.cs, w.tasks, w.notify
    ensures w.Valid() && w.tasks.items == [] && w.notify.items == old(w.notify.items)
    ensures w.cm.rows == old(w.cm.rows) && w.cs.cells == old(w.cs.cells)
  {
    for i := 0 to threads
      invariant w.Valid() && w.tasks.items == Sentinels(threads - i)
      invariant w.notify.items == old(w.notify.items)
      invariant w.cm.rows == old(w.cm.rows) && w.cs.cells == old(w.cs.cells)
    {
      SentinelsStop(threads - i);
      ghost var target := MeanShapeTargets(w.l, w.d, w.cm.rows, w.cs.cells, w.q.rows, w.em.cells, 0.0, 0.0, w.burninState);
      OverlayNone(w.cm.rows, Means(target));
      OverlayNone(w.cs.cells, Shapes(target));
      var stopped := w.Run(0.0, 0.0);
    }
  }

  /** The `threads` experiment mean threads each pop one stopping range and stop, changing nothing. */
  method JoinExperimentMean(w: ExperimentMeanWorker, threads: nat)
    requires w.Valid() && w.tasks.items == Sentinels(threads)
    modifies w.em, w.tasks, w.notify
    ensures w.Valid() && w.tasks.items == [] && w.notify.items == old(w.notify.items)
    ensures w.em.cells == old(w.em.cells)
  {
    for i := 0 to threads
      invariant w.Valid() && w.tasks.items == Sentinels(threads - i)
      invariant w.notify.items == old(w.notify.items) && w.em.cells == old(w.em.cells)
    {
      SentinelsStop(threads - i);
      OverlayNone(w.em.cells, ExperimentMeanTargets(w.d, w.em.cells, w.cm.rows, 0.0));
      var stopped := w.Run(0.0);
    }
  }

  /** The `threads` splice threads each pop one stopping range and stop, changing nothing. */
  method JoinSplice(w: ConditionSpliceWorker, threads: nat)
    requires w.Valid() && w.tasks.items == Sentinels(threads)
    modifies w.csm, w.sigma, w.eta, w.tasks, w.notify
    ensures w.Valid() && w.tasks.items == [] && w.notify.items == old(w.notify.items)
    ensures w.csm.cells == old(w.csm.cells) && w.sigma.rows == old(w.sigma.rows) && w.eta.rows == old(w.eta.rows)
  {
    for i := 0 to threads
      invariant w.Valid() && w.tasks.items == Sentinels(threads - i)
      invariant w.notify.items == old(w.notify.items)
      invariant w.csm.cells == old(w.csm.cells) && w.sigma.rows == old(w.sigma.rows) && w.eta.rows == old(w.eta.rows)
    {
      SentinelsStop(threads - i);
      ghost var target := SpliceTargets(w.l, w.d, w.csm.cells, w.sigma.rows, w.eta.rows, w.q.rows, w.esmu.rows,
                                        0.0, 0.0, 0.0, w.burninState);
      OverlayNone(w.csm.cells, Mus(target));
      OverlayNone(w.sigma.rows, Sigmas(target));
      OverlayNone(w.eta.rows, Etas(target));
      var stopped := w.Run(0.0, 0.0, 0.0);
    }
  }

  /** The `threads` experiment splice threads each pop one stopping range and stop, changing nothing. */
  method JoinExperimentSplice(w: ExperimentSpliceWorker, threads: nat)
    requires w.Valid() && w.tasks.items == Sentinels(threads)
    modifies w.esmu, w.tasks, w.notify
    ensures w.Valid() && w.tasks.items == [] && w.notify.items == old(w.notify.items)
    ensures w.esmu.rows == old(w.esmu.rows)
  {
    for i := 0 to threads
      invariant w.Valid() && w.tasks.items == Sentinels(threads - i)
      invariant w.notify.items == old(w.notify.items) && w.esmu.rows == old(w.esmu.rows)
    {
      SentinelsStop(threads - i);
      OverlayNone(w.esmu.rows, ExperimentSpliceTargets(w.l, w.d, w.esmu.rows, w.csm.cells, 0.0));
      var stopped := w.Run(0.0);
    }
  }

  // ---------------------------------------------------------------------
  // The rounds of one iteration
  // ---------------------------------------------------------------------

  /**
   * The condition level (src/analyze.cpp:2190-2209): the driver queues the
   * transcript blocks and the spliced tgroup blocks, the two thread groups
   * drain them, and the driver pops one notice per block. The mean/shape
   * threads and the splice threads write disjoint arrays and read Q,
   * `experiment_mean` and `experiment_splice_mu`, which neither writes.
   */
  method ConditionRound(ms: ConditionMeanShapeWorker, sp: ConditionSpliceWorker,
                        es: real, shapeBeta: real, ess: real, spliceBeta: real, minSigma: real)
    requires ms.Valid() && sp.Valid() && ms.l == sp.l && ms.q == sp.q
    requires ms.cm != sp.sigma && ms.cm != sp.eta && ms.cm != sp.esmu
    requires ms.tasks != sp.tasks && ms.notify != sp.notify
    requires ms.tasks.items == [] && ms.notify.items == [] && sp.tasks.items == [] && sp.notify.items == []
    modifies ms.cm, ms.cs, sp.csm, sp.sigma, sp.eta, ms.tasks, ms.notify, sp.tasks, sp.notify
    ensures ms.Valid() && sp.Valid()
    ensures ms.tasks.items == [] && ms.notify.items == [] && sp.tasks.items == [] && sp.notify.items == []
    ensures var target := MeanShapeTargets(ms.l, ms.d, old(ms.cm.rows), old(ms.cs.cells), ms.q.rows, ms.em.cells,
                                           es, shapeBeta, ms.burninState);
      ms.cm.rows == Means(target) && ms.cs.cells == Shapes(target)
    ensures var target := SpliceTargets(sp.l, sp.d, old(sp.csm.cells), old(sp.sigma.rows), old(sp.eta.rows), sp.q.rows,
                                        sp.esmu.rows, ess, spliceBeta, minSigma, sp.burninState);
      sp.csm.cells == Mus(target) && sp.sigma.rows == Sigmas(target) && sp.eta.rows == Etas(target)
  {
    PushBlocks(ms.tasks, ms.l.n);
    PushBlocks(sp.tasks, sp.l.S());
    MeanShapeBlocks(ms, es, shapeBeta);
    SpliceBlocks(sp, ess, spliceBeta, minSigma);
    PopBlockNotices(ms.notify, ms.l.n);
    PopBlockNotices(sp.notify, sp.l.S());
  }

  /**
   * The experiment level (src/analyze.cpp:2211-2228), the same pattern over
   * the experiment mean threads, which read `condition_mean`, and the
   * experiment splice threads, which read `condition_splice_mu`.
   */
  method ExperimentRound(xm: ExperimentMeanWorker, xs: ExperimentSpliceWorker, es: real, ess: real)
    requires xm.Valid() && xs.Valid() && xm.l == xs.l && xm.cm != xs.esmu
    requires xm.tasks != xs.tasks && xm.notify != xs.notify
    requires xm.tasks.items == [] && xm.notify.items == [] && xs.tasks.items == [] && xs.notify.items == []
    modifies xm.em, xs.esmu, xm.tasks, xm.notify, xs.tasks, xs.notify
    ensures xm.Valid() && xs.Valid()
    ensures xm.tasks.items == [] && xm.notify.items == [] && xs.tasks.items == [] && xs.notify.items == []
    ensures xm.em.cells == ExperimentMeanTargets(xm.d, old(xm.em.cells), xm.cm.rows, es)
    ensures xs.esmu.rows == ExperimentSpliceTargets(xs.l, xs.d, old(xs.esmu.rows), xs.csm.cells, ess)
  {
    PushBlocks(xm.tasks, xm.l.n);
    PushBlocks(xs.tasks, xs.l.S());
    ExperimentMeanBlocks(xm, es);
    ExperimentSpliceBlocks(xs, ess);
    PopBlockNotices(xm.notify, xm.l.n);
    PopBlockNotices(xs.notify, xs.l.S());
  }

  /** The driver's shutdown loop (src/analyze.cpp:2056-2062): one stopping item per thread on each of the five queues. */
  method PushStops(ticks: Queue<int>, ms: Queue<IdxRange>, xm: Queue<IdxRange>, sp: Queue<IdxRange>, xs: Queue<IdxRange>,
                   threads: nat)
    requires ms != xm && ms != sp && ms != xs && xm != sp && xm != xs && sp != xs
    requires ticks.items == [] && ms.items == [] && xm.items == [] && sp.items == [] && xs.items == []
    modifies ticks, ms, xm, sp, xs
    ensures ticks.items == StopIndexes(threads)
    ensures ms.items == Sentinels(threads) && xm.items == Sentinels(threads)
    ensures sp.items == Sentinels(threads) && xs.items == Sentinels(threads)
  {
    for i := 0 to threads
      invariant ticks.items == StopIndexes(i) && ms.items == Sentinels(i) && xm.items == Sentinels(i)
      invariant sp.items == Sentinels(i) && xs.items == Sentinels(i)
    {
      ticks.Push(-1);
      ms.Push(Sentinel);
      xm.Push(Sentinel);
      sp.Push(Sentinel);
      xs.Push(Sentinel);
      assert StopIndexes(i + 1) == StopIndexes(i) + [-1];
      assert Sentinels(i + 1) == Sentinels(i) + [Sentinel];
    }
  }

  /** No tick is pending and no tick notice is waiting: the two queues hold no item between them. */
  ghost predicate TickQuiet(tick: TickWorker)
    reads tick.tasks, tick.notify
  {
    |tick.tasks.items| + |tick.notify.items| == 0
  }

  /**
   * No block is pending and no block notice is waiting in the four
   * condition- and experiment-level groups: their eight queues hold no item
   * between them.
   */
  ghost predicate RoundsQuiet(ms: ConditionMeanShapeWorker, xm: ExperimentMeanWorker,
                              sp: ConditionSpliceWorker, xs: ExperimentSpliceWorker)
    reads ms.tasks, ms.notify, xm.tasks, xm.notify, sp.tasks, sp.notify, xs.tasks, xs.notify
  {
    |ms.tasks.items| + |ms.notify.items| + |xm.tasks.items| + |xm.notify.items|
      + |sp.tasks.items| + |sp.notify.items| + |xs.tasks.items| + |xs.notify.items| == 0
  }

  /**
   * How the driver wires one worker of each group: the workers share the
   * layout, the samplers and the arrays of the driver, the arrays are
   * distinct objects and so are the queues.
   */
  ghost predicate Crew(tick: TickWorker, ms: ConditionMeanShapeWorker, xm: ExperimentMeanWorker,
                       sp: ConditionSpliceWorker, xs: ExperimentSpliceWorker)
  {
    && tick.k == ms.l.k && tick.n == ms.l.n && ms.q == tick.q
    && xm.l == ms.l && xm.d == ms.d && xm.cm == ms.cm && xm.em == ms.em
    && sp.l == ms.l && sp.d == ms.d && sp.q == tick.q
    && xs.l == ms.l && xs.d == ms.d && xs.csm == sp.csm && xs.esmu == sp.esmu
    && tick.q != ms.cm && tick.q != sp.sigma && tick.q != sp.eta && tick.q != sp.esmu
    && ms.cm != sp.sigma && ms.cm != sp.eta && ms.cm != sp.esmu
    && sp.sigma != sp.eta && sp.sigma != sp.esmu && sp.eta != sp.esmu && ms.cs != ms.em
    && ms.tasks != xm.tasks && ms.tasks != sp.tasks && ms.tasks != xs.tasks
    && xm.tasks != sp.tasks && xm.tasks != xs.tasks && sp.tasks != xs.tasks
    && tick.tasks != tick.notify && tick.tasks != ms.notify && tick.tasks != xm.notify
    && tick.tasks != sp.notify && tick.tasks != xs.notify
    && tick.notify != ms.notify && tick.notify != xm.notify && tick.notify != sp.notify && tick.notify != xs.notify
    && ms.notify != xm.notify && ms.notify != sp.notify && ms.notify != xs.notify
    && xm.notify != sp.notify && xm.notify != xs.notify && sp.notify != xs.notify
  }

  /**
   * The joins (src/analyze.cpp:2064-2070): every thread of every group pops
   * its stopping item and stops, so every task queue ends empty while no
   * parameter and no notice queue changes.
   */
  method JoinAll(tick: TickWorker, ms: ConditionMeanShapeWorker, xm: ExperimentMeanWorker,
                 sp: ConditionSpliceWorker, xs: ExperimentSpliceWorker, threads: nat)
    requires Crew(tick, ms, xm, sp, xs)
    requires tick.Valid() && ms.Valid() && xm.Valid() && sp.Valid() && xs.Valid()
    requires tick.tasks.items == StopIndexes(threads)
    requires ms.tasks.items == Sentinels(threads) && xm.tasks.items == Sentinels(threads)
    requires sp.tasks.items == Sentinels(threads) && xs.tasks.items == Sentinels(threads)
    modifies tick.tasks, ms.tasks, xm.tasks, sp.tasks, xs.tasks
    modifies tick.q, tick.notify, ms.cm, ms.cs, ms.notify, xm.em, xm.notify, sp.csm, sp.sigma, sp.eta, sp.notify,
             xs.esmu, xs.notify
    ensures tick.tasks.items == [] && ms.tasks.items == [] && xm.tasks.items == [] && sp.tasks.items == [] && xs.tasks.items == []
    ensures tick.q.rows == old(tick.q.rows) && ms.cm.rows == old(ms.cm.rows) && ms.cs.cells == old(ms.cs.cells)
    ensures xm.em.cells == old(xm.em.cells) && sp.csm.cells == old(sp.csm.cells) && sp.sigma.rows == old(sp.sigma.rows)
    ensures sp.eta.rows == old(sp.eta.rows) && xs.esmu.rows == old(xs.esmu.rows)
    ensures tick.notify.items == old(tick.notify.items) && ms.notify.items == old(ms.notify.items)
    ensures xm.notify.items == old(xm.notify.items) && sp.notify.items == old(sp.notify.items) && xs.notify.items == old(xs.notify.items)
  {
    JoinTick(tick, threads);
    JoinMeanShape(ms, threads);
    JoinExperimentMean(xm, threads);
    JoinSplice(sp, threads);
    JoinExperimentSplice(xs, threads);
  }
}
