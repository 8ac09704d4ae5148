/**
 * The sampler state `Analyze::run` sets up and `Analyze::sample` advances
 * (src/analyze.cpp:1877-2229): the parameter arrays, the quantification
 * samplers' hyperparameters, the driver's own scalars, the two work vectors
 * and one worker standing for each group of `num_threads` threads, each
 * wired to its queues and to the arrays it reads and writes.
 */
module Sampler {
  import opened Ranges
  import opened Dispatch
  import opened Params
  import opened Workers
  import opened Scatter
  import opened Flatten
  import opened Sweep
  import opened Gather

  /**
   * The driver's own draws (src/analyze.cpp:2129-2181) on the values of
   * the parameters `st` holds: the two work vectors filled, then the three
   * scalars drawn from them and the experiment shape set.
   */
  method DriverScalars(cfg: Config, st: Snapshot, sigmaBuf: seq<real>, residualBuf: seq<real>)
    returns (shapeBeta: real, spliceBeta: real, ess: real, es: real, sigmaWork: seq<real>, residualWork: seq<real>)
    requires cfg.Valid() && Shaped(cfg, st)
    requires |sigmaBuf| == FlattenedSize(cfg.l, cfg.l.S()) && |residualBuf| == cfg.l.c * FlattenedSize(cfg.l, cfg.l.S())
    ensures Draws(cfg, st) == st.(shapeBeta := shapeBeta, spliceBeta := spliceBeta, ess := ess, es := es)
    ensures |sigmaWork| == |sigmaBuf| && |residualWork| == |residualBuf|
  {
    ShapesGiveInputs(cfg.l, st.csm, st.sigma, st.eta);
    sigmaWork, residualWork := FillWork(cfg.l, st.sigma, st.csm, st.esmu, sigmaBuf, residualBuf);
    shapeBeta := cfg.d(ShapeBetaCall(st.shapeBeta, st.cs));
    spliceBeta := cfg.d(SpliceBetaCall(st.spliceBeta, sigmaWork));
    ess := cfg.d(ExperimentSpliceSigmaCall(st.ess, residualWork));
    es := cfg.experimentShape;
  }

  class Gibbs {
    const cfg: Config
    const q: Matrix
    const bank: SamplerBank
    const cm: Matrix
    const cs: Vec
    const em: Vec
    const csm: Cube
    const sigma: Matrix
    const eta: Matrix
    const esmu: Matrix
    const tick: TickWorker
    const ms: ConditionMeanShapeWorker
    const xm: ExperimentMeanWorker
    const sp: ConditionSpliceWorker
    const xs: ExperimentSpliceWorker
    /** `experiment_shape`, `condition_shape_beta`, `experiment_splice_sigma` and `condition_splice_beta`. */
    var es: real
    var shapeBeta: real
    var ess: real
    var spliceBeta: real
    /** `condition_splice_sigma_work` and `experiment_splice_sigma_work`. */
    var sigmaWork: seq<real>
    var residualWork: seq<real>

    /**
     * Every worker shares the layout, the samplers and the arrays of the
     * driver, the arrays are distinct objects and so are the queues.
     */
    ghost predicate Wired()
    {
      && tick.qd == cfg.qd && tick.bank == bank && tick.q == q
      && ms.l == cfg.l && ms.d == cfg.d && ms.cm == cm && ms.cs == cs && ms.em == em
      && sp.csm == csm && sp.sigma == sigma && sp.eta == eta && sp.esmu == esmu
      && Crew(tick, ms, xm, sp, xs)
    }

    /** Everything a sweep may change. */
    ghost function Repr(): set<object>
    {
      {this, q, bank, cm, cs, em, csm, sigma, eta, esmu, tick, tick.tasks, tick.notify,
       ms.tasks, ms.notify, xm.tasks, xm.notify, sp.tasks, sp.notify, xs.tasks, xs.notify}
    }

    /** Every parameter of the sampler. */
    function Snap(): Snapshot
      reads this, q, bank, cm, cs, em, csm, sigma, eta, esmu
    {
      Snapshot(q.rows, bank.hp, cm.rows, cs.cells, em.cells, csm.cells, sigma.rows, eta.rows, esmu.rows,
               es, shapeBeta, ess, spliceBeta)
    }

    /** The burn-in flag the condition-level threads share. */
    ghost function Burnin(): bool
      reads ms
    {
      ms.burninState
    }

    /** The objects holding the burn-in flags are not among those a sweep changes. */
    lemma FlagsApart()
      ensures ms !in Repr() && sp !in Repr() && xs !in Repr()
    {
    }

    /** The three threads with a burn-in flag agree on it. */
    ghost predicate FlagsAgree()
      reads ms, sp, xs
    {
      ms.burninState == sp.burninState == xs.burninState
    }

    /**
     * The parameters and the work vectors have their sizes and the burn-in
     * flags agree. The wiring, which no method changes, is required
     * separately.
     */
    ghost predicate Valid()
      requires cfg.Valid()
      reads this, q, bank, cm, cs, em, csm, sigma, eta, esmu, ms, sp, xs
    {
      Ready(cfg, Snap(), |sigmaWork|, |residualWork|) && FlagsAgree()
    }

    /** Every queue is empty: no work is pending and no notice is waiting. */
    ghost predicate Idle()
      reads tick.tasks, tick.notify, ms.tasks, ms.notify, xm.tasks, xm.notify, sp.tasks, sp.notify, xs.tasks, xs.notify
    {
      TickQuiet(tick) && RoundsQuiet(ms, xm, sp, xs)
    }

    constructor (cfg: Config, q: Matrix, bank: SamplerBank, cm: Matrix, cs: Vec, em: Vec,
                 csm: Cube, sigma: Matrix, eta: Matrix, esmu: Matrix,
                 tick: TickWorker, ms: ConditionMeanShapeWorker, xm: ExperimentMeanWorker,
                 sp: ConditionSpliceWorker, xs: ExperimentSpliceWorker,
                 es: real, shapeBeta: real, ess: real, spliceBeta: real, sigmaWork: seq<real>, residualWork: seq<real>)
      ensures this.cfg == cfg && this.q == q && this.bank == bank && this.cm == cm && this.cs == cs && this.em == em
      ensures this.csm == csm && this.sigma == sigma && this.eta == eta && this.esmu == esmu
      ensures this.tick == tick && this.ms == ms && this.xm == xm && this.sp == sp && this.xs == xs
      ensures this.es == es && this.shapeBeta == shapeBeta && this.ess == ess && this.spliceBeta == spliceBeta
      ensures this.sigmaWork == sigmaWork && this.residualWork == residualWork
    {
      this.cfg := cfg;
      this.q := q;
      this.bank := bank;
      this.cm := cm;
      this.cs := cs;
      this.em := em;
      this.csm := csm;
      this.sigma := sigma;
      this.eta := eta;
      this.esmu := esmu;
      this.tick := tick;
      this.ms := ms;
      this.xm := xm;
      this.sp := sp;
      this.xs := xs;
      this.es := es;
      this.shapeBeta := shapeBeta;
      this.ess := ess;
      this.spliceBeta := spliceBeta;
      this.sigmaWork := sigmaWork;
      this.residualWork := residualWork;
    }

    /** `qsampler_update_hyperparameters` (src/analyze.cpp:2116). */
    method UpdateHyper()
      requires cfg.Valid() && Valid()
      modifies bank
      ensures Snap() == Hyperparameters(cfg, old(Snap())) && Valid()
    {
      ShapesGiveInputs(cfg.l, csm.cells, sigma.rows, eta.rows);
      UpdateHyperparameters(bank, cfg.l, cfg.scale, cm.rows, cs.cells, csm.cells, sigma.rows);
    }

    /** The driver's own draws while the tick threads run (src/analyze.cpp:2129-2181). */
    method DriverDraws()
      requires cfg.Valid() && Valid()
      modifies this
      ensures Valid() && Snap() == Draws(cfg, old(Snap()))
    {
      var st := Snap();
      var shapeBeta', spliceBeta', ess', es', sigmaWork', residualWork' :=
        DriverScalars(cfg, st, sigmaWork, residualWork);
      shapeBeta, spliceBeta, ess, es := shapeBeta', spliceBeta', ess', es';
      assert Snap() == st.(shapeBeta := shapeBeta', spliceBeta := spliceBeta', ess := ess', es := es');
      sigmaWork, residualWork := sigmaWork', residualWork';
    }

    /** Every tick thread takes the flag and the K sample indexes are queued (src/analyze.cpp:2118-2124). */
    method StartTicks(optimize: bool)
      requires cfg.Valid() && Wired() && Valid() && Idle()
      modifies tick, tick.tasks
      ensures Valid() && Snap() == old(Snap()) && RoundsQuiet(ms, xm, sp, xs)
      ensures tick.tasks.items == Range(0, cfg.l.k) && tick.notify.items == [] && tick.optimizeState == optimize
    {
      TickDispatch(tick, optimize);
    }

    /** Waits for the tick threads: every sampler has run and Q holds their states (src/analyze.cpp:2183-2185). */
    method CollectTicks(optimize: bool)
      requires cfg.Valid() && Wired() && Valid() && RoundsQuiet(ms, xm, sp, xs)
      requires tick.tasks.items == Range(0, cfg.l.k) && tick.notify.items == [] && tick.optimizeState == optimize
      modifies q, tick.tasks, tick.notify
      ensures Snap() == Ticks(cfg, old(Snap()), optimize) && Valid() && Idle()
    {
      TickCollect(tick);
    }

    /** The condition-level rounds (src/analyze.cpp:2189-2209). */
    method ConditionStage()
      requires cfg.Valid() && Wired() && Valid() && RoundsQuiet(ms, xm, sp, xs)
      modifies cm, cs, csm, sigma, eta, ms.tasks, ms.notify, sp.tasks, sp.notify
      ensures Snap() == ConditionLevel(cfg, old(Snap()), Burnin()) && Valid() && RoundsQuiet(ms, xm, sp, xs)
    {
      ConditionRound(ms, sp, es, shapeBeta, ess, spliceBeta, cfg.minSigma);
    }

    /** The experiment-level rounds (src/analyze.cpp:2211-2228). */
    method ExperimentStage()
      requires cfg.Valid() && Wired() && Valid() && RoundsQuiet(ms, xm, sp, xs)
      modifies em, esmu, xm.tasks, xm.notify, xs.tasks, xs.notify
      ensures Snap() == ExperimentLevel(cfg, old(Snap())) && Valid() && RoundsQuiet(ms, xm, sp, xs)
    {
      ExperimentRound(xm, xs, es, ess);
    }

    /**
     * The tick threads set to work (src/analyze.cpp:2118-2124), the
     * driver's draws meanwhile, and the wait for every tick.
     */
    method TickRound(optimize: bool)
      requires cfg.Valid() && Wired() && Valid() && Idle()
      modifies this, q, tick, tick.tasks, tick.notify
      ensures Valid() && Idle()
      ensures Snap() == Ticks(cfg, Draws(cfg, old(Snap())), optimize)
    {
      StartTicks(optimize);
      DriverDraws();
      CollectTicks(optimize);
    }

    /** The second half of `sample()` (src/analyze.cpp:2189-2228): the condition level, then the experiment level. */
    method Rounds()
      requires cfg.Valid() && Wired() && Valid() && Idle()
      modifies cm, cs, csm, sigma, eta, em, esmu, ms.tasks, ms.notify, sp.tasks, sp.notify, xm.tasks, xm.notify, xs.tasks, xs.notify
      ensures Valid() && Idle()
      ensures Snap() == ExperimentLevel(cfg, ConditionLevel(cfg, old(Snap()), Burnin()))
    {
      ConditionStage();
      assert TickQuiet(tick);
      ExperimentStage();
    }

    /**
     * `sample(optimize)`: one Gibbs iteration. The parameters become what
     * `Iterate` makes of them with this flag and the threads' burn-in flag,
     * and every queue is empty again.
     */
    method Sample(optimize: bool)
      requires cfg.Valid() && Wired() && Valid() && Idle()
      modifies Repr()
      ensures Valid() && Idle()
      ensures Snap() == Iterate(cfg, old(Snap()), optimize, Burnin())
    {
      UpdateHyper();
      TickRound(optimize);
      Rounds();
    }

    /** `end_burnin` on every splice, experiment splice and mean/shape thread (src/analyze.cpp:2028-2040). */
    method EndBurnin()
      requires cfg.Valid() && Wired() && Valid()
      modifies ms, sp, xs
      ensures Valid() && !Burnin() && Snap() == old(Snap())
      ensures Idle() == old(Idle())
    {
      sp.EndBurnin();
      xs.EndBurnin();
      ms.EndBurnin();
    }

    /** The stopping items, one per thread of each group, pushed on every task queue (src/analyze.cpp:2056-2062). */
    method QueueStops(threads: nat)
      requires cfg.Valid() && Wired() && Valid() && Idle()
      modifies tick.tasks, ms.tasks, xm.tasks, sp.tasks, xs.tasks
      ensures Valid() && Snap() == old(Snap())
      ensures tick.tasks.items == StopIndexes(threads)
      ensures ms.tasks.items == Sentinels(threads) && xm.tasks.items == Sentinels(threads)
      ensures sp.tasks.items == Sentinels(threads) && xs.tasks.items == Sentinels(threads)
      ensures tick.notify.items == [] && ms.notify.items == [] && xm.notify.items == []
      ensures sp.notify.items == [] && xs.notify.items == []
    {
      PushStops(tick.tasks, ms.tasks, xm.tasks, sp.tasks, xs.tasks, threads);
    }

    /** The joins (src/analyze.cpp:2064-2070): every thread pops its stopping item and stops. */
    method Join(threads: nat)
      requires cfg.Valid() && Wired() && Valid()
      requires tick.tasks.items == StopIndexes(threads)
      requires ms.tasks.items == Sentinels(threads) && xm.tasks.items == Sentinels(threads)
      requires sp.tasks.items == Sentinels(threads) && xs.tasks.items == Sentinels(threads)
      requires tick.notify.items == [] && ms.notify.items == [] && xm.notify.items == []
      requires sp.notify.items == [] && xs.notify.items == []
      modifies Repr()
      ensures Valid() && Idle() && Snap() == old(Snap())
    {
      JoinAll(tick, ms, xm, sp, xs, threads);
    }

    /**
     * Shutdown (src/analyze.cpp:2056-2070): every thread pops its stopping
     * item and stops; no parameter changes and every queue ends empty.
     */
    method Shutdown(threads: nat)
      requires cfg.Valid() && Wired() && Valid() && Idle()
      modifies Repr()
      ensures Valid() && Idle() && Snap() == old(Snap())
    {
      QueueStops(threads);
      Join(threads);
    }
  }
}
