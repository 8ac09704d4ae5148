/**
 * The driver `Analyze` (src/analyze.cpp:1256-1379, 1877-2111): the sample
 * registry `add_sample` fills, the tables the constructor derives from
 * the transcript set, the parameter arrays `run()` sizes and
 * `choose_initial_values` fills, and the phases of `run()` over the
 * sampler of `Sampler`.
 */
module Analysis {
  import opened Ranges
  import opened Setup
  import opened Dispatch
  import opened Params
  import opened Workers
  import opened Scatter
  import opened Flatten
  import opened Sweep
  import opened Gather
  import opened Sampler
  import opened Phases

  // ---------------------------------------------------------------------
  // Chains of iterations
  // ---------------------------------------------------------------------

  /**
   * One iteration, on parameters that have the sizes of the layout (the
   * only ones the driver ever holds); any others are left as they are.
   */
  ghost function Next(cfg: Config, st: Snapshot, optimize: bool, burnin: bool): Snapshot
    requires cfg.Valid()
  {
    if Shaped(cfg, st) then Iterate(cfg, st, optimize, burnin) else st
  }

  /** An iteration with fixed flags, as a step to repeat. */
  ghost function Advance(cfg: Config, optimize: bool, burnin: bool): (step: Snapshot -> Snapshot)
    requires cfg.Valid()
    ensures forall st :: step(st) == Next(cfg, st, optimize, burnin)
  {
    st => Next(cfg, st, optimize, burnin)
  }

  /** The state after `count` applications of `step`. */
  ghost function Chain<S>(step: S -> S, s: S, count: nat): S
  {
    if count == 0 then s else step(Chain(step, s, count - 1))
  }

  /** On parameters with the sizes of the layout the next step of a chain is `Iterate`. */
  lemma ChainNext(cfg: Config, st: Snapshot, optimize: bool, burnin: bool, count: nat, current: Snapshot)
    requires cfg.Valid() && current == Chain(Advance(cfg, optimize, burnin), st, count) && Shaped(cfg, current)
    ensures Chain(Advance(cfg, optimize, burnin), st, count + 1) == Iterate(cfg, current, optimize, burnin)
  {
  }

  /** `a` steps followed by `b` more are `a + b` steps. */
  lemma {:induction false} ChainAdd<S>(step: S -> S, s: S, a: nat, b: nat)
    ensures Chain(step, Chain(step, s, a), b) == Chain(step, s, a + b)
    decreases b
  {
    if b > 0 {
      ChainAdd(step, s, a, b - 1);
    }
  }

  /** The states after each of steps `1 .. count` of a chain. */
  ghost function Samples<S>(step: S -> S, s: S, count: nat): seq<S>
  {
    if count == 0 then [] else Samples(step, s, count - 1) + [Chain(step, s, count)]
  }

  /** One more sample. */
  lemma SamplesNext<S>(step: S -> S, s: S, count: nat)
    ensures Samples(step, s, count + 1) == Samples(step, s, count) + [Chain(step, s, count + 1)]
  {
  }

  /** Entry `u` of `Samples` holds the state after `u + 1` steps. */
  lemma {:induction false} SamplesAt<S>(step: S -> S, s: S, count: nat)
    ensures |Samples(step, s, count)| == count
    ensures forall u :: 0 <= u < count ==> Samples(step, s, count)[u] == Chain(step, s, u + 1)
  {
    if count > 0 {
      SamplesAt(step, s, count - 1);
    }
  }

  /**
   * `first` followed by the samples of a chain that starts `burnin`
   * steps after it: entry `i >= 1` holds the state after `burnin + i`
   * steps from `first`.
   */
  lemma SamplesAfter<S>(step: S -> S, first: S, burnin: nat, count: nat, later: seq<S>, outputs: seq<S>)
    requires later == Samples(step, Chain(step, first, burnin), count)
    requires outputs == [first] + later
    ensures |outputs| == count + 1 && outputs[0] == first
    ensures forall i :: 1 <= i < |outputs| ==> outputs[i] == Chain(step, first, burnin + i)
  {
    SamplesAt(step, Chain(step, first, burnin), count);
    forall i | 1 <= i < |outputs|
      ensures outputs[i] == Chain(step, first, burnin + i)
    {
      ChainAdd(step, first, burnin, i);
    }
  }

  // ---------------------------------------------------------------------
  // Initial values (src/analyze.cpp:1877-1921, 2369-2398)
  // ---------------------------------------------------------------------

  /**
   * The parameters as `run()` sizes them and `choose_initial_values` fills
   * them: condition and experiment means `zero_eps`, condition shapes 1.0,
   * condition splice means 0.5, splice sigmas 0.1, etas 1.0, experiment
   * splice means 0.5, experiment shape 2.0, shape beta 1.0, experiment
   * splice sigma 0.5 and splice beta 1.0; Q and the quantification
   * samplers' hyperparameters as the samplers were set up.
   */
  ghost predicate Starting(cfg: Config, st: Snapshot, q0: seq<seq<real>>, hp0: seq<Hyper>, zeroEps: real)
    requires cfg.Valid()
  {
    var l := cfg.l;
    && Shaped(cfg, st) && st.q == q0 && st.hp == hp0
    && (forall t, c :: 0 <= t < l.n && 0 <= c < l.c ==> st.cm[t][c] == zeroEps)
    && (forall t :: 0 <= t < l.n ==> st.cs[t] == 1.0 && st.em[t] == zeroEps)
    && (forall j, c, m :: 0 <= j < l.S() && 0 <= c < l.c && 0 <= m < |l.Tids(j)| ==> st.csm[j][c][m] == 0.5)
    && (forall j, m :: 0 <= j < l.S() && 0 <= m < |l.Tids(j)| ==> st.sigma[j][m] == 0.1 && st.eta[j][m] == 1.0)
    && (forall j, m :: 0 <= j < l.S() && 0 <= m < |l.Tids(j)| ==> st.esmu[j][m] == 0.5)
    && st.es == 2.0 && st.shapeBeta == 1.0 && st.ess == 0.5 && st.spliceBeta == 1.0
  }

  /**
   * The loop over the spliced tgroups in `run()` (src/analyze.cpp:1903-1913):
   * each tgroup's splice sigmas sized to its transcripts and filled with 0.1,
   * its etas with 1.0, and `flattened_sigma_size` summing the sizes, which
   * is the length of the flattened sigmas the driver draws from.
   */
  method SpliceRows(l: Layout) returns (sigma: seq<seq<real>>, eta: seq<seq<real>>, size: nat)
    requires l.Valid()
    ensures |sigma| == l.S() && |eta| == l.S()
    ensures forall j :: 0 <= j < l.S() ==> sigma[j] == Fill(|l.Tids(j)|, 0.1) && eta[j] == Fill(|l.Tids(j)|, 1.0)
    ensures size == FlattenedSize(l, l.S()) && size == |Flatten.Flatten(sigma)|
  {
    sigma, eta, size := [], [], 0;
    for j := 0 to l.S()
      invariant |sigma| == j && |eta| == j
      invariant forall u :: 0 <= u < j ==> sigma[u] == Fill(|l.Tids(u)|, 0.1) && eta[u] == Fill(|l.Tids(u)|, 1.0)
      invariant size == FlattenedSize(l, j)
    {
      sigma := sigma + [Fill(|l.Tids(j)|, 0.1)];
      eta := eta + [Fill(|l.Tids(j)|, 1.0)];
      size := size + |sigma[j]|;
    }
    FlattenWhole(l, sigma);
  }

  /** The starting parameters, and the length `run()` gives the flattened sigma work vector. */
  method InitialValues(cfg: Config, q0: seq<seq<real>>, hp0: seq<Hyper>, zeroEps: real) returns (st: Snapshot, size: nat, wide: nat)
    requires cfg.Valid() && Rect(q0, cfg.l.k, cfg.l.n) && HypersSized(hp0, cfg.l.k, cfg.l.n)
    ensures Starting(cfg, st, q0, hp0, zeroEps)
    ensures size == FlattenedSize(cfg.l, cfg.l.S()) && wide == cfg.l.c * size
  {
    var l := cfg.l;
    var sigma, eta, s := SpliceRows(l);
    var csm := seq(l.S(), j requires 0 <= j < l.S() => seq(l.c, _ => Fill(|l.Tids(j)|, 0.5)));
    var esmu := seq(l.S(), j requires 0 <= j < l.S() => Fill(|l.Tids(j)|, 0.5));
    st := Snapshot(q0, hp0, seq(l.n, _ => Fill(l.c, zeroEps)), Fill(l.n, 1.0), Fill(l.n, zeroEps),
                   csm, sigma, eta, esmu, 2.0, 1.0, 0.5, 1.0);
    size, wide := s, l.c * s;
    assert SpliceShapes(l, csm, sigma, eta) by {
      forall j | 0 <= j < l.S()
        ensures SpliceShaped(SpliceView(csm[j], sigma[j], eta[j]), l.c, |l.Tids(j)|)
      {
      }
    }
  }

  // ---------------------------------------------------------------------
  // The phases of run() (src/analyze.cpp:2013-2070)
  // ---------------------------------------------------------------------

  /** One `sample(optimize)` as a step of a chain; the burn-in flag stays as it is. */
  method Step(g: Gibbs, optimize: bool, ghost start: Snapshot, ghost done: nat)
    requires g.cfg.Valid() && g.Wired() && g.Valid() && g.Idle()
    requires g.Snap() == Chain(Advance(g.cfg, optimize, g.Burnin()), start, done)
    modifies g.Repr()
    ensures g.Valid() && g.Idle() && g.Burnin() == old(g.Burnin())
    ensures g.Snap() == Chain(Advance(g.cfg, optimize, g.Burnin()), start, done + 1)
  {
    ghost var before := g.Snap();
    assert Shaped(g.cfg, before);
    ChainNext(g.cfg, start, optimize, g.Burnin(), done, before);
    g.FlagsApart();
    g.Sample(optimize);
  }

  /**
   * A counted loop of `sample(optimize)`: the parameters go through
   * `count` iterations with the threads' burn-in flag, which no iteration
   * changes.
   */
  method SampleLoop(g: Gibbs, optimize: bool, count: nat) returns (events: seq<Event>)
    requires g.cfg.Valid() && g.Wired() && g.Valid() && g.Idle()
    modifies g.Repr()
    ensures g.Valid() && g.Idle() && g.Burnin() == old(g.Burnin())
    ensures events == Iterations(optimize, g.Burnin(), count)
    ensures g.Snap() == Chain(Advance(g.cfg, optimize, g.Burnin()), old(g.Snap()), count)
  {
    ghost var start, burnin := g.Snap(), g.Burnin();
    events := [];
    for i := 0 to count
      invariant g.Valid() && g.Idle() && g.Burnin() == burnin
      invariant events == Iterations(optimize, burnin, i)
      invariant g.Snap() == Chain(Advance(g.cfg, optimize, burnin), start, i)
    {
      Step(g, optimize, start, i);
      IterationsNext(optimize, burnin, i);
      events := events + [Iteration(optimize, g.ms.burninState)];
    }
  }

  /**
   * The output loop `for (i = 1; i < num_samples; ++i)`: a sampling
   * iteration, then the parameters written as sample `i`. Output `i`
   * holds the parameters after `i` iterations.
   */
  method OutputLoop(g: Gibbs, numSamples: nat) returns (events: seq<Event>, ghost outputs: seq<Snapshot>)
    requires g.cfg.Valid() && g.Wired() && g.Valid() && g.Idle() && !g.Burnin()
    modifies g.Repr()
    ensures g.Valid() && g.Idle() && !g.Burnin()
    ensures events == Outputs(1, numSamples)
    ensures outputs == Samples(Advance(g.cfg, false, false), old(g.Snap()), Written(numSamples) - 1)
    ensures g.Snap() == Chain(Advance(g.cfg, false, false), old(g.Snap()), Written(numSamples) - 1)
  {
    ghost var start := g.Snap();
    events, outputs := [], [];
    for i := 1 to Written(numSamples)
      invariant g.Valid() && g.Idle() && !g.Burnin()
      invariant events == Outputs(1, i)
      invariant outputs == Samples(Advance(g.cfg, false, false), start, i - 1)
      invariant g.Snap() == Chain(Advance(g.cfg, false, false), start, i - 1)
    {
      Step(g, false, start, i - 1);
      SamplesNext(Advance(g.cfg, false, false), start, i - 1);
      outputs := outputs + [g.Snap()];
      events := events + [Iteration(false, g.ms.burninState), WriteOutput(i)];
    }
    OutputsFrom(numSamples);
  }

  /**
   * The first half of `run()` once the threads are started: the
   * optimisation rounds, the priors engaged unless `nopriors`, the
   * parameters written as sample 0 and the burn-in flags cleared.
   */
  method Warmup(g: Gibbs, optRounds: nat, nopriors: bool) returns (events: seq<Event>, ghost first: Snapshot)
    requires g.cfg.Valid() && g.Wired() && g.Valid() && g.Idle() && g.Burnin()
    modifies g.Repr(), g.ms, g.sp, g.xs
    ensures g.Valid() && g.Idle() && !g.Burnin()
    ensures events == Iterations(true, true, optRounds) + (if nopriors then [] else [EngagePriors]) + [WriteOutput(0), EndBurnin]
    ensures first == g.Snap() == Chain(Advance(g.cfg, true, true), old(g.Snap()), optRounds)
  {
    g.FlagsApart();
    events := SampleLoop(g, true, optRounds);
    first := g.Snap();
    events := events + (if nopriors then [] else [EngagePriors]) + [WriteOutput(0), EndBurnin];
    g.EndBurnin();
  }

  /**
   * The burn-in iterations and the output loop: sample 0 is `first`, and
   * the later samples are those of the chain that starts `burnin`
   * iterations after it.
   */
  method Posterior(g: Gibbs, burnin: nat, numSamples: nat, ghost first: Snapshot)
    returns (events: seq<Event>, ghost outputs: seq<Snapshot>)
    requires g.cfg.Valid() && g.Wired() && g.Valid() && g.Idle() && !g.Burnin() && g.Snap() == first
    modifies g.Repr()
    ensures g.Valid() && g.Idle() && !g.Burnin()
    ensures events == Iterations(false, false, burnin) + Outputs(1, numSamples)
    ensures outputs == [first] + Samples(Advance(g.cfg, false, false), Chain(Advance(g.cfg, false, false), first, burnin), Written(numSamples) - 1)
  {
    events := SampleLoop(g, false, burnin);
    assert events == Iterations(false, false, burnin);
    var more, later := OutputLoop(g, numSamples);
    events := events + more;
    outputs := [first] + later;
  }

  /**
   * `run()` once the threads are started: the optimisation rounds, the
   * priors engaged unless `nopriors`, sample 0 written, the burn-in flags
   * cleared, the burn-in iterations, the output loop and the shutdown.
   * Sample 0 holds the parameters after the optimisation rounds, and
   * sample `i >= 1` those after `burnin + i` further iterations.
   */
  method Drive(g: Gibbs, optRounds: nat, burnin: nat, numSamples: nat, nopriors: bool, threads: nat)
    returns (events: seq<Event>, ghost outputs: seq<Snapshot>)
    requires g.cfg.Valid() && g.Wired() && g.Valid() && g.Idle() && g.Burnin()
    modifies g.Repr(), g.ms, g.sp, g.xs
    ensures g.Valid() && g.Idle() && !g.Burnin()
    ensures events == Schedule(optRounds, burnin, numSamples, nopriors, threads)
    ensures |outputs| == Written(numSamples)
    ensures outputs[0] == Chain(Advance(g.cfg, true, true), old(g.Snap()), optRounds)
    ensures forall i :: 1 <= i < |outputs| ==> outputs[i] == Chain(Advance(g.cfg, false, false), outputs[0], burnin + i)
  {
    var head, first := Warmup(g, optRounds, nopriors);
    var tail;
    tail, outputs := Posterior(g, burnin, numSamples, first);
    ghost var step := Advance(g.cfg, false, false);
    SamplesAfter(step, first, burnin, Written(numSamples) - 1,
                 Samples(step, Chain(step, first, burnin), Written(numSamples) - 1), outputs);
    g.FlagsApart();
    g.Shutdown(threads);
    events := head + (tail + [Shutdown(threads)]);
    Split(optRounds, burnin, numSamples, nopriors, threads);
  }

  // ---------------------------------------------------------------------
  // The driver
  // ---------------------------------------------------------------------

  /** The parameter arrays and the samplers' hyperparameters, holding `st`. */
  method Arrays(st: Snapshot)
    returns (q: Matrix, bank: SamplerBank, cm: Matrix, cs: Vec, em: Vec, csm: Cube, sigma: Matrix, eta: Matrix, esmu: Matrix)
    ensures fresh(q) && fresh(bank) && fresh(cm) && fresh(cs) && fresh(em)
    ensures fresh(csm) && fresh(sigma) && fresh(eta) && fresh(esmu)
    ensures q != cm && q != sigma && q != eta && q != esmu && cm != sigma && cm != eta && cm != esmu
    ensures sigma != eta && sigma != esmu && eta != esmu && cs != em
    ensures q.rows == st.q && bank.hp == st.hp && cm.rows == st.cm && cs.cells == st.cs && em.cells == st.em
    ensures csm.cells == st.csm && sigma.rows == st.sigma && eta.rows == st.eta && esmu.rows == st.esmu
  {
    q := new Matrix(st.q);
    bank := new SamplerBank(st.hp);
    cm := new Matrix(st.cm);
    cs := new Vec(st.cs);
    em := new Vec(st.em);
    csm := new Cube(st.csm);
    sigma := new Matrix(st.sigma);
    eta := new Matrix(st.eta);
    esmu := new Matrix(st.esmu);
  }

  /**
   * The queues and one worker of each thread group, wired to the driver's
   * arrays and samplers; every queue starts empty and every burn-in flag set.
   */
  method Threads(cfg: Config, q: Matrix, bank: SamplerBank, cm: Matrix, cs: Vec, em: Vec,
                 csm: Cube, sigma: Matrix, eta: Matrix, esmu: Matrix)
    returns (tick: TickWorker, ms: ConditionMeanShapeWorker, xm: ExperimentMeanWorker,
             sp: ConditionSpliceWorker, xs: ExperimentSpliceWorker)
    requires q != cm && q != sigma && q != eta && q != esmu && cm != sigma && cm != eta && cm != esmu
    requires sigma != eta && sigma != esmu && eta != esmu && cs != em
    ensures fresh(tick) && fresh(ms) && fresh(xm) && fresh(sp) && fresh(xs)
    ensures fresh(tick.tasks) && fresh(tick.notify) && fresh(ms.tasks) && fresh(ms.notify) && fresh(xm.tasks)
    ensures fresh(xm.notify) && fresh(sp.tasks) && fresh(sp.notify) && fresh(xs.tasks) && fresh(xs.notify)
    ensures tick.qd == cfg.qd && tick.bank == bank && tick.q == q
    ensures ms.l == cfg.l && ms.d == cfg.d && ms.cm == cm && ms.cs == cs && ms.em == em
    ensures sp.csm == csm && sp.sigma == sigma && sp.eta == eta && sp.esmu == esmu
    ensures Crew(tick, ms, xm, sp, xs) && TickQuiet(tick) && RoundsQuiet(ms, xm, sp, xs)
    ensures ms.burninState && sp.burninState && xs.burninState
  {
    var l := cfg.l;
    var tickTasks := new Queue<int>();
    var tickNotify := new Queue<int>();
    var msTasks := new Queue<IdxRange>();
    var msNotify := new Queue<int>();
    var xmTasks := new Queue<IdxRange>();
    var xmNotify := new Queue<int>();
    var spTasks := new Queue<IdxRange>();
    var spNotify := new Queue<int>();
    var xsTasks := new Queue<IdxRange>();
    var xsNotify := new Queue<int>();
    tick := new TickWorker(l.k, l.n, cfg.qd, bank, q, tickTasks, tickNotify);
    ms := new ConditionMeanShapeWorker(l, cfg.d, q, cm, cs, em, msTasks, msNotify);
    xm := new ExperimentMeanWorker(l, cfg.d, cm, em, xmTasks, xmNotify);
    sp := new ConditionSpliceWorker(l, cfg.d, q, csm, sigma, eta, esmu, spTasks, spNotify);
    xs := new ExperimentSpliceWorker(l, cfg.d, csm, esmu, xsTasks, xsNotify);
  }

  /**
   * Builds the parameter arrays, the queues and one worker of each thread
   * group, every worker wired to the arrays it reads and writes, with both
   * work vectors zero-filled at the sizes `run()` gives them.
   */
  method Build(cfg: Config, st: Snapshot, size: nat, wide: nat) returns (g: Gibbs)
    requires cfg.Valid() && Ready(cfg, st, size, wide)
    ensures fresh(g) && fresh(g.Repr()) && fresh(g.ms) && fresh(g.sp) && fresh(g.xs)
    ensures g.cfg == cfg && g.Wired() && g.Valid() && g.Idle() && g.Burnin() && g.Snap() == st
  {
    var q, bank, cm, cs, em, csm, sigma, eta, esmu := Arrays(st);
    var tick, ms, xm, sp, xs := Threads(cfg, q, bank, cm, cs, em, csm, sigma, eta, esmu);
    g := new Gibbs(cfg, q, bank, cm, cs, em, csm, sigma, eta, esmu, tick, ms, xm, sp, xs,
                   st.es, st.shapeBeta, st.ess, st.spliceBeta, Fill(size, 0.0), Fill(wide, 0.0));
  }

  /**
   * The part of `run()` after the arrays are filled: the threads started
   * and the phases run from `st`. Sample 0 is `st` after the optimisation
   * rounds; sample i >= 1 is `burnin + i` sampling iterations after it.
   */
  method Launch(cfg: Config, st: Snapshot, size: nat, wide: nat,
                optRounds: nat, burnin: nat, numSamples: nat, nopriors: bool, threads: nat)
    returns (events: seq<Event>, ghost outputs: seq<Snapshot>)
    requires cfg.Valid() && Ready(cfg, st, size, wide)
    ensures events == Schedule(optRounds, burnin, numSamples, nopriors, threads)
    ensures |outputs| == Written(numSamples) && outputs[0] == Chain(Advance(cfg, true, true), st, optRounds)
    ensures forall i :: 1 <= i < |outputs| ==> outputs[i] == Chain(Advance(cfg, false, false), outputs[0], burnin + i)
  {
    var g := Build(cfg, st, size, wide);
    events, outputs := Drive(g, optRounds, burnin, numSamples, nopriors, threads);
  }

  // ---------------------------------------------------------------------
  // The sample registry (src/analyze.cpp:1364-1379)
  // ---------------------------------------------------------------------

  /** `names[c]` is the condition with id `c`, and every condition has its id there. */
  ghost predicate Dense(index: map<string, nat>, names: seq<string>)
  {
    && |names| == |index|
    && (forall c :: 0 <= c < |names| ==> names[c] in index && index[names[c]] == c)
    && (forall name :: name in index ==> name in names)
  }

  /**
   * Every one of the `k` samples has a condition below `|samples|` and is in
   * that condition's list; every list holds, in increasing order, only
   * samples of its own condition.
   */
  ghost predicate Listed(condition: seq<nat>, samples: seq<seq<nat>>, k: nat)
  {
    && |condition| == k
    && (forall s :: 0 <= s < k ==> condition[s] < |samples| && s in samples[condition[s]])
    && (forall c, p :: 0 <= c < |samples| && 0 <= p < |samples[c]| ==> samples[c][p] < k && condition[samples[c][p]] == c)
    && (forall c, p, p' :: 0 <= c < |samples| && 0 <= p < p' < |samples[c]| ==> samples[c][p] < samples[c][p'])
  }

  /** A registered name's id is below the number of conditions, and it is the name with that id. */
  lemma DenseId(index: map<string, nat>, names: seq<string>, name: string)
    requires Dense(index, names) && name in index
    ensures index[name] < |index| && names[index[name]] == name
  {
    var c :| 0 <= c < |names| && names[c] == name;
  }

  /** A new name takes the next id. */
  lemma DenseExtend(index: map<string, nat>, names: seq<string>, name: string)
    requires Dense(index, names) && name !in index
    ensures Dense(index[name := |index|], names + [name])
  {
    var names' := names + [name];
    forall c | 0 <= c < |names'|
      ensures names'[c] in index[name := |index|] && index[name := |index|][names'[c]] == c
    {
      if c < |names| {
        assert names'[c] == names[c] != name;
      }
    }
  }

  /**
   * Registering sample `k` with condition `c`, an existing condition or the
   * next one: the lists are grown to `c + 1` if needed and `k` goes at the
   * end of list `c`.
   */
  lemma ListedExtend(condition: seq<nat>, samples: seq<seq<nat>>, k: nat, c: nat, grown: seq<seq<nat>>)
    requires Listed(condition, samples, k) && c <= |samples|
    requires grown == if c >= |samples| then samples + seq(c + 1 - |samples|, _ => []) else samples
    ensures |grown| == if c < |samples| then |samples| else c + 1
    ensures Listed(condition + [c], grown[c := grown[c] + [k]], k + 1)
  {
    var condition', samples' := condition + [c], grown[c := grown[c] + [k]];
    forall s | 0 <= s < k + 1
      ensures condition'[s] < |samples'| && s in samples'[condition'[s]]
    {
      if s < k {
        var p :| 0 <= p < |samples[condition[s]]| && samples[condition[s]][p] == s;
        assert samples'[condition[s]][p] == s;
      } else {
        assert samples'[c][|grown[c]|] == k;
      }
    }
    forall c0, p | 0 <= c0 < |samples'| && 0 <= p < |samples'[c0]|
      ensures samples'[c0][p] < k + 1 && condition'[samples'[c0][p]] == c0
    {
      if c0 < |samples| && !(c0 == c && p == |grown[c]|) {
        assert samples'[c0][p] == samples[c0][p];
      }
    }
  }

  class Analyze {
    /** `N`, `tgroup_tids`, `spliced_tgroup_indexes` and the seeds, fixed by the constructor. */
    const n: nat
    const tgroupTids: seq<seq<nat>>
    const spliced: seq<nat>
    const rngSeed: U32
    const driverSeed: U32
    const splicePool: seq<U32>
    const transcriptPool: seq<U32>
    const burnin: nat
    const numSamples: nat
    const nopriors: bool
    /** The registry: `condition_index`, `filenames`, `condition`, `condition_samples` and `K`. */
    var conditionIndex: map<string, nat>
    var filenames: seq<string>
    var condition: seq<nat>
    var conditionSamples: seq<seq<nat>>
    var k: nat
    /** The condition names in order of first appearance. */
    ghost var names: seq<string>

    /** The transcript tables: every tgroup lists transcripts below N and the spliced tgroups exist. */
    ghost predicate Grouped()
    {
      && (forall g, m :: 0 <= g < |tgroupTids| && 0 <= m < |tgroupTids[g]| ==> tgroupTids[g][m] < n)
      && (forall j :: 0 <= j < |spliced| ==> spliced[j] < |tgroupTids|)
    }

    /**
     * The registry is consistent: condition `c` is the `c`-th name to
     * appear, so the ids are dense; every sample has a condition, and each
     * condition lists, in increasing order, exactly the samples that have it.
     */
    ghost predicate Registered()
      reads this
    {
      && |filenames| == k && |conditionSamples| == |conditionIndex|
      && Dense(conditionIndex, names) && Listed(condition, conditionSamples, k)
    }

    /** The index tables `run()` hands to the samplers, with `C` the number of conditions. */
    function Tables(): Layout
      reads this
    {
      Layout(k, |conditionIndex|, n, condition, conditionSamples, tgroupTids, spliced)
    }

    /**
     * The constructor (src/analyze.cpp:1256-1347): no sample yet; the
     * spliced tgroups and the seeds of the generators.
     */
    constructor (rngSeed: U32, burnin: nat, numSamples: nat, n: nat, tgroupTids: seq<seq<nat>>, nopriors: bool)
      requires forall g, m :: 0 <= g < |tgroupTids| && 0 <= m < |tgroupTids[g]| ==> tgroupTids[g][m] < n
      ensures Grouped() && Registered() && k == 0 && conditionIndex == map[]
      ensures this.n == n && this.tgroupTids == tgroupTids && this.rngSeed == rngSeed
      ensures this.burnin == burnin && this.numSamples == numSamples && this.nopriors == nopriors
      ensures forall j, j' :: 0 <= j < j' < |spliced| ==> spliced[j] < spliced[j']
      ensures forall g :: 0 <= g < |tgroupTids| ==> (g in spliced <==> |tgroupTids[g]| > 1)
      ensures driverSeed == rngSeed
      ensures |splicePool| == |spliced| && forall i :: 0 <= i < |spliced| ==> splicePool[i] == (rngSeed + i) % Mod32
      ensures |transcriptPool| == n && forall t :: 0 <= t < n ==> transcriptPool[t] == (rngSeed + |spliced| + t) % Mod32
    {
      var s := SplicedTgroupIndexes(tgroupTids);
      var driver, splicePool, transcriptPool := SeedPools(rngSeed, |s|, n);
      this.n := n;
      this.tgroupTids := tgroupTids;
      this.spliced := s;
      this.rngSeed := rngSeed;
      this.driverSeed := driver;
      this.splicePool := splicePool;
      this.transcriptPool := transcriptPool;
      this.burnin := burnin;
      this.numSamples := numSamples;
      this.nopriors := nopriors;
      conditionIndex := map[];
      filenames := [];
      condition := [];
      conditionSamples := [];
      k := 0;
      names := [];
    }

    /**
     * `add_sample` (src/analyze.cpp:1364-1379): a new condition name takes
     * the next id; the sample is appended with that condition and becomes
     * the last sample of its condition.
     */
    method AddSample(name: string, file: string)
      requires Registered()
      modifies this
      ensures Registered()
      ensures old(name in conditionIndex) ==> conditionIndex == old(conditionIndex) && names == old(names)
      ensures old(name !in conditionIndex) ==>
        conditionIndex == old(conditionIndex)[name := old(|conditionIndex|)] && names == old(names) + [name]
      ensures filenames == old(filenames) + [file] && k == old(k) + 1
      ensures condition == old(condition) + [conditionIndex[name]]
      ensures forall c :: 0 <= c < |conditionSamples| ==>
        conditionSamples[c] == (if c < old(|conditionSamples|) then old(conditionSamples[c]) else [])
                               + (if c == conditionIndex[name] then [old(k)] else [])
    {
      var c: nat;
      if name in conditionIndex {
        c := conditionIndex[name];
      } else {
        c := |conditionIndex|;
        DenseExtend(conditionIndex, names, name);
        conditionIndex := conditionIndex[name := c];
        names := names + [name];
      }
      DenseId(conditionIndex, names, name);
      var samples := conditionSamples;
      if c >= |conditionSamples| {
        samples := conditionSamples + seq(c + 1 - |conditionSamples|, _ => []);
      }
      ListedExtend(condition, conditionSamples, k, c, samples);
      filenames := filenames + [file];
      condition := condition + [c];
      conditionSamples := samples[c := samples[c] + [k]];
      k := k + 1;
    }

    /**
     * `run()` (src/analyze.cpp:1877-2111): the arrays sized and given their
     * initial values; with `dryrun` nothing more; otherwise the phases of
     * the run, which write `max(1, num_samples)` samples.
     */
    method Run(d: Draw, qd: QuantDraw, q0: seq<seq<real>>, hp0: seq<Hyper>, zeroEps: real, minSigma: real,
               experimentShape: real, optRounds: nat, threads: nat, dryrun: bool)
      returns (events: seq<Event>, cfg: Config, start: Snapshot, ghost outputs: seq<Snapshot>)
      requires Grouped() && Registered()
      requires Rect(q0, k, n) && HypersSized(hp0, k, n)
      ensures cfg == Config(Tables(), d, qd, Fill(k, 1.0), minSigma, experimentShape) && cfg.Valid()
      ensures Starting(cfg, start, q0, hp0, zeroEps)
      ensures dryrun ==> events == [] && outputs == []
      ensures !dryrun ==> events == Schedule(optRounds, burnin, numSamples, nopriors, threads)
      ensures !dryrun ==> |outputs| == Written(numSamples) && outputs[0] == Chain(Advance(cfg, true, true), start, optRounds)
      ensures !dryrun ==> forall i :: 1 <= i < |outputs| ==> outputs[i] == Chain(Advance(cfg, false, false), outputs[0], burnin + i)
    {
      cfg := Config(Tables(), d, qd, Fill(k, 1.0), minSigma, experimentShape);
      var size, wide;
      start, size, wide := InitialValues(cfg, q0, hp0, zeroEps);
      if dryrun {
        events, outputs := [], [];
        return;
      }
      events, outputs := Launch(cfg, start, size, wide, optRounds, burnin, numSamples, nopriors, threads);
    }
  }

  /** A strictly increasing list holds each of its entries once. */
  lemma {:induction false} IncreasingOnce(xs: seq<nat>, x: nat)
    requires forall p, p' :: 0 <= p < p' < |xs| ==> xs[p] < xs[p']
    ensures multiset(xs)[x] == if x in xs then 1 else 0
  {
    if xs != [] {
      assert xs == [xs[0]] + xs[1..];
      IncreasingOnce(xs[1..], x);
      if x == xs[0] {
        assert x !in xs[1..];
      }
    }
  }

  /**
   * Condition ids are dense and distinct, and every registered sample is
   * listed exactly once, by its own condition and by no other.
   */
  lemma SampleListedOnce(a: Analyze, s: nat)
    requires a.Registered() && s < a.k
    ensures forall name :: name in a.conditionIndex ==> a.conditionIndex[name] < |a.conditionIndex|
    ensures forall x, y :: x in a.conditionIndex && y in a.conditionIndex && x != y ==> a.conditionIndex[x] != a.conditionIndex[y]
    ensures forall c :: 0 <= c < |a.conditionSamples| ==> (s in a.conditionSamples[c] <==> c == a.condition[s])
    ensures multiset(a.conditionSamples[a.condition[s]])[s] == 1
  {
    forall name | name in a.conditionIndex
      ensures a.conditionIndex[name] < |a.conditionIndex| && a.names[a.conditionIndex[name]] == name
    {
      var c :| 0 <= c < |a.names| && a.names[c] == name;
    }
    forall c | 0 <= c < |a.conditionSamples| && s in a.conditionSamples[c]
      ensures c == a.condition[s]
    {
      var p :| 0 <= p < |a.conditionSamples[c]| && a.conditionSamples[c][p] == s;
    }
    IncreasingOnce(a.conditionSamples[a.condition[s]], s);
  }
}
