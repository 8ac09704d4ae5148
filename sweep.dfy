/**
 * One iteration of the Gibbs sampler (`Analyze::sample`,
 * src/analyze.cpp:2114-2229) as a function of the parameters before it:
 * the quantification samplers' hyperparameters are updated and every
 * sampler is run, the driver draws its three scalars, then the condition
 * level and finally the experiment level are re-drawn unit by unit.
 */
module Sweep {
  import opened Dispatch
  import opened Params
  import opened Workers
  import opened Scatter
  import opened Flatten

  /**
   * What stays fixed during a run: the layout, the parameter samplers, the
   * quantification samplers, the per-sample scale (`compute_scaling` is not
   * part of this model, so it keeps the value `run()` gives it), the floor
   * on splice sigma (`analyze_min_splice_sigma`) and the experiment shape
   * that every iteration sets (`analyze_experiment_shape`).
   */
  datatype Config = Config(l: Layout, d: Draw, qd: QuantDraw, scale: seq<real>, minSigma: real, experimentShape: real)
  {
    ghost predicate Valid()
    {
      l.Valid() && |scale| == l.k
    }
  }

  /** Every parameter of the sampler, `condition_mean` and `condition_splice_mu` held as in `Workers`. */
  datatype Snapshot = Snapshot(
    q: seq<seq<real>>, hp: seq<Hyper>,
    cm: seq<seq<real>>, cs: seq<real>, em: seq<real>,
    csm: seq<seq<seq<real>>>, sigma: seq<seq<real>>, eta: seq<seq<real>>, esmu: seq<seq<real>>,
    es: real, shapeBeta: real, ess: real, spliceBeta: real)

  /** The parameter arrays have the sizes of the layout. */
  ghost predicate ShapedParts(cfg: Config, q: seq<seq<real>>, hp: seq<Hyper>, cm: seq<seq<real>>, cs: seq<real>, em: seq<real>,
                              csm: seq<seq<seq<real>>>, sigma: seq<seq<real>>, eta: seq<seq<real>>, esmu: seq<seq<real>>)
    requires cfg.Valid()
  {
    var l := cfg.l;
    && Rect(q, l.k, l.n) && HypersSized(hp, l.k, l.n)
    && Rect(cm, l.n, l.c) && |cs| == l.n && |em| == l.n
    && SpliceShapes(l, csm, sigma, eta) && EsmuShaped(l, esmu)
  }

  /** The parameters have the sizes of the layout. */
  ghost predicate Shaped(cfg: Config, st: Snapshot)
    requires cfg.Valid()
  {
    ShapedParts(cfg, st.q, st.hp, st.cm, st.cs, st.em, st.csm, st.sigma, st.eta, st.esmu)
  }

  /**
   * The parameters have the shapes of the layout and the two work vectors
   * the sizes `run()` gives them (src/analyze.cpp:1899-1913).
   */
  ghost predicate Ready(cfg: Config, st: Snapshot, sigmaWork: nat, residualWork: nat)
    requires cfg.Valid()
  {
    && Shaped(cfg, st)
    && sigmaWork == FlattenedSize(cfg.l, cfg.l.S())
    && residualWork == cfg.l.c * FlattenedSize(cfg.l, cfg.l.S())
  }

  /** The splice shapes give the shapes the hyperparameter scatter and the flattening need. */
  lemma ShapesGiveInputs(l: Layout, mu: seq<seq<seq<real>>>, sigma: seq<seq<real>>, eta: seq<seq<real>>)
    requires l.Valid() && SpliceShapes(l, mu, sigma, eta)
    ensures CsmShaped(l, mu) && SpliceInputs(l, mu, sigma)
  {
    forall j | 0 <= j < l.S()
      ensures Rect(mu[j], l.c, |l.Tids(j)|) && |sigma[j]| == |l.Tids(j)|
    {
      assert SpliceShaped(SpliceView(mu[j], sigma[j], eta[j]), l.c, |l.Tids(j)|);
    }
  }

  /** `qsampler_update_hyperparameters`: every sampler's hyperparameters from the condition-level parameters. */
  ghost function Hyperparameters(cfg: Config, st: Snapshot): (r: Snapshot)
    requires cfg.Valid() && Shaped(cfg, st)
    ensures Shaped(cfg, r)
  {
    ShapesGiveInputs(cfg.l, st.csm, st.sigma, st.eta);
    st.(hp := Hypers(cfg.l, cfg.scale, st.cm, st.cs, st.csm, st.sigma))
  }

  /**
   * The driver's own draws: `condition_shape_beta` from the shapes,
   * `condition_splice_beta` from the flattened splice sigmas,
   * `experiment_splice_sigma` from the flattened deviations of the
   * condition splice means from the experiment ones, and the constant
   * experiment shape.
   */
  ghost function Draws(cfg: Config, st: Snapshot): (r: Snapshot)
    requires cfg.Valid() && Shaped(cfg, st)
    ensures Shaped(cfg, r)
  {
    ShapesGiveInputs(cfg.l, st.csm, st.sigma, st.eta);
    st.(shapeBeta := cfg.d(ShapeBetaCall(st.shapeBeta, st.cs)),
        spliceBeta := cfg.d(SpliceBetaCall(st.spliceBeta, Flatten.Flatten(st.sigma))),
        ess := cfg.d(ExperimentSpliceSigmaCall(st.ess, Residuals(cfg.l, st.csm, st.esmu))),
        es := cfg.experimentShape)
  }

  /** Every quantification sampler runs (optimises when `optimize`) and its state is copied into its row of Q. */
  ghost function Ticks(cfg: Config, st: Snapshot, optimize: bool): (r: Snapshot)
    requires cfg.Valid() && Shaped(cfg, st)
    ensures Shaped(cfg, r)
  {
    st.(q := TickTargets(cfg.qd, st.q, st.hp, optimize))
  }

  /** The condition level: every transcript's means and shape, every spliced tgroup's mu, sigma and eta. */
  ghost function ConditionLevel(cfg: Config, st: Snapshot, burnin: bool): (r: Snapshot)
    requires cfg.Valid() && Shaped(cfg, st)
    ensures Shaped(cfg, r)
  {
    var l, d := cfg.l, cfg.d;
    var ms := MeanShapeTargets(l, d, st.cm, st.cs, st.q, st.em, st.es, st.shapeBeta, burnin);
    var sp := SpliceTargets(l, d, st.csm, st.sigma, st.eta, st.q, st.esmu, st.ess, st.spliceBeta, cfg.minSigma, burnin);
    assert SpliceShapes(l, Mus(sp), Sigmas(sp), Etas(sp)) by {
      forall j | 0 <= j < l.S()
        ensures SpliceShaped(SpliceView(Mus(sp)[j], Sigmas(sp)[j], Etas(sp)[j]), l.c, |l.Tids(j)|)
      {
        assert sp[j] == SpliceView(Mus(sp)[j], Sigmas(sp)[j], Etas(sp)[j]);
      }
    }
    st.(cm := Means(ms), cs := Shapes(ms), csm := Mus(sp), sigma := Sigmas(sp), eta := Etas(sp))
  }

  /** The experiment level: every experiment mean and every experiment splice mean, from the new condition level. */
  ghost function ExperimentLevel(cfg: Config, st: Snapshot): (r: Snapshot)
    requires cfg.Valid() && Shaped(cfg, st)
    ensures Shaped(cfg, r)
  {
    ShapesGiveInputs(cfg.l, st.csm, st.sigma, st.eta);
    st.(em := ExperimentMeanTargets(cfg.d, st.em, st.cm, st.es),
        esmu := ExperimentSpliceTargets(cfg.l, cfg.d, st.esmu, st.csm, st.ess))
  }

  /**
   * The parameters after one iteration with the samplers optimising
   * (`optimize`) or sampling, and the burn-in flag of the condition-level
   * threads at `burnin`: the stages in the order `sample()` runs them.
   */
  ghost function Iterate(cfg: Config, st: Snapshot, optimize: bool, burnin: bool): (r: Snapshot)
    requires cfg.Valid() && Shaped(cfg, st)
    ensures Shaped(cfg, r)
  {
    ExperimentLevel(cfg, ConditionLevel(cfg, Ticks(cfg, Draws(cfg, Hyperparameters(cfg, st)), optimize), burnin))
  }

  /**
   * After any iteration every `condition_splice_eta` is 1.0; while the
   * burn-in flag is set every `condition_shape` and every
   * `condition_splice_sigma` is 1.0, and otherwise every splice sigma is at
   * least the floor.
   */
  lemma IterateResets(cfg: Config, st: Snapshot, optimize: bool, burnin: bool)
    requires cfg.Valid() && Shaped(cfg, st)
    ensures var r := Iterate(cfg, st, optimize, burnin);
      && (forall j, k :: 0 <= j < |r.eta| && 0 <= k < |r.eta[j]| ==> r.eta[j][k] == 1.0)
      && (burnin ==> forall t :: 0 <= t < |r.cs| ==> r.cs[t] == 1.0)
      && (burnin ==> forall j, k :: 0 <= j < |r.sigma| && 0 <= k < |r.sigma[j]| ==> r.sigma[j][k] == 1.0)
      && (!burnin ==> forall j, k :: 0 <= j < |r.sigma| && 0 <= k < |r.sigma[j]| ==> r.sigma[j][k] >= cfg.minSigma)
  {
    var l, d := cfg.l, cfg.d;
    var pre := Ticks(cfg, Draws(cfg, Hyperparameters(cfg, st)), optimize);
    var sp := SpliceTargets(l, d, pre.csm, pre.sigma, pre.eta, pre.q, pre.esmu, pre.ess, pre.spliceBeta, cfg.minSigma, burnin);
    var r := Iterate(cfg, st, optimize, burnin);
    assert r.eta == Etas(sp) && r.sigma == Sigmas(sp);
    forall j | 0 <= j < l.S()
      ensures (forall k :: 0 <= k < |r.eta[j]| ==> r.eta[j][k] == 1.0)
      ensures burnin ==> forall k :: 0 <= k < |r.sigma[j]| ==> r.sigma[j][k] == 1.0
      ensures !burnin ==> forall k :: 0 <= k < |r.sigma[j]| ==> r.sigma[j][k] >= cfg.minSigma
    {
      assert SpliceShaped(GroupView(pre.csm, pre.sigma, pre.eta, j), l.c, |l.Tids(j)|);
      assert SpliceTargetAt(l, d, sp, j, pre.csm, pre.sigma, pre.eta, pre.q, pre.esmu, pre.ess, pre.spliceBeta, cfg.minSigma, burnin);
      SpliceStepResets(l, d, j, GroupView(pre.csm, pre.sigma, pre.eta, j), DataJ(pre.q, l.Tids(j)), pre.esmu[j],
                       pre.ess, pre.spliceBeta, cfg.minSigma, burnin);
    }
  }
}
