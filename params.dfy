/**
 * The parameters the Gibbs sampler of src/analyze.cpp updates, the index
 * tables that say which samples and transcripts they belong to, and the
 * per-unit updates the worker threads apply.
 *
 * Every `float`/`double` is a `real`. Every parameter sampler (slice
 * samplers over log densities, src/analyze.cpp:32-581) is an opaque
 * function: it returns some value computed from the arguments the source
 * passes it, with the unit index standing for the random number generator of
 * that unit. Hyperparameters that stay constant for the whole run are part of
 * the opaque function; the ones the driver re-samples every iteration are
 * passed explicitly.
 */
module Params {

  /** A dense matrix (`matrix<float>`) or a ragged array of rows (`vector<vector<float>>`). */
  class Matrix {
    var rows: seq<seq<real>>

    constructor (rows0: seq<seq<real>>)
      ensures rows == rows0
    {
      rows := rows0;
    }
  }

  /** A `vector<float>`. */
  class Vec {
    var cells: seq<real>

    constructor (cells0: seq<real>)
      ensures cells == cells0
    {
      cells := cells0;
    }
  }

  /** `condition_splice_mu`, held tgroup-major: spliced tgroup, then condition, then transcript within the tgroup. */
  class Cube {
    var cells: seq<seq<seq<real>>>

    constructor (cells0: seq<seq<seq<real>>>)
      ensures cells == cells0
    {
      cells := cells0;
    }
  }

  /**
   * The index tables of `Analyze`: `k` samples, `c` conditions, `n`
   * transcripts; the condition of each sample, the samples of each
   * condition, the transcripts of each tgroup and the spliced tgroups.
   */
  datatype Layout = Layout(
    k: nat, c: nat, n: nat,
    condition: seq<nat>,
    conditionSamples: seq<seq<nat>>,
    tgroupTids: seq<seq<nat>>,
    spliced: seq<nat>)
  {
    ghost predicate Valid()
    {
      && |condition| == k
      && (forall s :: 0 <= s < k ==> condition[s] < c)
      && |conditionSamples| == c
      && (forall i, l :: 0 <= i < c && 0 <= l < |conditionSamples[i]| ==> conditionSamples[i][l] < k)
      && (forall g, m :: 0 <= g < |tgroupTids| && 0 <= m < |tgroupTids[g]| ==> tgroupTids[g][m] < n)
      && (forall j :: 0 <= j < |spliced| ==> spliced[j] < |tgroupTids|)
    }

    /** The number of spliced tgroups. */
    function S(): nat
    {
      |spliced|
    }

    /** The transcripts of spliced tgroup `j`. */
    function Tids(j: nat): seq<nat>
      requires j < |spliced| && spliced[j] < |tgroupTids|
    {
      tgroupTids[spliced[j]]
    }
  }

  /** The hyperparameters a quantification sampler reads (`Sampler::hp`). */
  datatype Hyper = Hyper(scale: real, mean: seq<real>, shape: seq<real>, spliceMu: seq<real>, spliceSigma: seq<real>)

  /** The hyperparameters of each quantification sampler (`qsamplers[i]->hp`). */
  class SamplerBank {
    var hp: seq<Hyper>

    constructor (hp0: seq<Hyper>)
      ensures hp == hp0
    {
      hp := hp0;
    }
  }

  /**
   * One call of a parameter sampler, with the arguments the source passes it
   * that change during a run; the unit index stands for the unit's random
   * number generator.
   */
  datatype Call =
      // GammaMeanSampler for condition_mean(i, tid): tid, current value, shape, xs, experiment mean, experiment shape
    | ConditionMeanCall(nat, real, real, seq<real>, real, real)
      // GammaShapeSampler for condition_shape[tid]: tid, xs_mu, current value, xs, condition_shape_beta
    | ConditionShapeCall(nat, seq<real>, real, seq<real>, real)
      // GammaMeanSampler for experiment_mean[tid]: tid, current value, experiment shape, condition means
    | ExperimentMeanCall(nat, real, real, seq<real>)
      // ConditionSpliceEtaSampler: j, current eta, unadj_mu, unadj_sigma, data column, sample_mu,
      // experiment splice mu, experiment splice sigma, condition_splice_beta
    | SpliceEtaCall(nat, real, seq<real>, real, seq<real>, seq<real>, real, real, real)
      // NormalTMuSampler: j, current mu, sigma, data, experiment splice mu, experiment splice sigma
    | SpliceMuCall(nat, real, real, seq<real>, real, real)
      // GammaNormalSigmaSampler: j, current sigma, residuals, condition_splice_beta
    | SpliceSigmaCall(nat, real, seq<real>, real)
      // StudentTMuSampler for experiment_splice_mu[j][k]: j, current value, experiment splice sigma, condition values
    | ExperimentSpliceMuCall(nat, real, real, seq<real>)
      // the driver's own draws, each from its current value and its data:
      // condition_shape_beta, condition_splice_beta, experiment_splice_sigma
    | ShapeBetaCall(real, seq<real>)
    | SpliceBetaCall(real, seq<real>)
    | ExperimentSpliceSigmaCall(real, seq<real>)

  /** The parameter samplers: the value each call returns. */
  type Draw = Call -> real

  /**
   * `Sampler::sample` (false) or `Sampler::optimize` (true) of quantification
   * sampler i under its hyperparameters, then `Sampler::state`.
   */
  type QuantDraw = (nat, bool, Hyper) -> seq<real>

  function Abs(x: real): real
  {
    if x < 0.0 then -x else x
  }

  function Max(a: real, b: real): (r: real)
    ensures r >= a && r >= b && (r == a || r == b)
  {
    if a < b then b else a
  }

  /** Division; a zero divisor, where IEEE arithmetic gives an infinity or NaN, gives 0 here. */
  function Div(x: real, y: real): real
  {
    if y == 0.0 then 0.0 else x / y
  }

  function Sum(xs: seq<real>): real
  {
    if xs == [] then 0.0 else Sum(xs[..|xs| - 1]) + xs[|xs| - 1]
  }

  /** The entries of `v` at the positions `idx`, in that order. */
  function Pick(v: seq<real>, idx: seq<nat>): (r: seq<real>)
    requires forall l :: 0 <= l < |idx| ==> idx[l] < |v|
    ensures |r| == |idx| && forall l :: 0 <= l < |idx| ==> r[l] == v[idx[l]]
  {
    seq(|idx|, l requires 0 <= l < |idx| => v[idx[l]])
  }

  /** Column `t` of a matrix given by rows. */
  function Column(m: seq<seq<real>>, t: nat): (r: seq<real>)
    requires forall i :: 0 <= i < |m| ==> t < |m[i]|
    ensures |r| == |m| && forall i :: 0 <= i < |m| ==> r[i] == m[i][t]
  {
    seq(|m|, i requires 0 <= i < |m| => m[i][t])
  }

  /** Every row of `m` has `width` entries. */
  ghost predicate Rect(m: seq<seq<real>>, height: nat, width: nat)
  {
    |m| == height && forall i :: 0 <= i < |m| ==> |m[i]| == width
  }

  // ---------------------------------------------------------------------
  // ConditionMeanShapeSamplerThread: one transcript (src/analyze.cpp:982-1017)
  // ---------------------------------------------------------------------

  /** The means of every condition at one transcript (a column of `condition_mean`) and its shape. */
  datatype TranscriptView = TranscriptView(means: seq<real>, shape: real)

  /**
   * The new column of condition means and the new shape of transcript `t`:
   * each condition's mean is drawn from that condition's samples of the
   * transcript; the shape is then forced to 1.0 during burn-in and drawn
   * against the new means of each sample's condition otherwise.
   */
  function MeanShapeStep(l: Layout, d: Draw, t: nat, v: TranscriptView, qcol: seq<real>,
                         em: real, es: real, shapeBeta: real, burnin: bool): (r: TranscriptView)
    requires l.Valid() && |v.means| == l.c && |qcol| == l.k
    ensures |r.means| == l.c
    ensures burnin ==> r.shape == 1.0
  {
    var means := seq(l.c, i requires 0 <= i < l.c =>
      d(ConditionMeanCall(t, v.means[i], v.shape, Pick(qcol, l.conditionSamples[i]), em, es)));
    var xsMu := seq(l.k, s requires 0 <= s < l.k => means[l.condition[s]]);
    TranscriptView(means, if burnin then 1.0 else d(ConditionShapeCall(t, xsMu, v.shape, qcol, shapeBeta)))
  }

  // ---------------------------------------------------------------------
  // ConditionSpliceMuSigmaEtaSamplerThread: one spliced tgroup (src/analyze.cpp:657-765)
  // ---------------------------------------------------------------------

  /** Sample `i`'s quantities of the tgroup's transcripts as proportions of their sum (`dataj`). */
  function Proportions(qrow: seq<real>, tids: seq<nat>): (r: seq<real>)
    requires forall m :: 0 <= m < |tids| ==> tids[m] < |qrow|
    ensures |r| == |tids|
  {
    var picked := Pick(qrow, tids);
    seq(|tids|, m requires 0 <= m < |tids| => Div(picked[m], Sum(picked)))
  }

  function DataJ(q: seq<seq<real>>, tids: seq<nat>): (r: seq<seq<real>>)
    requires forall i, m :: 0 <= i < |q| && 0 <= m < |tids| ==> tids[m] < |q[i]|
    ensures Rect(r, |q|, |tids|)
  {
    seq(|q|, i requires 0 <= i < |q| => Proportions(q[i], tids))
  }

  /**
   * One spliced tgroup's parameters: `mu[i][m]` of condition `i` and the
   * tgroup's m-th transcript, `sigma[m]` and `eta[m]`.
   */
  datatype SpliceView = SpliceView(mu: seq<seq<real>>, sigma: seq<real>, eta: seq<real>)

  ghost predicate SpliceShaped(v: SpliceView, c: nat, size: nat)
  {
    Rect(v.mu, c, size) && |v.sigma| == size && |v.eta| == size
  }

  /**
   * The splice parameters have the shapes of the layout: for spliced tgroup
   * `j` of size `z`, `mu[j]` is condition by `z`, and `sigma[j]` and `eta[j]`
   * have `z` entries.
   */
  ghost predicate SpliceShapes(l: Layout, mu: seq<seq<seq<real>>>, sigma: seq<seq<real>>, eta: seq<seq<real>>)
    requires l.Valid()
  {
    && |mu| == l.S() && |sigma| == l.S() && |eta| == l.S()
    && forall j :: 0 <= j < l.S() ==> SpliceShaped(SpliceView(mu[j], sigma[j], eta[j]), l.c, |l.Tids(j)|)
  }

  /** `experiment_splice_mu` has one entry per transcript of each spliced tgroup. */
  ghost predicate EsmuShaped(l: Layout, esmu: seq<seq<real>>)
    requires l.Valid()
  {
    |esmu| == l.S() && forall j :: 0 <= j < l.S() ==> |esmu[j]| == |l.Tids(j)|
  }

  /** `condition_splice_mu`, held tgroup by tgroup, has the shapes of the layout. */
  ghost predicate CsmShaped(l: Layout, mu: seq<seq<seq<real>>>)
    requires l.Valid()
  {
    |mu| == l.S() && forall j :: 0 <= j < l.S() ==> Rect(mu[j], l.c, |l.Tids(j)|)
  }

  /** The mean of each condition's proportions of the m-th transcript (`sample_mu`). */
  function SampleMu(l: Layout, col: seq<real>): (r: seq<real>)
    requires l.Valid() && |col| == l.k
    ensures |r| == l.c
  {
    seq(l.c, i requires 0 <= i < l.c =>
      Div(Sum(Pick(col, l.conditionSamples[i])), |l.conditionSamples[i]| as real))
  }

  /**
   * The eta update of transcript `m` (src/analyze.cpp:674-715): mu and sigma
   * are unscaled by eta, a new eta is drawn, mu and sigma are rescaled by it,
   * and eta goes back to 1.0. Gives the new mu of every condition and the new sigma.
   */
  function EtaUpdate(l: Layout, d: Draw, j: nat, v: SpliceView, m: nat, col: seq<real>,
                     esmu: real, ess: real, spliceBeta: real): (r: (seq<real>, real))
    requires l.Valid() && SpliceShaped(v, l.c, |v.sigma|) && m < |v.sigma| && |col| == l.k
    ensures |r.0| == l.c
  {
    var unadjSigma := Div(v.sigma[m], Abs(v.eta[m]));
    var sampleMu := SampleMu(l, col);
    var unadjMu := seq(l.c, i requires 0 <= i < l.c => Div(v.mu[i][m] - sampleMu[i], v.eta[m]));
    var eta := d(SpliceEtaCall(j, v.eta[m], unadjMu, unadjSigma, col, sampleMu, esmu, ess, spliceBeta));
    (seq(l.c, i requires 0 <= i < l.c => unadjMu[i] * eta + sampleMu[i]), unadjSigma * Abs(eta))
  }

  /**
   * The eta pass over the tgroup's transcripts: each transcript's mu and sigma
   * after its eta update, and every eta back at 1.0.
   */
  function EtaPass(l: Layout, d: Draw, j: nat, v: SpliceView, dataj: seq<seq<real>>,
                   esmu: seq<real>, ess: real, spliceBeta: real): (r: SpliceView)
    requires l.Valid() && SpliceShaped(v, l.c, |v.sigma|)
    requires Rect(dataj, l.k, |v.sigma|) && |esmu| == |v.sigma|
    ensures SpliceShaped(r, l.c, |v.sigma|)
    ensures forall m :: 0 <= m < |r.eta| ==> r.eta[m] == 1.0
  {
    var size := |v.sigma|;
    var step := seq(size, m requires 0 <= m < size =>
      EtaUpdate(l, d, j, v, m, Column(dataj, m), esmu[m], ess, spliceBeta));
    SpliceView(
      seq(l.c, i requires 0 <= i < l.c => seq(size, m requires 0 <= m < size => step[m].0[i])),
      seq(size, m requires 0 <= m < size => step[m].1),
      seq(size, _ => 1.0))
  }

  /** The mu pass (src/analyze.cpp:718-735): each condition's mu drawn from that condition's proportions. */
  function MuPass(l: Layout, d: Draw, j: nat, v: SpliceView, dataj: seq<seq<real>>,
                  esmu: seq<real>, ess: real): (r: SpliceView)
    requires l.Valid() && SpliceShaped(v, l.c, |v.sigma|)
    requires Rect(dataj, l.k, |v.sigma|) && |esmu| == |v.sigma|
    ensures SpliceShaped(r, l.c, |v.sigma|) && r.sigma == v.sigma && r.eta == v.eta
  {
    var size := |v.sigma|;
    v.(mu := seq(l.c, i requires 0 <= i < l.c => seq(size, m requires 0 <= m < size =>
      d(SpliceMuCall(j, v.mu[i][m], v.sigma[m], Pick(Column(dataj, m), l.conditionSamples[i]), esmu[m], ess)))))
  }

  /**
   * The new sigma of the tgroup's m-th transcript (src/analyze.cpp:738-764):
   * 1.0 during burn-in, otherwise the sigma drawn from the residuals against
   * each sample's condition mu, floored at `minSigma`.
   */
  function SigmaUpdate(l: Layout, d: Draw, j: nat, v: SpliceView, dataj: seq<seq<real>>, m: nat,
                       spliceBeta: real, minSigma: real, burnin: bool): (r: real)
    requires l.Valid() && SpliceShaped(v, l.c, |v.sigma|)
    requires Rect(dataj, l.k, |v.sigma|) && m < |v.sigma|
    ensures burnin ==> r == 1.0
    ensures !burnin ==> r >= minSigma
  {
    if burnin then 1.0
    else Max(minSigma, d(SpliceSigmaCall(j, v.sigma[m],
           seq(l.k, s requires 0 <= s < l.k => dataj[s][m] - v.mu[l.condition[s]][m]), spliceBeta)))
  }

  /** The sigma pass over the tgroup's transcripts. */
  function SigmaPass(l: Layout, d: Draw, j: nat, v: SpliceView, dataj: seq<seq<real>>,
                     spliceBeta: real, minSigma: real, burnin: bool): (r: SpliceView)
    requires l.Valid() && SpliceShaped(v, l.c, |v.sigma|)
    requires Rect(dataj, l.k, |v.sigma|)
    ensures SpliceShaped(r, l.c, |v.sigma|) && r.mu == v.mu && r.eta == v.eta
    ensures burnin ==> forall m :: 0 <= m < |r.sigma| ==> r.sigma[m] == 1.0
    ensures !burnin ==> forall m :: 0 <= m < |r.sigma| ==> r.sigma[m] >= minSigma
  {
    var size := |v.sigma|;
    v.(sigma := seq(size, m requires 0 <= m < size =>
      SigmaUpdate(l, d, j, v, dataj, m, spliceBeta, minSigma, burnin)))
  }

  /** The new parameters of spliced tgroup `j`: the eta pass, then the mu pass, then the sigma pass. */
  function SpliceStep(l: Layout, d: Draw, j: nat, v: SpliceView, dataj: seq<seq<real>>,
                      esmu: seq<real>, ess: real, spliceBeta: real, minSigma: real, burnin: bool): (r: SpliceView)
    requires l.Valid() && SpliceShaped(v, l.c, |v.sigma|)
    requires Rect(dataj, l.k, |v.sigma|) && |esmu| == |v.sigma|
    ensures SpliceShaped(r, l.c, |v.sigma|)
  {
    var v1 := EtaPass(l, d, j, v, dataj, esmu, ess, spliceBeta);
    var v2 := MuPass(l, d, j, v1, dataj, esmu, ess);
    SigmaPass(l, d, j, v2, dataj, spliceBeta, minSigma, burnin)
  }

  /**
   * After a tgroup's update every eta is back at 1.0, and every sigma is
   * 1.0 during burn-in and at least `minSigma` after it.
   */
  lemma SpliceStepResets(l: Layout, d: Draw, j: nat, v: SpliceView, dataj: seq<seq<real>>,
                         esmu: seq<real>, ess: real, spliceBeta: real, minSigma: real, burnin: bool)
    requires l.Valid() && SpliceShaped(v, l.c, |v.sigma|)
    requires Rect(dataj, l.k, |v.sigma|) && |esmu| == |v.sigma|
    ensures var r := SpliceStep(l, d, j, v, dataj, esmu, ess, spliceBeta, minSigma, burnin);
      && (forall m :: 0 <= m < |r.eta| ==> r.eta[m] == 1.0)
      && (burnin ==> forall m :: 0 <= m < |r.sigma| ==> r.sigma[m] == 1.0)
      && (!burnin ==> forall m :: 0 <= m < |r.sigma| ==> r.sigma[m] >= minSigma)
  {
    var v1 := EtaPass(l, d, j, v, dataj, esmu, ess, spliceBeta);
    var v2 := MuPass(l, d, j, v1, dataj, esmu, ess);
    assert forall m :: 0 <= m < |v2.eta| ==> v2.eta[m] == 1.0;
  }
}
