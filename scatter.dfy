/**
 * `qsampler_update_hyperparameters` (src/analyze.cpp:1847-1874): before each
 * sweep the driver copies the condition-level parameters into the
 * hyperparameters of every quantification sampler. The splicing
 * hyperparameters are per transcript: they are first filled with the
 * defaults 0.0 (mu) and 0.1 (sigma) and then, tgroup by tgroup, the
 * transcripts of each spliced tgroup are overwritten with that tgroup's values.
 */
module Scatter {
  import opened Params

  /** A vector of `n` copies of `x` (`std::fill`). */
  function Fill(n: nat, x: real): (r: seq<real>)
    ensures |r| == n && forall t :: 0 <= t < n ==> r[t] == x
  {
    seq(n, _ => x)
  }

  /** Every transcript index of the tgroups is below `n`. */
  ghost predicate TidsBelow(tids: seq<nat>, n: nat)
  {
    forall m :: 0 <= m < |tids| ==> tids[m] < n
  }

  /** `v` after `v[tids[m]] = vals[m]` for m = 0, 1, ... in order. */
  function ScatterGroup(v: seq<real>, tids: seq<nat>, vals: seq<real>): (r: seq<real>)
    requires |tids| == |vals| && TidsBelow(tids, |v|)
    ensures |r| == |v|
    decreases |tids|
  {
    if tids == [] then v
    else ScatterGroup(v, tids[..|tids| - 1], vals[..|vals| - 1])[tids[|tids| - 1] := vals[|vals| - 1]]
  }

  /** The per-tgroup values have one entry per transcript of each of the first `j` spliced tgroups. */
  ghost predicate GroupValues(l: Layout, vals: seq<seq<real>>, j: nat)
    requires l.Valid()
  {
    j <= l.S() && |vals| >= j && forall g :: 0 <= g < j ==> |vals[g]| == |l.Tids(g)|
  }

  /** `v` after scattering the values of spliced tgroups 0, 1, ..., j - 1 in order. */
  function ScatterGroups(v: seq<real>, l: Layout, vals: seq<seq<real>>, j: nat): (r: seq<real>)
    requires l.Valid() && |v| == l.n && GroupValues(l, vals, j)
    ensures |r| == |v|
  {
    if j == 0 then v
    else ScatterGroup(ScatterGroups(v, l, vals, j - 1), l.Tids(j - 1), vals[j - 1])
  }

  /** A transcript outside the group keeps its value. */
  lemma {:induction false} ScatterGroupMiss(v: seq<real>, tids: seq<nat>, vals: seq<real>, t: nat)
    requires |tids| == |vals| && TidsBelow(tids, |v|) && t < |v| && t !in tids
    ensures ScatterGroup(v, tids, vals)[t] == v[t]
    decreases |tids|
  {
    if tids != [] {
      assert tids[..|tids| - 1] <= tids;
      ScatterGroupMiss(v, tids[..|tids| - 1], vals[..|vals| - 1], t);
    }
  }

  /** The m-th transcript of a group whose transcripts are distinct takes the m-th value. */
  lemma {:induction false} ScatterGroupHit(v: seq<real>, tids: seq<nat>, vals: seq<real>, m: nat)
    requires |tids| == |vals| && TidsBelow(tids, |v|) && m < |tids|
    requires forall p, p' :: 0 <= p < p' < |tids| ==> tids[p] != tids[p']
    ensures ScatterGroup(v, tids, vals)[tids[m]] == vals[m]
    decreases |tids|
  {
    var last := |tids| - 1;
    if m < last {
      ScatterGroupHit(v, tids[..last], vals[..last], m);
    }
  }

  /**
   * Transcripts of different tgroups, and the transcripts of one tgroup,
   * are distinct: each transcript belongs to one tgroup, once.
   */
  ghost predicate Partition(l: Layout)
  {
    forall g, m, g', m' ::
      (0 <= g < |l.tgroupTids| && 0 <= m < |l.tgroupTids[g]| &&
      0 <= g' < |l.tgroupTids| && 0 <= m' < |l.tgroupTids[g']| &&
      l.tgroupTids[g][m] == l.tgroupTids[g'][m']) ==>
      g == g' && m == m'
  }

  /** The spliced tgroups are distinct tgroups (they are listed in increasing order). */
  ghost predicate SplicedDistinct(l: Layout)
  {
    forall j, j' :: 0 <= j < j' < |l.spliced| ==> l.spliced[j] != l.spliced[j']
  }

  /** A transcript in none of the first `j` spliced tgroups keeps its value. */
  lemma {:induction false} ScatterGroupsMiss(v: seq<real>, l: Layout, vals: seq<seq<real>>, j: nat, t: nat)
    requires l.Valid() && |v| == l.n && GroupValues(l, vals, j) && t < l.n
    requires forall g :: 0 <= g < j ==> t !in l.Tids(g)
    ensures ScatterGroups(v, l, vals, j)[t] == v[t]
  {
    if j > 0 {
      ScatterGroupsMiss(v, l, vals, j - 1, t);
      ScatterGroupMiss(ScatterGroups(v, l, vals, j - 1), l.Tids(j - 1), vals[j - 1], t);
    }
  }

  /** The k-th transcript of spliced tgroup `g < j` takes the k-th value of that tgroup. */
  lemma {:induction false} ScatterGroupsHit(v: seq<real>, l: Layout, vals: seq<seq<real>>, j: nat, g: nat, k: nat)
    requires l.Valid() && Partition(l) && SplicedDistinct(l)
    requires |v| == l.n && GroupValues(l, vals, j) && g < j && k < |l.Tids(g)|
    ensures ScatterGroups(v, l, vals, j)[l.Tids(g)[k]] == vals[g][k]
  {
    var t := l.Tids(g)[k];
    var prev := ScatterGroups(v, l, vals, j - 1);
    if g == j - 1 {
      ScatterGroupHit(prev, l.Tids(g), vals[g], k);
    } else {
      ScatterGroupsHit(v, l, vals, j - 1, g, k);
      ScatterGroupMiss(prev, l.Tids(j - 1), vals[j - 1], t);
    }
  }

  /** The mu of condition `c` in each spliced tgroup (`condition_splice_mu[c][j]`, held tgroup by tgroup). */
  function MuValues(l: Layout, csm: seq<seq<seq<real>>>, c: nat): (r: seq<seq<real>>)
    requires l.Valid() && CsmShaped(l, csm) && c < l.c
    ensures GroupValues(l, r, l.S()) && |r| == l.S()
    ensures forall j :: 0 <= j < l.S() ==> r[j] == csm[j][c]
  {
    seq(l.S(), j requires 0 <= j < l.S() => csm[j][c])
  }

  /** The sampler-side vectors of a `Hyper` all have one entry per transcript. */
  ghost predicate HyperSized(h: Hyper, n: nat)
  {
    |h.mean| == n && |h.shape| == n && |h.spliceMu| == n && |h.spliceSigma| == n
  }

  /** The splice parameters the driver reads have the shapes of the layout. */
  ghost predicate SpliceInputs(l: Layout, csm: seq<seq<seq<real>>>, sigma: seq<seq<real>>)
    requires l.Valid()
  {
    CsmShaped(l, csm) && |sigma| == l.S() && forall j :: 0 <= j < l.S() ==> |sigma[j]| == |l.Tids(j)|
  }

  /**
   * The hyperparameters of sampler `i`, whose sample is of condition `c`:
   * its scale, the means of condition `c` and the shapes of every
   * transcript, and the splicing mu and sigma scattered over the defaults.
   */
  function HyperFor(l: Layout, c: nat, scale: real, cm: seq<seq<real>>, cs: seq<real>,
                    csm: seq<seq<seq<real>>>, sigma: seq<seq<real>>): (r: Hyper)
    requires l.Valid() && c < l.c && Rect(cm, l.n, l.c) && |cs| == l.n && SpliceInputs(l, csm, sigma)
    ensures HyperSized(r, l.n)
  {
    Hyper(scale,
          seq(l.n, t requires 0 <= t < l.n => cm[t][c]),
          cs,
          ScatterGroups(Fill(l.n, 0.0), l, MuValues(l, csm, c), l.S()),
          ScatterGroups(Fill(l.n, 0.1), l, sigma, l.S()))
  }

  /**
   * What the sampler of a sample of condition `c` is given: condition `c`'s
   * mean and the shape of every transcript; the k-th transcript of spliced
   * tgroup `j` gets `condition_splice_mu[c][j][k]` and
   * `condition_splice_sigma[j][k]`; every transcript of no spliced tgroup
   * gets 0.0 and 0.1.
   */
  lemma HyperForValues(l: Layout, c: nat, scale: real, cm: seq<seq<real>>, cs: seq<real>,
                       csm: seq<seq<seq<real>>>, sigma: seq<seq<real>>)
    requires l.Valid() && Partition(l) && SplicedDistinct(l)
    requires c < l.c && Rect(cm, l.n, l.c) && |cs| == l.n && SpliceInputs(l, csm, sigma)
    ensures var h := HyperFor(l, c, scale, cm, cs, csm, sigma);
      && h.scale == scale
      && (forall t :: 0 <= t < l.n ==> h.mean[t] == cm[t][c] && h.shape[t] == cs[t])
      && (forall j, k :: 0 <= j < l.S() && 0 <= k < |l.Tids(j)| ==>
            h.spliceMu[l.Tids(j)[k]] == csm[j][c][k] && h.spliceSigma[l.Tids(j)[k]] == sigma[j][k])
      && (forall t :: 0 <= t < l.n && (forall j :: 0 <= j < l.S() ==> t !in l.Tids(j)) ==>
            h.spliceMu[t] == 0.0 && h.spliceSigma[t] == 0.1)
  {
    var vals := MuValues(l, csm, c);
    forall j, k | 0 <= j < l.S() && 0 <= k < |l.Tids(j)|
      ensures ScatterGroups(Fill(l.n, 0.0), l, vals, l.S())[l.Tids(j)[k]] == csm[j][c][k]
      ensures ScatterGroups(Fill(l.n, 0.1), l, sigma, l.S())[l.Tids(j)[k]] == sigma[j][k]
    {
      ScatterGroupsHit(Fill(l.n, 0.0), l, vals, l.S(), j, k);
      ScatterGroupsHit(Fill(l.n, 0.1), l, sigma, l.S(), j, k);
    }
    forall t | 0 <= t < l.n && (forall j :: 0 <= j < l.S() ==> t !in l.Tids(j))
      ensures ScatterGroups(Fill(l.n, 0.0), l, vals, l.S())[t] == 0.0
      ensures ScatterGroups(Fill(l.n, 0.1), l, sigma, l.S())[t] == 0.1
    {
      ScatterGroupsMiss(Fill(l.n, 0.0), l, vals, l.S(), t);
      ScatterGroupsMiss(Fill(l.n, 0.1), l, sigma, l.S(), t);
    }
  }

  /**
   * The body of the `for i` loop for one sampler: the mean and shape
   * vectors are copied entry by entry, the splicing vectors are filled with
   * their defaults and then overwritten tgroup by tgroup.
   */
  method SamplerHyper(l: Layout, c: nat, scale: real, cm: seq<seq<real>>, cs: seq<real>,
                      csm: seq<seq<seq<real>>>, sigma: seq<seq<real>>, h0: Hyper) returns (h: Hyper)
    requires l.Valid() && c < l.c && Rect(cm, l.n, l.c) && |cs| == l.n && SpliceInputs(l, csm, sigma)
    requires HyperSized(h0, l.n)
    ensures h == HyperFor(l, c, scale, cm, cs, csm, sigma)
  {
    var mean, shape := h0.mean, h0.shape;
    for t := 0 to l.n
      invariant |mean| == l.n && |shape| == l.n
      invariant forall u :: 0 <= u < t ==> mean[u] == cm[u][c] && shape[u] == cs[u]
    {
      mean := mean[t := cm[t][c]];
      shape := shape[t := cs[t]];
    }
    var mu, sg := Fill(|h0.spliceMu|, 0.0), Fill(|h0.spliceSigma|, 0.1);
    ghost var vals := MuValues(l, csm, c);
    for j := 0 to l.S()
      invariant mu == ScatterGroups(Fill(l.n, 0.0), l, vals, j)
      invariant sg == ScatterGroups(Fill(l.n, 0.1), l, sigma, j)
    {
      var tids := l.Tids(j);
      ghost var mu0, sg0 := mu, sg;
      for k := 0 to |tids|
        invariant mu == ScatterGroup(mu0, tids[..k], vals[j][..k])
        invariant sg == ScatterGroup(sg0, tids[..k], sigma[j][..k])
      {
        assert tids[..k + 1][..k] == tids[..k];
        assert vals[j][..k + 1][..k] == vals[j][..k] && sigma[j][..k + 1][..k] == sigma[j][..k];
        mu := mu[tids[k] := csm[j][c][k]];
        sg := sg[tids[k] := sigma[j][k]];
      }
      assert tids[..|tids|] == tids && vals[j][..|tids|] == vals[j] && sigma[j][..|tids|] == sigma[j];
    }
    h := Hyper(scale, mean, shape, mu, sg);
  }

  /** The hyperparameters of every sampler, sample `i` being of condition `l.condition[i]`. */
  ghost function Hypers(l: Layout, scale: seq<real>, cm: seq<seq<real>>, cs: seq<real>,
                        csm: seq<seq<seq<real>>>, sigma: seq<seq<real>>): (r: seq<Hyper>)
    requires l.Valid() && |scale| == l.k && Rect(cm, l.n, l.c) && |cs| == l.n && SpliceInputs(l, csm, sigma)
    ensures |r| == l.k
    ensures forall i :: 0 <= i < l.k ==> r[i] == HyperFor(l, l.condition[i], scale[i], cm, cs, csm, sigma)
  {
    seq(l.k, i requires 0 <= i < l.k => HyperFor(l, l.condition[i], scale[i], cm, cs, csm, sigma))
  }

  /** Every sampler's hyperparameters have one entry per transcript. */
  ghost predicate HypersSized(hp: seq<Hyper>, k: nat, n: nat)
  {
    |hp| == k && forall i :: 0 <= i < k ==> HyperSized(hp[i], n)
  }

  /** `qsampler_update_hyperparameters`: every sampler's hyperparameters, in order of sample index. */
  method UpdateHyperparameters(bank: SamplerBank, l: Layout, scale: seq<real>, cm: seq<seq<real>>, cs: seq<real>,
                               csm: seq<seq<seq<real>>>, sigma: seq<seq<real>>)
    requires l.Valid() && |scale| == l.k && Rect(cm, l.n, l.c) && |cs| == l.n && SpliceInputs(l, csm, sigma)
    requires HypersSized(bank.hp, l.k, l.n)
    modifies bank
    ensures bank.hp == Hypers(l, scale, cm, cs, csm, sigma)
  {
    for i := 0 to l.k
      invariant HypersSized(bank.hp, l.k, l.n)
      invariant forall u :: 0 <= u < i ==> bank.hp[u] == HyperFor(l, l.condition[u], scale[u], cm, cs, csm, sigma)
    {
      var h := SamplerHyper(l, l.condition[i], scale[i], cm, cs, csm, sigma, bank.hp[i]);
      bank.hp := bank.hp[i := h];
    }
  }
}
