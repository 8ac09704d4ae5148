/**
 * The worker threads of src/analyze.cpp, one class per thread type. Each
 * holds references to the arrays it reads and updates and to its two
 * queues, and its `Run` is the thread's `run()` loop: pop a range, stop on
 * a range whose `first` is -1, otherwise update every unit of the range and
 * push one completion notice.
 *
 * Threads are modelled one at a time: `Run` processes whatever is in the
 * queue and returns when it has met a stopping range or emptied the queue,
 * where the real thread would block until the driver pushes again. The
 * units of a range are updated by the pure per-unit functions of `Params`;
 * each `Run` states the new arrays unit by unit.
 */
module Workers {
  import opened Ranges
  import opened Dispatch
  import opened Params

  // ---------------------------------------------------------------------
  // ConditionMeanShapeSamplerThread (src/analyze.cpp:930-1063)
  // ---------------------------------------------------------------------

  /** The condition means of each transcript (`cm[t]`) in a list of transcript views. */
  function Means(vs: seq<TranscriptView>): (r: seq<seq<real>>)
    ensures |r| == |vs| && forall t :: 0 <= t < |vs| ==> r[t] == vs[t].means
  {
    seq(|vs|, t requires 0 <= t < |vs| => vs[t].means)
  }

  /** The shape of each transcript in a list of transcript views. */
  function Shapes(vs: seq<TranscriptView>): (r: seq<real>)
    ensures |r| == |vs| && forall t :: 0 <= t < |vs| ==> r[t] == vs[t].shape
  {
    seq(|vs|, t requires 0 <= t < |vs| => vs[t].shape)
  }

  /**
   * What `MeanShapeStep` makes of each transcript of `(cm0, cs0)`, given the
   * quantifications `qrows`, the experiment means `ems` and the flag.
   */
  ghost function MeanShapeTargets(l: Layout, d: Draw, cm0: seq<seq<real>>, cs0: seq<real>, qrows: seq<seq<real>>,
                                  ems: seq<real>, es: real, shapeBeta: real, burnin: bool): (r: seq<TranscriptView>)
    requires l.Valid() && Rect(qrows, l.k, l.n) && |ems| == l.n && Rect(cm0, l.n, l.c) && |cs0| == l.n
    ensures |r| == l.n
    ensures forall t :: 0 <= t < l.n ==> MeanShapeTargetAt(l, d, r, t, cm0, cs0, qrows, ems, es, shapeBeta, burnin)
  {
    seq(l.n, t requires 0 <= t < l.n =>
      MeanShapeStep(l, d, t, TranscriptView(cm0[t], cs0[t]), Column(qrows, t), ems[t], es, shapeBeta, burnin))
  }

  /** Transcript `t`'s entry of `target` is what `MeanShapeStep` makes of it. */
  ghost predicate MeanShapeTargetAt(l: Layout, d: Draw, target: seq<TranscriptView>, t: nat, cm0: seq<seq<real>>, cs0: seq<real>,
                                    qrows: seq<seq<real>>, ems: seq<real>, es: real, shapeBeta: real, burnin: bool)
    requires l.Valid() && Rect(qrows, l.k, l.n) && |ems| == l.n && Rect(cm0, l.n, l.c) && |cs0| == l.n
    requires |target| == l.n && t < l.n
  {
    target[t] == MeanShapeStep(l, d, t, TranscriptView(cm0[t], cs0[t]), Column(qrows, t), ems[t], es, shapeBeta, burnin)
  }

  /** `target` holds what `MeanShapeStep` makes of every transcript. */
  ghost predicate MeanShapeTargetsOk(l: Layout, d: Draw, target: seq<TranscriptView>, cm0: seq<seq<real>>, cs0: seq<real>,
                                     qrows: seq<seq<real>>, ems: seq<real>, es: real, shapeBeta: real, burnin: bool)
    requires l.Valid() && Rect(qrows, l.k, l.n) && |ems| == l.n && Rect(cm0, l.n, l.c) && |cs0| == l.n
  {
    && |target| == l.n
    && forall t :: 0 <= t < l.n ==> MeanShapeTargetAt(l, d, target, t, cm0, cs0, qrows, ems, es, shapeBeta, burnin)
  }

  /**
   * The thread that draws `condition_mean` and `condition_shape`. The
   * matrix `condition_mean` (condition by transcript) is held transcript by
   * transcript: `cm.rows[t][i]` is `condition_mean(i, t)`.
   */
  class ConditionMeanShapeWorker {
    const l: Layout
    const d: Draw
    const q: Matrix
    const cm: Matrix
    const cs: Vec
    const em: Vec
    const tasks: Queue<IdxRange>
    const notify: Queue<int>
    var burninState: bool

    /** The arrays have the sizes of the layout and are distinct objects. */
    ghost predicate Valid()
      reads q, cm, cs, em
    {
      && l.Valid()
      && Rect(q.rows, l.k, l.n) && Rect(cm.rows, l.n, l.c)
      && |cs.cells| == l.n && |em.cells| == l.n
      && q != cm && cs != em
    }

    constructor (l: Layout, d: Draw, q: Matrix, cm: Matrix, cs: Vec, em: Vec,
                 tasks: Queue<IdxRange>, notify: Queue<int>)
      ensures this.l == l && this.d == d && this.q == q && this.cm == cm && this.cs == cs && this.em == em
      ensures this.tasks == tasks && this.notify == notify
      ensures burninState
    {
      this.l := l;
      this.d := d;
      this.q := q;
      this.cm := cm;
      this.cs := cs;
      this.em := em;
      this.tasks := tasks;
      this.notify := notify;
      burninState := true;
    }

    /** `end_burnin`: the flag only ever goes from true to false. */
    method EndBurnin()
      modifies this
      ensures !burninState
    {
      burninState := false;
    }

    /**
     * The body of the `for tid` loop: transcript `t`, not updated before,
     * takes the column of means and the shape `MeanShapeStep` draws for it.
     */
    method SampleTranscript(t: nat, es: real, shapeBeta: real, ghost cm0: seq<seq<real>>, ghost cs0: seq<real>,
                            ghost target: seq<TranscriptView>, ghost seen: seq<int>)
      requires Valid() && Rect(cm0, l.n, l.c) && |cs0| == l.n
      requires MeanShapeTargetsOk(l, d, target, cm0, cs0, q.rows, em.cells, es, shapeBeta, burninState)
      requires t < l.n && t !in seen
      requires cm.rows == Overlay(cm0, seen, Means(target)) && cs.cells == Overlay(cs0, seen, Shapes(target))
      modifies cm, cs
      ensures Valid() && q.rows == old(q.rows) && em.cells == old(em.cells)
      ensures cm.rows == Overlay(cm0, seen + [t], Means(target)) && cs.cells == Overlay(cs0, seen + [t], Shapes(target))
    {
      var v := MeanShapeStep(l, d, t, TranscriptView(cm.rows[t], cs.cells[t]),
                             Column(q.rows, t), em.cells[t], es, shapeBeta, burninState);
      assert MeanShapeTargetAt(l, d, target, t, cm0, cs0, q.rows, em.cells, es, shapeBeta, burninState);
      assert v == target[t];
      OverlayStep(cm0, seen, Means(target), t);
      OverlayStep(cs0, seen, Shapes(target), t);
      cm.rows := cm.rows[t := v.means];
      cs.cells := cs.cells[t := v.shape];
    }

    /**
     * The `for tid` loop over one range whose transcripts are all below `n`
     * and not updated before: they take their targets.
     */
    method SampleRange(r: IdxRange, es: real, shapeBeta: real, ghost cm0: seq<seq<real>>, ghost cs0: seq<real>,
                       ghost target: seq<TranscriptView>, ghost pre: seq<int>)
      requires Valid() && Rect(cm0, l.n, l.c) && |cs0| == l.n
      requires MeanShapeTargetsOk(l, d, target, cm0, cs0, q.rows, em.cells, es, shapeBeta, burninState)
      requires forall x :: r.first <= x < r.second ==> FreshIndex(x, l.n, pre)
      requires cm.rows == Overlay(cm0, pre, Means(target)) && cs.cells == Overlay(cs0, pre, Shapes(target))
      modifies cm, cs
      ensures Valid() && q.rows == old(q.rows) && em.cells == old(em.cells)
      ensures cm.rows == Overlay(cm0, pre + Span(r), Means(target)) && cs.cells == Overlay(cs0, pre + Span(r), Shapes(target))
    {
      var t := r.first;
      while t < r.second
        invariant Valid()
        invariant r.first <= t && (t <= r.second || t == r.first)
        invariant cm.rows == Overlay(cm0, pre + Range(r.first, t), Means(target))
        invariant cs.cells == Overlay(cs0, pre + Range(r.first, t), Shapes(target))
        decreases r.second - t
      {
        RangeMembers(r.first, t, t);
        assert FreshIndex(t, l.n, pre);
        SampleTranscript(t, es, shapeBeta, cm0, cs0, target, pre + Range(r.first, t));
        assert pre + Range(r.first, t + 1) == pre + Range(r.first, t) + [t];
        t := t + 1;
      }
      assert Range(r.first, t) == Span(r);
    }

    /** One pass of the `while` loop that does not stop: the m-th range of work, then its notice. */
    method ProcessRange(r: IdxRange, es: real, shapeBeta: real, ghost items0: seq<IdxRange>, ghost m: nat,
                        ghost cm0: seq<seq<real>>, ghost cs0: seq<real>, ghost target: seq<TranscriptView>)
      requires Valid() && Rect(cm0, l.n, l.c) && |cs0| == l.n
      requires MeanShapeTargetsOk(l, d, target, cm0, cs0, q.rows, em.cells, es, shapeBeta, burninState)
      requires Fits(items0, l.n) && m < |Work(items0)| && r == Work(items0)[m]
      requires cm.rows == Overlay(cm0, Indexes(Work(items0)[..m]), Means(target))
      requires cs.cells == Overlay(cs0, Indexes(Work(items0)[..m]), Shapes(target))
      modifies cm, cs, notify
      ensures Valid() && q.rows == old(q.rows) && em.cells == old(em.cells)
      ensures cm.rows == Overlay(cm0, Indexes(Work(items0)[..m + 1]), Means(target))
      ensures cs.cells == Overlay(cs0, Indexes(Work(items0)[..m + 1]), Shapes(target))
      ensures notify.items == old(notify.items) + [1]
    {
      RangeFresh(items0, l.n, m);
      SampleRange(r, es, shapeBeta, cm0, cs0, target, Indexes(Work(items0)[..m]));
      IndexesStep(Work(items0), m);
      notify.Push(1);
    }

    /**
     * One pass of the `while` loop, the m-th pop: an empty queue or a stop
     * ends the drain with nothing written, a range of work is processed.
     */
    method Next(es: real, shapeBeta: real, ghost items0: seq<IdxRange>, ghost m: nat,
                ghost cm0: seq<seq<real>>, ghost cs0: seq<real>, ghost target: seq<TranscriptView>)
        returns (more: bool, stopped: bool)
      requires Valid() && Rect(cm0, l.n, l.c) && |cs0| == l.n
      requires MeanShapeTargetsOk(l, d, target, cm0, cs0, q.rows, em.cells, es, shapeBeta, burninState)
      requires Fits(items0, l.n) && m <= |Work(items0)| && tasks.items == items0[m..]
      requires cm.rows == Overlay(cm0, Indexes(Work(items0)[..m]), Means(target))
      requires cs.cells == Overlay(cs0, Indexes(Work(items0)[..m]), Shapes(target))
      modifies cm, cs, tasks, notify
      ensures Valid() && q.rows == old(q.rows) && em.cells == old(em.cells)
      ensures !more ==> && m == |Work(items0)| && Work(items0)[..m] == Work(items0) && Drained(items0, tasks.items, stopped)
                        && notify.items == old(notify.items) && cm.rows == old(cm.rows) && cs.cells == old(cs.cells)
      ensures more ==> && m < |Work(items0)| && tasks.items == items0[m + 1..]
                       && notify.items == old(notify.items) + [1]
                       && cm.rows == Overlay(cm0, Indexes(Work(items0)[..m + 1]), Means(target))
                       && cs.cells == Overlay(cs0, Indexes(Work(items0)[..m + 1]), Shapes(target))
    {
      if tasks.items == [] {
        DrainEmpty(items0, m);
        return false, false;
      }
      var r := tasks.Pop();
      assert tasks.items == items0[m..][1..] == items0[m + 1..];
      if Stops(r) {
        DrainStop(items0, m);
        return false, true;
      }
      DrainNext(items0, m);
      ProcessRange(r, es, shapeBeta, items0, m, cm0, cs0, target);
      more, stopped := true, false;
    }

    /**
     * `run()`: drains the queue of transcript ranges. Every transcript of
     * every range before the stopping range takes the value `MeanShapeStep`
     * gives it (each exactly once, as `Fits` guarantees), every other
     * transcript is left alone, and one notice is pushed per range.
     */
    method Run(es: real, shapeBeta: real) returns (stopped: bool)
      requires Valid() && Fits(tasks.items, l.n)
      modifies cm, cs, tasks, notify
      ensures Valid() && q.rows == old(q.rows) && em.cells == old(em.cells)
      ensures Drained(old(tasks.items), tasks.items, stopped)
      ensures notify.items == old(notify.items) + Notices(|Work(old(tasks.items))|)
      ensures var target := MeanShapeTargets(l, d, old(cm.rows), old(cs.cells), q.rows, em.cells, es, shapeBeta, burninState);
        && cm.rows == Overlay(old(cm.rows), Indexes(Work(old(tasks.items))), Means(target))
        && cs.cells == Overlay(old(cs.cells), Indexes(Work(old(tasks.items))), Shapes(target))
    {
      ghost var target := MeanShapeTargets(l, d, cm.rows, cs.cells, q.rows, em.cells, es, shapeBeta, burninState);
      assert MeanShapeTargetsOk(l, d, target, cm.rows, cs.cells, q.rows, em.cells, es, shapeBeta, burninState);
      stopped := Drain(es, shapeBeta, cm.rows, cs.cells, target);
    }

    /** The loop of `Run`, for the targets fixed when it starts. */
    method Drain(es: real, shapeBeta: real, ghost cm0: seq<seq<real>>, ghost cs0: seq<real>, ghost target: seq<TranscriptView>)
        returns (stopped: bool)
      requires Valid() && Fits(tasks.items, l.n) && cm.rows == cm0 && cs.cells == cs0
      requires MeanShapeTargetsOk(l, d, target, cm0, cs0, q.rows, em.cells, es, shapeBeta, burninState)
      modifies cm, cs, tasks, notify
      ensures Valid() && q.rows == old(q.rows) && em.cells == old(em.cells)
      ensures Drained(old(tasks.items), tasks.items, stopped)
      ensures notify.items == old(notify.items) + Notices(|Work(old(tasks.items))|)
      ensures cm.rows == Overlay(cm0, Indexes(Work(old(tasks.items))), Means(target))
      ensures cs.cells == Overlay(cs0, Indexes(Work(old(tasks.items))), Shapes(target))
    {
      ghost var items0, qrows, ems := tasks.items, q.rows, em.cells;
      ghost var w := Work(items0);
      ghost var m := 0;
      assert cm.rows == Overlay(cm0, Indexes(w[..0]), Means(target));
      assert cs.cells == Overlay(cs0, Indexes(w[..0]), Shapes(target));
      while true
        invariant Valid() && q.rows == qrows && em.cells == ems
        invariant m <= |w| && tasks.items == items0[m..]
        invariant notify.items == old(notify.items) + Notices(m)
        invariant cm.rows == Overlay(cm0, Indexes(w[..m]), Means(target))
        invariant cs.cells == Overlay(cs0, Indexes(w[..m]), Shapes(target))
        decreases |tasks.items|
      {
        var more, s := Next(es, shapeBeta, items0, m, cm0, cs0, target);
        if !more {
          stopped := s;
          break;
        }
        NoticesNext(m);
        m := m + 1;
      }
    }
  }

  // ---------------------------------------------------------------------
  // ExperimentMeanShapeSamplerThread (src/analyze.cpp:1172-1239)
  // ---------------------------------------------------------------------

  /**
   * What the experiment mean of each transcript becomes: drawn from its
   * current value, the experiment shape and the transcript's condition
   * means `cmrows[t]` (a column of `condition_mean`).
   */
  ghost function ExperimentMeanTargets(d: Draw, em0: seq<real>, cmrows: seq<seq<real>>, es: real): (r: seq<real>)
    requires |cmrows| == |em0|
    ensures |r| == |em0|
    ensures forall t :: 0 <= t < |em0| ==> r[t] == d(ExperimentMeanCall(t, em0[t], es, cmrows[t]))
  {
    seq(|em0|, t requires 0 <= t < |em0| => d(ExperimentMeanCall(t, em0[t], es, cmrows[t])))
  }

  /** The thread that draws `experiment_mean`; it reads `condition_mean`, held transcript by transcript. */
  class ExperimentMeanWorker {
    const l: Layout
    const d: Draw
    const cm: Matrix
    const em: Vec
    const tasks: Queue<IdxRange>
    const notify: Queue<int>

    ghost predicate Valid()
      reads cm, em
    {
      l.Valid() && Rect(cm.rows, l.n, l.c) && |em.cells| == l.n
    }

    constructor (l: Layout, d: Draw, cm: Matrix, em: Vec, tasks: Queue<IdxRange>, notify: Queue<int>)
      ensures this.l == l && this.d == d && this.cm == cm && this.em == em
      ensures this.tasks == tasks && this.notify == notify
    {
      this.l := l;
      this.d := d;
      this.cm := cm;
      this.em := em;
      this.tasks := tasks;
      this.notify := notify;
    }

    /** The body of the `for tid` loop: transcript `t`, not updated before, takes its target. */
    method SampleTranscript(t: nat, es: real, ghost em0: seq<real>, ghost target: seq<real>, ghost seen: seq<int>)
      requires Valid() && |em0| == l.n && target == ExperimentMeanTargets(d, em0, cm.rows, es)
      requires t < l.n && t !in seen
      requires em.cells == Overlay(em0, seen, target)
      modifies em
      ensures Valid()
      ensures em.cells == Overlay(em0, seen + [t], target)
    {
      var x := d(ExperimentMeanCall(t, em.cells[t], es, cm.rows[t]));
      OverlayStep(em0, seen, target, t);
      em.cells := em.cells[t := x];
    }

    /** The `for tid` loop over one range of fresh transcripts below `n`. */
    method SampleRange(r: IdxRange, es: real, ghost em0: seq<real>, ghost target: seq<real>, ghost pre: seq<int>)
      requires Valid() && |em0| == l.n && target == ExperimentMeanTargets(d, em0, cm.rows, es)
      requires forall x :: r.first <= x < r.second ==> FreshIndex(x, l.n, pre)
      requires em.cells == Overlay(em0, pre, target)
      modifies em
      ensures Valid()
      ensures em.cells == Overlay(em0, pre + Span(r), target)
    {
      var t := r.first;
      while t < r.second
        invariant Valid()
        invariant r.first <= t && (t <= r.second || t == r.first)
        invariant em.cells == Overlay(em0, pre + Range(r.first, t), target)
        decreases r.second - t
      {
        RangeMembers(r.first, t, t);
        assert FreshIndex(t, l.n, pre);
        SampleTranscript(t, es, em0, target, pre + Range(r.first, t));
        assert pre + Range(r.first, t + 1) == pre + Range(r.first, t) + [t];
        t := t + 1;
      }
      assert Range(r.first, t) == Span(r);
    }

    /** One pass of the `while` loop that does not stop: the m-th range of work, then its notice. */
    method ProcessRange(r: IdxRange, es: real, ghost items0: seq<IdxRange>, ghost m: nat,
                        ghost em0: seq<real>, ghost target: seq<real>)
      requires Valid() && |em0| == l.n && target == ExperimentMeanTargets(d, em0, cm.rows, es)
      requires Fits(items0, l.n) && m < |Work(items0)| && r == Work(items0)[m]
      requires em.cells == Overlay(em0, Indexes(Work(items0)[..m]), target)
      modifies em, notify
      ensures Valid()
      ensures em.cells == Overlay(em0, Indexes(Work(items0)[..m + 1]), target)
      ensures notify.items == old(notify.items) + [1]
    {
      RangeFresh(items0, l.n, m);
      SampleRange(r, es, em0, target, Indexes(Work(items0)[..m]));
      IndexesStep(Work(items0), m);
      notify.Push(1);
    }

    /**
     * One pass of the `while` loop, the m-th pop: an empty queue or a stop
     * ends the drain with nothing written, a range of work is processed.
     */
    method Next(es: real, ghost items0: seq<IdxRange>, ghost m: nat, ghost em0: seq<real>, ghost target: seq<real>)
        returns (more: bool, stopped: bool)
      requires Valid() && |em0| == l.n && target == ExperimentMeanTargets(d, em0, cm.rows, es)
      requires Fits(items0, l.n) && m <= |Work(items0)| && tasks.items == items0[m..]
      requires em.cells == Overlay(em0, Indexes(Work(items0)[..m]), target)
      modifies em, tasks, notify
      ensures Valid()
      ensures !more ==> && m == |Work(items0)| && Work(items0)[..m] == Work(items0) && Drained(items0, tasks.items, stopped)
                        && notify.items == old(notify.items) && em.cells == old(em.cells)
      ensures more ==> && m < |Work(items0)| && tasks.items == items0[m + 1..]
                       && notify.items == old(notify.items) + [1]
                       && em.cells == Overlay(em0, Indexes(Work(items0)[..m + 1]), target)
    {
      if tasks.items == [] {
        DrainEmpty(items0, m);
        return false, false;
      }
      var r := tasks.Pop();
      assert tasks.items == items0[m..][1..] == items0[m + 1..];
      if Stops(r) {
        DrainStop(items0, m);
        return false, true;
      }
      DrainNext(items0, m);
      ProcessRange(r, es, items0, m, em0, target);
      more, stopped := true, false;
    }

    /**
     * `run()`: drains the queue of transcript ranges. Every transcript of
     * every range before the stopping range takes its experiment mean drawn
     * from the values before the call, every other one is left alone, and
     * one notice is pushed per range.
     */
    method Run(es: real) returns (stopped: bool)
      requires Valid() && Fits(tasks.items, l.n)
      modifies em, tasks, notify
      ensures Valid()
      ensures Drained(old(tasks.items), tasks.items, stopped)
      ensures notify.items == old(notify.items) + Notices(|Work(old(tasks.items))|)
      ensures em.cells == Overlay(old(em.cells), Indexes(Work(old(tasks.items))), ExperimentMeanTargets(d, old(em.cells), cm.rows, es))
    {
      stopped := Drain(es, em.cells, ExperimentMeanTargets(d, em.cells, cm.rows, es));
    }

    /** The loop of `Run`, for the targets fixed when it starts. */
    method Drain(es: real, ghost em0: seq<real>, ghost target: seq<real>) returns (stopped: bool)
      requires Valid() && Fits(tasks.items, l.n) && em.cells == em0
      requires target == ExperimentMeanTargets(d, em0, cm.rows, es)
      modifies em, tasks, notify
      ensures Valid()
      ensures Drained(old(tasks.items), tasks.items, stopped)
      ensures notify.items == old(notify.items) + Notices(|Work(old(tasks.items))|)
      ensures em.cells == Overlay(em0, Indexes(Work(old(tasks.items))), target)
    {
      ghost var items0, cmrows := tasks.items, cm.rows;
      ghost var w := Work(items0);
      ghost var m := 0;
      assert em.cells == Overlay(em0, Indexes(w[..0]), target);
      while true
        invariant Valid() && cm.rows == cmrows
        invariant m <= |w| && tasks.items == items0[m..]
        invariant notify.items == old(notify.items) + Notices(m)
        invariant em.cells == Overlay(em0, Indexes(w[..m]), target)
        decreases |tasks.items|
      {
        var more, s := Next(es, items0, m, em0, target);
        if !more {
          stopped := s;
          break;
        }
        NoticesNext(m);
        m := m + 1;
      }
    }
  }

  // ---------------------------------------------------------------------
  // ConditionSpliceMuSigmaEtaSamplerThread (src/analyze.cpp:586-817)
  // ---------------------------------------------------------------------

  /** Spliced tgroup `j`'s parameters in `(mu, sigma, eta)`. */
  function GroupView(mu: seq<seq<seq<real>>>, sigma: seq<seq<real>>, eta: seq<seq<real>>, j: nat): SpliceView
    requires j < |mu| && j < |sigma| && j < |eta|
  {
    SpliceView(mu[j], sigma[j], eta[j])
  }

  /** What `SpliceStep` makes of every spliced tgroup of `(mu0, sigma0, eta0)`. */
  ghost function SpliceTargets(l: Layout, d: Draw, mu0: seq<seq<seq<real>>>, sigma0: seq<seq<real>>, eta0: seq<seq<real>>,
                               qrows: seq<seq<real>>, esmu: seq<seq<real>>, ess: real, spliceBeta: real,
                               minSigma: real, burnin: bool): (r: seq<SpliceView>)
    requires l.Valid() && Rect(qrows, l.k, l.n) && SpliceShapes(l, mu0, sigma0, eta0) && EsmuShaped(l, esmu)
    ensures |r| == l.S()
    ensures forall j :: 0 <= j < l.S() ==> SpliceTargetAt(l, d, r, j, mu0, sigma0, eta0, qrows, esmu, ess, spliceBeta, minSigma, burnin)
  {
    seq(l.S(), j requires 0 <= j < l.S() =>
      SpliceStep(l, d, j, GroupView(mu0, sigma0, eta0, j), DataJ(qrows, l.Tids(j)), esmu[j], ess, spliceBeta, minSigma, burnin))
  }

  /** Spliced tgroup `j`'s entry of `target` is what `SpliceStep` makes of it. */
  ghost predicate SpliceTargetAt(l: Layout, d: Draw, target: seq<SpliceView>, j: nat,
                                 mu0: seq<seq<seq<real>>>, sigma0: seq<seq<real>>, eta0: seq<seq<real>>,
                                 qrows: seq<seq<real>>, esmu: seq<seq<real>>, ess: real, spliceBeta: real,
                                 minSigma: real, burnin: bool)
    requires l.Valid() && Rect(qrows, l.k, l.n) && SpliceShapes(l, mu0, sigma0, eta0) && EsmuShaped(l, esmu)
    requires |target| == l.S() && j < l.S()
  {
    target[j] == SpliceStep(l, d, j, GroupView(mu0, sigma0, eta0, j), DataJ(qrows, l.Tids(j)), esmu[j], ess, spliceBeta, minSigma, burnin)
  }

  /** `target` holds what `SpliceStep` makes of every spliced tgroup. */
  ghost predicate SpliceTargetsOk(l: Layout, d: Draw, target: seq<SpliceView>,
                                  mu0: seq<seq<seq<real>>>, sigma0: seq<seq<real>>, eta0: seq<seq<real>>,
                                  qrows: seq<seq<real>>, esmu: seq<seq<real>>, ess: real, spliceBeta: real,
                                  minSigma: real, burnin: bool)
    requires l.Valid() && Rect(qrows, l.k, l.n) && SpliceShapes(l, mu0, sigma0, eta0) && EsmuShaped(l, esmu)
  {
    && |target| == l.S()
    && forall j :: 0 <= j < l.S() ==>
         SpliceTargetAt(l, d, target, j, mu0, sigma0, eta0, qrows, esmu, ess, spliceBeta, minSigma, burnin)
  }

  /** The mu of each spliced tgroup in a list of views. */
  function Mus(vs: seq<SpliceView>): (r: seq<seq<seq<real>>>)
    ensures |r| == |vs| && forall j :: 0 <= j < |vs| ==> r[j] == vs[j].mu
  {
    seq(|vs|, j requires 0 <= j < |vs| => vs[j].mu)
  }

  /** The sigma of each spliced tgroup in a list of views. */
  function Sigmas(vs: seq<SpliceView>): (r: seq<seq<real>>)
    ensures |r| == |vs| && forall j :: 0 <= j < |vs| ==> r[j] == vs[j].sigma
  {
    seq(|vs|, j requires 0 <= j < |vs| => vs[j].sigma)
  }

  /** The eta of each spliced tgroup in a list of views. */
  function Etas(vs: seq<SpliceView>): (r: seq<seq<real>>)
    ensures |r| == |vs| && forall j :: 0 <= j < |vs| ==> r[j] == vs[j].eta
  {
    seq(|vs|, j requires 0 <= j < |vs| => vs[j].eta)
  }

  /**
   * The thread that draws `condition_splice_mu`, `condition_splice_sigma`
   * and `condition_splice_eta`. The cube `condition_splice_mu` is held
   * tgroup by tgroup: `csm.cells[j][i][k]` is `condition_splice_mu[i][j][k]`.
   */
  class ConditionSpliceWorker {
    const l: Layout
    const d: Draw
    const q: Matrix
    const csm: Cube
    const sigma: Matrix
    const eta: Matrix
    const esmu: Matrix
    const tasks: Queue<IdxRange>
    const notify: Queue<int>
    var burninState: bool

    /** The arrays have the shapes of the layout, and the three matrices updated are distinct from the two read. */
    ghost predicate Valid()
      reads q, csm, sigma, eta, esmu
    {
      && l.Valid()
      && Rect(q.rows, l.k, l.n)
      && SpliceShapes(l, csm.cells, sigma.rows, eta.rows)
      && EsmuShaped(l, esmu.rows)
      && sigma != eta && sigma != q && eta != q && sigma != esmu && eta != esmu
    }

    constructor (l: Layout, d: Draw, q: Matrix, csm: Cube, sigma: Matrix, eta: Matrix, esmu: Matrix,
                 tasks: Queue<IdxRange>, notify: Queue<int>)
      ensures this.l == l && this.d == d && this.q == q && this.csm == csm
      ensures this.sigma == sigma && this.eta == eta && this.esmu == esmu
      ensures this.tasks == tasks && this.notify == notify
      ensures burninState
    {
      this.l := l;
      this.d := d;
      this.q := q;
      this.csm := csm;
      this.sigma := sigma;
      this.eta := eta;
      this.esmu := esmu;
      this.tasks := tasks;
      this.notify := notify;
      burninState := true;
    }

    /** `end_burnin`: the flag only ever goes from true to false. */
    method EndBurnin()
      modifies this
      ensures !burninState
    {
      burninState := false;
    }

    /** The body of the `for j` loop: spliced tgroup `j`, not updated before, takes its target. */
    method SampleGroup(j: nat, ess: real, spliceBeta: real, minSigma: real,
                       ghost mu0: seq<seq<seq<real>>>, ghost sigma0: seq<seq<real>>, ghost eta0: seq<seq<real>>,
                       ghost qrows: seq<seq<real>>, ghost esmu0: seq<seq<real>>,
                       ghost target: seq<SpliceView>, ghost seen: seq<int>)
      requires Valid() && SpliceShapes(l, mu0, sigma0, eta0) && q.rows == qrows && esmu.rows == esmu0
      requires SpliceTargetsOk(l, d, target, mu0, sigma0, eta0, qrows, esmu0, ess, spliceBeta, minSigma, burninState)
      requires j < l.S() && j !in seen
      requires csm.cells == Overlay(mu0, seen, Mus(target))
      requires sigma.rows == Overlay(sigma0, seen, Sigmas(target))
      requires eta.rows == Overlay(eta0, seen, Etas(target))
      modifies csm, sigma, eta
      ensures Valid() && q.rows == qrows && esmu.rows == esmu0
      ensures csm.cells == Overlay(mu0, seen + [j], Mus(target))
      ensures sigma.rows == Overlay(sigma0, seen + [j], Sigmas(target))
      ensures eta.rows == Overlay(eta0, seen + [j], Etas(target))
    {
      var v := SpliceStep(l, d, j, GroupView(csm.cells, sigma.rows, eta.rows, j), DataJ(q.rows, l.Tids(j)),
                          esmu.rows[j], ess, spliceBeta, minSigma, burninState);
      assert SpliceTargetAt(l, d, target, j, mu0, sigma0, eta0, qrows, esmu0, ess, spliceBeta, minSigma, burninState);
      assert v == target[j];
      OverlayStep(mu0, seen, Mus(target), j);
      OverlayStep(sigma0, seen, Sigmas(target), j);
      OverlayStep(eta0, seen, Etas(target), j);
      csm.cells := csm.cells[j := v.mu];
      sigma.rows := sigma.rows[j := v.sigma];
      eta.rows := eta.rows[j := v.eta];
    }

    /** The `for j` loop over one range of fresh spliced tgroups below `S`. */
    method SampleRange(r: IdxRange, ess: real, spliceBeta: real, minSigma: real,
                       ghost mu0: seq<seq<seq<real>>>, ghost sigma0: seq<seq<real>>, ghost eta0: seq<seq<real>>,
                       ghost qrows: seq<seq<real>>, ghost esmu0: seq<seq<real>>,
                       ghost target: seq<SpliceView>, ghost pre: seq<int>)
      requires Valid() && SpliceShapes(l, mu0, sigma0, eta0) && q.rows == qrows && esmu.rows == esmu0
      requires SpliceTargetsOk(l, d, target, mu0, sigma0, eta0, qrows, esmu0, ess, spliceBeta, minSigma, burninState)
      requires forall x :: r.first <= x < r.second ==> FreshIndex(x, l.S(), pre)
      requires csm.cells == Overlay(mu0, pre, Mus(target))
      requires sigma.rows == Overlay(sigma0, pre, Sigmas(target))
      requires eta.rows == Overlay(eta0, pre, Etas(target))
      modifies csm, sigma, eta
      ensures Valid() && q.rows == qrows && esmu.rows == esmu0
      ensures csm.cells == Overlay(mu0, pre + Span(r), Mus(target))
      ensures sigma.rows == Overlay(sigma0, pre + Span(r), Sigmas(target))
      ensures eta.rows == Overlay(eta0, pre + Span(r), Etas(target))
    {
      var j := r.first;
      while j < r.second
        invariant Valid()
        invariant r.first <= j && (j <= r.second || j == r.first)
        invariant csm.cells == Overlay(mu0, pre + Range(r.first, j), Mus(target))
        invariant sigma.rows == Overlay(sigma0, pre + Range(r.first, j), Sigmas(target))
        invariant eta.rows == Overlay(eta0, pre + Range(r.first, j), Etas(target))
        decreases r.second - j
      {
        RangeMembers(r.first, j, j);
        assert FreshIndex(j, l.S(), pre);
        SampleGroup(j, ess, spliceBeta, minSigma, mu0, sigma0, eta0, qrows, esmu0, target, pre + Range(r.first, j));
        assert pre + Range(r.first, j + 1) == pre + Range(r.first, j) + [j];
        j := j + 1;
      }
      assert Range(r.first, j) == Span(r);
    }

    /** One pass of the `while` loop that does not stop: the m-th range of work, then its notice. */
    method ProcessRange(r: IdxRange, ess: real, spliceBeta: real, minSigma: real, ghost items0: seq<IdxRange>, ghost m: nat,
                        ghost mu0: seq<seq<seq<real>>>, ghost sigma0: seq<seq<real>>, ghost eta0: seq<seq<real>>,
                       ghost qrows: seq<seq<real>>, ghost esmu0: seq<seq<real>>,
                        ghost target: seq<SpliceView>)
      requires Valid() && SpliceShapes(l, mu0, sigma0, eta0) && q.rows == qrows && esmu.rows == esmu0
      requires SpliceTargetsOk(l, d, target, mu0, sigma0, eta0, qrows, esmu0, ess, spliceBeta, minSigma, burninState)
      requires Fits(items0, l.S()) && m < |Work(items0)| && r == Work(items0)[m]
      requires csm.cells == Overlay(mu0, Indexes(Work(items0)[..m]), Mus(target))
      requires sigma.rows == Overlay(sigma0, Indexes(Work(items0)[..m]), Sigmas(target))
      requires eta.rows == Overlay(eta0, Indexes(Work(items0)[..m]), Etas(target))
      modifies csm, sigma, eta, notify
      ensures Valid() && q.rows == qrows && esmu.rows == esmu0
      ensures csm.cells == Overlay(mu0, Indexes(Work(items0)[..m + 1]), Mus(target))
      ensures sigma.rows == Overlay(sigma0, Indexes(Work(items0)[..m + 1]), Sigmas(target))
      ensures eta.rows == Overlay(eta0, Indexes(Work(items0)[..m + 1]), Etas(target))
      ensures notify.items == old(notify.items) + [1]
    {
      RangeFresh(items0, l.S(), m);
      SampleRange(r, ess, spliceBeta, minSigma, mu0, sigma0, eta0, qrows, esmu0, target, Indexes(Work(items0)[..m]));
      IndexesStep(Work(items0), m);
      notify.Push(1);
    }

    /**
     * One pass of the `while` loop, the m-th pop: an empty queue or a stop
     * ends the drain with nothing written, a range of work is processed.
     */
    method Next(ess: real, spliceBeta: real, minSigma: real, ghost items0: seq<IdxRange>, ghost m: nat,
                ghost mu0: seq<seq<seq<real>>>, ghost sigma0: seq<seq<real>>, ghost eta0: seq<seq<real>>,
                       ghost qrows: seq<seq<real>>, ghost esmu0: seq<seq<real>>,
                ghost target: seq<SpliceView>)
        returns (more: bool, stopped: bool)
      requires Valid() && SpliceShapes(l, mu0, sigma0, eta0) && q.rows == qrows && esmu.rows == esmu0
      requires SpliceTargetsOk(l, d, target, mu0, sigma0, eta0, qrows, esmu0, ess, spliceBeta, minSigma, burninState)
      requires Fits(items0, l.S()) && m <= |Work(items0)| && tasks.items == items0[m..]
      requires csm.cells == Overlay(mu0, Indexes(Work(items0)[..m]), Mus(target))
      requires sigma.rows == Overlay(sigma0, Indexes(Work(items0)[..m]), Sigmas(target))
      requires eta.rows == Overlay(eta0, Indexes(Work(items0)[..m]), Etas(target))
      modifies csm, sigma, eta, tasks, notify
      ensures Valid() && q.rows == qrows && esmu.rows == esmu0
      ensures !more ==> && m == |Work(items0)| && Work(items0)[..m] == Work(items0) && Drained(items0, tasks.items, stopped)
                        && notify.items == old(notify.items)
                        && csm.cells == old(csm.cells) && sigma.rows == old(sigma.rows) && eta.rows == old(eta.rows)
      ensures more ==> && m < |Work(items0)| && tasks.items == items0[m + 1..]
                       && notify.items == old(notify.items) + [1]
                       && csm.cells == Overlay(mu0, Indexes(Work(items0)[..m + 1]), Mus(target))
                       && sigma.rows == Overlay(sigma0, Indexes(Work(items0)[..m + 1]), Sigmas(target))
                       && eta.rows == Overlay(eta0, Indexes(Work(items0)[..m + 1]), Etas(target))
    {
      if tasks.items == [] {
        DrainEmpty(items0, m);
        return false, false;
      }
      var r := tasks.Pop();
      assert tasks.items == items0[m..][1..] == items0[m + 1..];
      if Stops(r) {
        DrainStop(items0, m);
        return false, true;
      }
      DrainNext(items0, m);
      ProcessRange(r, ess, spliceBeta, minSigma, items0, m, mu0, sigma0, eta0, qrows, esmu0, target);
      more, stopped := true, false;
    }

    /**
     * `run()`: drains the queue of spliced tgroup ranges. Every tgroup of
     * every range before the stopping range takes the parameters
     * `SpliceStep` gives it, every other one is left alone, and one notice
     * is pushed per range.
     */
    method Run(ess: real, spliceBeta: real, minSigma: real) returns (stopped: bool)
      requires Valid() && Fits(tasks.items, l.S())
      modifies csm, sigma, eta, tasks, notify
      ensures Valid()
      ensures Drained(old(tasks.items), tasks.items, stopped)
      ensures notify.items == old(notify.items) + Notices(|Work(old(tasks.items))|)
      ensures var target := SpliceTargets(l, d, old(csm.cells), old(sigma.rows), old(eta.rows), q.rows, esmu.rows,
                                          ess, spliceBeta, minSigma, burninState);
              var done := Indexes(Work(old(tasks.items)));
        && csm.cells == Overlay(old(csm.cells), done, Mus(target))
        && sigma.rows == Overlay(old(sigma.rows), done, Sigmas(target))
        && eta.rows == Overlay(old(eta.rows), done, Etas(target))
    {
      ghost var target := SpliceTargets(l, d, csm.cells, sigma.rows, eta.rows, q.rows, esmu.rows, ess, spliceBeta, minSigma, burninState);
      assert SpliceTargetsOk(l, d, target, csm.cells, sigma.rows, eta.rows, q.rows, esmu.rows, ess, spliceBeta, minSigma, burninState);
      stopped := Drain(ess, spliceBeta, minSigma, csm.cells, sigma.rows, eta.rows, q.rows, esmu.rows, target);
    }

    /** The loop of `Run`, for the targets fixed when it starts. */
    method Drain(ess: real, spliceBeta: real, minSigma: real,
                 ghost mu0: seq<seq<seq<real>>>, ghost sigma0: seq<seq<real>>, ghost eta0: seq<seq<real>>,
                       ghost qrows: seq<seq<real>>, ghost esmu0: seq<seq<real>>,
                 ghost target: seq<SpliceView>) returns (stopped: bool)
      requires Valid() && Fits(tasks.items, l.S())
      requires csm.cells == mu0 && sigma.rows == sigma0 && eta.rows == eta0 && q.rows == qrows && esmu.rows == esmu0
      requires SpliceTargetsOk(l, d, target, mu0, sigma0, eta0, qrows, esmu0, ess, spliceBeta, minSigma, burninState)
      modifies csm, sigma, eta, tasks, notify
      ensures Valid()
      ensures Drained(old(tasks.items), tasks.items, stopped)
      ensures notify.items == old(notify.items) + Notices(|Work(old(tasks.items))|)
      ensures var done := Indexes(Work(old(tasks.items)));
        && csm.cells == Overlay(mu0, done, Mus(target))
        && sigma.rows == Overlay(sigma0, done, Sigmas(target))
        && eta.rows == Overlay(eta0, done, Etas(target))
    {
      ghost var items0 := tasks.items;
      ghost var w := Work(items0);
      ghost var m := 0;
      assert csm.cells == Overlay(mu0, Indexes(w[..0]), Mus(target));
      assert sigma.rows == Overlay(sigma0, Indexes(w[..0]), Sigmas(target));
      assert eta.rows == Overlay(eta0, Indexes(w[..0]), Etas(target));
      while true
        invariant Valid() && q.rows == qrows && esmu.rows == esmu0
        invariant m <= |w| && tasks.items == items0[m..]
        invariant notify.items == old(notify.items) + Notices(m)
        invariant csm.cells == Overlay(mu0, Indexes(w[..m]), Mus(target))
        invariant sigma.rows == Overlay(sigma0, Indexes(w[..m]), Sigmas(target))
        invariant eta.rows == Overlay(eta0, Indexes(w[..m]), Etas(target))
        decreases |tasks.items|
      {
        var more, s := Next(ess, spliceBeta, minSigma, items0, m, mu0, sigma0, eta0, qrows, esmu0, target);
        if !more {
          stopped := s;
          break;
        }
        NoticesNext(m);
        m := m + 1;
      }
    }
  }

  // ---------------------------------------------------------------------
  // ExperimentSpliceMuSigmaSamplerThread (src/analyze.cpp:820-927)
  // ---------------------------------------------------------------------

  /**
   * The new experiment splice means of spliced tgroup `j`: the k-th is drawn
   * from its current value, the experiment splice sigma and the k-th
   * transcript's mu in every condition.
   */
  function ExperimentSpliceRow(d: Draw, j: nat, row: seq<real>, muj: seq<seq<real>>, ess: real): (r: seq<real>)
    requires forall i :: 0 <= i < |muj| ==> |muj[i]| == |row|
    ensures |r| == |row|
    ensures forall k :: 0 <= k < |row| ==> r[k] == d(ExperimentSpliceMuCall(j, row[k], ess, Column(muj, k)))
  {
    seq(|row|, k requires 0 <= k < |row| => d(ExperimentSpliceMuCall(j, row[k], ess, Column(muj, k))))
  }

  /** What `ExperimentSpliceRow` makes of every spliced tgroup. */
  ghost function ExperimentSpliceTargets(l: Layout, d: Draw, esmu0: seq<seq<real>>, mu: seq<seq<seq<real>>>, ess: real): (r: seq<seq<real>>)
    requires l.Valid() && CsmShaped(l, mu) && EsmuShaped(l, esmu0)
    ensures |r| == l.S()
    ensures forall j :: 0 <= j < l.S() ==> r[j] == ExperimentSpliceRow(d, j, esmu0[j], mu[j], ess)
  {
    seq(l.S(), j requires 0 <= j < l.S() => ExperimentSpliceRow(d, j, esmu0[j], mu[j], ess))
  }

  /** The thread that draws `experiment_splice_mu` from `condition_splice_mu` (held tgroup by tgroup). */
  class ExperimentSpliceWorker {
    const l: Layout
    const d: Draw
    const csm: Cube
    const esmu: Matrix
    const tasks: Queue<IdxRange>
    const notify: Queue<int>
    /** Set by `end_burnin` and never read by `run()`. */
    var burninState: bool

    ghost predicate Valid()
      reads csm, esmu
    {
      l.Valid() && CsmShaped(l, csm.cells) && EsmuShaped(l, esmu.rows)
    }

    constructor (l: Layout, d: Draw, csm: Cube, esmu: Matrix, tasks: Queue<IdxRange>, notify: Queue<int>)
      ensures this.l == l && this.d == d && this.csm == csm && this.esmu == esmu
      ensures this.tasks == tasks && this.notify == notify
      ensures burninState
    {
      this.l := l;
      this.d := d;
      this.csm := csm;
      this.esmu := esmu;
      this.tasks := tasks;
      this.notify := notify;
      burninState := true;
    }

    /** `end_burnin`: the flag only ever goes from true to false. */
    method EndBurnin()
      modifies this
      ensures !burninState
    {
      burninState := false;
    }

    /** The body of the `for j` loop: spliced tgroup `j`, not updated before, takes its target. */
    method SampleGroup(j: nat, ess: real, ghost esmu0: seq<seq<real>>, ghost target: seq<seq<real>>, ghost seen: seq<int>)
      requires Valid() && EsmuShaped(l, esmu0) && target == ExperimentSpliceTargets(l, d, esmu0, csm.cells, ess)
      requires j < l.S() && j !in seen
      requires esmu.rows == Overlay(esmu0, seen, target)
      modifies esmu
      ensures Valid()
      ensures esmu.rows == Overlay(esmu0, seen + [j], target)
    {
      var row := ExperimentSpliceRow(d, j, esmu.rows[j], csm.cells[j], ess);
      OverlayStep(esmu0, seen, target, j);
      esmu.rows := esmu.rows[j := row];
    }

    /** The `for j` loop over one range of fresh spliced tgroups below `S`. */
    method SampleRange(r: IdxRange, ess: real, ghost esmu0: seq<seq<real>>, ghost target: seq<seq<real>>, ghost pre: seq<int>)
      requires Valid() && EsmuShaped(l, esmu0) && target == ExperimentSpliceTargets(l, d, esmu0, csm.cells, ess)
      requires forall x :: r.first <= x < r.second ==> FreshIndex(x, l.S(), pre)
      requires esmu.rows == Overlay(esmu0, pre, target)
      modifies esmu
      ensures Valid()
      ensures esmu.rows == Overlay(esmu0, pre + Span(r), target)
    {
      var j := r.first;
      while j < r.second
        invariant Valid()
        invariant r.first <= j && (j <= r.second || j == r.first)
        invariant esmu.rows == Overlay(esmu0, pre + Range(r.first, j), target)
        decreases r.second - j
      {
        RangeMembers(r.first, j, j);
        assert FreshIndex(j, l.S(), pre);
        SampleGroup(j, ess, esmu0, target, pre + Range(r.first, j));
        assert pre + Range(r.first, j + 1) == pre + Range(r.first, j) + [j];
        j := j + 1;
      }
      assert Range(r.first, j) == Span(r);
    }

    /** One pass of the `while` loop that does not stop: the m-th range of work, then its notice. */
    method ProcessRange(r: IdxRange, ess: real, ghost items0: seq<IdxRange>, ghost m: nat,
                        ghost esmu0: seq<seq<real>>, ghost target: seq<seq<real>>)
      requires Valid() && EsmuShaped(l, esmu0) && target == ExperimentSpliceTargets(l, d, esmu0, csm.cells, ess)
      requires Fits(items0, l.S()) && m < |Work(items0)| && r == Work(items0)[m]
      requires esmu.rows == Overlay(esmu0, Indexes(Work(items0)[..m]), target)
      modifies esmu, notify
      ensures Valid()
      ensures esmu.rows == Overlay(esmu0, Indexes(Work(items0)[..m + 1]), target)
      ensures notify.items == old(notify.items) + [1]
    {
      RangeFresh(items0, l.S(), m);
      SampleRange(r, ess, esmu0, target, Indexes(Work(items0)[..m]));
      IndexesStep(Work(items0), m);
      notify.Push(1);
    }

    /**
     * One pass of the `while` loop, the m-th pop: an empty queue or a stop
     * ends the drain with nothing written, a range of work is processed.
     */
    method Next(ess: real, ghost items0: seq<IdxRange>, ghost m: nat, ghost esmu0: seq<seq<real>>, ghost target: seq<seq<real>>)
        returns (more: bool, stopped: bool)
      requires Valid() && EsmuShaped(l, esmu0) && target == ExperimentSpliceTargets(l, d, esmu0, csm.cells, ess)
      requires Fits(items0, l.S()) && m <= |Work(items0)| && tasks.items == items0[m..]
      requires esmu.rows == Overlay(esmu0, Indexes(Work(items0)[..m]), target)
      modifies esmu, tasks, notify
      ensures Valid()
      ensures !more ==> && m == |Work(items0)| && Work(items0)[..m] == Work(items0) && Drained(items0, tasks.items, stopped)
                        && notify.items == old(notify.items) && esmu.rows == old(esmu.rows)
      ensures more ==> && m < |Work(items0)| && tasks.items == items0[m + 1..]
                       && notify.items == old(notify.items) + [1]
                       && esmu.rows == Overlay(esmu0, Indexes(Work(items0)[..m + 1]), target)
    {
      if tasks.items == [] {
        DrainEmpty(items0, m);
        return false, false;
      }
      var r := tasks.Pop();
      assert tasks.items == items0[m..][1..] == items0[m + 1..];
      if Stops(r) {
        DrainStop(items0, m);
        return false, true;
      }
      DrainNext(items0, m);
      ProcessRange(r, ess, items0, m, esmu0, target);
      more, stopped := true, false;
    }

    /**
     * `run()`: drains the queue of spliced tgroup ranges. Every tgroup of
     * every range before the stopping range takes the experiment splice
     * means `ExperimentSpliceRow` gives it, every other one is left alone,
     * and one notice is pushed per range.
     */
    method Run(ess: real) returns (stopped: bool)
      requires Valid() && Fits(tasks.items, l.S())
      modifies esmu, tasks, notify
      ensures Valid()
      ensures Drained(old(tasks.items), tasks.items, stopped)
      ensures notify.items == old(notify.items) + Notices(|Work(old(tasks.items))|)
      ensures esmu.rows == Overlay(old(esmu.rows), Indexes(Work(old(tasks.items))),
                                   ExperimentSpliceTargets(l, d, old(esmu.rows), csm.cells, ess))
    {
      stopped := Drain(ess, esmu.rows, ExperimentSpliceTargets(l, d, esmu.rows, csm.cells, ess));
    }

    /** The loop of `Run`, for the targets fixed when it starts. */
    method Drain(ess: real, ghost esmu0: seq<seq<real>>, ghost target: seq<seq<real>>) returns (stopped: bool)
      requires Valid() && Fits(tasks.items, l.S()) && esmu.rows == esmu0
      requires target == ExperimentSpliceTargets(l, d, esmu0, csm.cells, ess)
      modifies esmu, tasks, notify
      ensures Valid()
      ensures Drained(old(tasks.items), tasks.items, stopped)
      ensures notify.items == old(notify.items) + Notices(|Work(old(tasks.items))|)
      ensures esmu.rows == Overlay(esmu0, Indexes(Work(old(tasks.items))), target)
    {
      ghost var items0, mu := tasks.items, csm.cells;
      ghost var w := Work(items0);
      ghost var m := 0;
      assert esmu.rows == Overlay(esmu0, Indexes(w[..0]), target);
      while true
        invariant Valid() && csm.cells == mu
        invariant m <= |w| && tasks.items == items0[m..]
        invariant notify.items == old(notify.items) + Notices(m)
        invariant esmu.rows == Overlay(esmu0, Indexes(w[..m]), target)
        decreases |tasks.items|
      {
        var more, s := Next(ess, items0, m, esmu0, target);
        if !more {
          stopped := s;
          break;
        }
        NoticesNext(m);
        m := m + 1;
      }
    }
  }

  // ---------------------------------------------------------------------
  // SamplerTickThread (src/analyze.cpp:1472-1539)
  // ---------------------------------------------------------------------

  /**
   * A row of Q after copying a sampler's state into it from its start:
   * the first `|state|` entries are the state's, the rest stay.
   */
  function Overwrite(row: seq<real>, state: seq<real>): (r: seq<real>)
    ensures |r| == |row|
    ensures forall x :: 0 <= x < |row| ==> r[x] == if x < |state| then state[x] else row[x]
  {
    seq(|row|, x requires 0 <= x < |row| => if x < |state| then state[x] else row[x])
  }

  /** What row `i` of `q0` becomes when sampler `i` runs (optimises when `optimize`) and its state is copied in. */
  ghost function TickTargets(qd: QuantDraw, q0: seq<seq<real>>, hp: seq<Hyper>, optimize: bool): (r: seq<seq<real>>)
    requires |hp| == |q0|
    ensures |r| == |q0|
    ensures forall i :: 0 <= i < |q0| ==> r[i] == Overwrite(q0[i], qd(i, optimize, hp[i]))
  {
    seq(|q0|, i requires 0 <= i < |q0| => Overwrite(q0[i], qd(i, optimize, hp[i])))
  }

  /** The thread that runs one quantification sampler per popped sample index and copies its state into Q. */
  class TickWorker {
    const k: nat
    const n: nat
    const qd: QuantDraw
    const bank: SamplerBank
    const q: Matrix
    const tasks: Queue<int>
    const notify: Queue<int>
    var optimizeState: bool

    ghost predicate Valid()
      reads bank, q
    {
      Rect(q.rows, k, n) && |bank.hp| == k && tasks != notify
    }

    constructor (k: nat, n: nat, qd: QuantDraw, bank: SamplerBank, q: Matrix, tasks: Queue<int>, notify: Queue<int>)
      ensures this.k == k && this.n == n && this.qd == qd && this.bank == bank && this.q == q
      ensures this.tasks == tasks && this.notify == notify
      ensures !optimizeState
    {
      this.k := k;
      this.n := n;
      this.qd := qd;
      this.bank := bank;
      this.q := q;
      this.tasks := tasks;
      this.notify := notify;
      optimizeState := false;
    }

    /** `set_optimize_state`. */
    method SetOptimizeState(state: bool)
      modifies this
      ensures optimizeState == state
    {
      optimizeState := state;
    }

    /**
     * One popped index `i`: sampler `i` optimises when the flag is set and
     * samples otherwise, and its state is copied into row `i` of Q, which
     * no earlier pop of this drain has written.
     */
    method Tick(i: nat, ghost q0: seq<seq<real>>, ghost target: seq<seq<real>>, ghost seen: seq<int>)
      requires Valid() && Rect(q0, k, n) && target == TickTargets(qd, q0, bank.hp, optimizeState)
      requires i < k && i !in seen && q.rows == Overlay(q0, seen, target)
      modifies q
      ensures Valid()
      ensures q.rows == Overlay(q0, seen + [i], target)
    {
      var state: seq<real>;
      if optimizeState {
        state := qd(i, true, bank.hp[i]);
      } else {
        state := qd(i, false, bank.hp[i]);
      }
      OverlayStep(q0, seen, target, i);
      q.rows := q.rows[i := Overwrite(q.rows[i], state)];
    }

    /**
     * `run()`: drains the tick queue. Every row whose index comes before
     * the first -1 holds its sampler's new state, every other row is left
     * alone, and one tock is pushed per index.
     */
    method Run() returns (stopped: bool)
      requires Valid() && IdxFits(tasks.items, k)
      modifies q, tasks, notify
      ensures Valid()
      ensures DrainedIdx(old(tasks.items), tasks.items, stopped)
      ensures notify.items == old(notify.items) + Notices(|WorkIdx(old(tasks.items))|)
      ensures q.rows == Overlay(old(q.rows), WorkIdx(old(tasks.items)), TickTargets(qd, old(q.rows), bank.hp, optimizeState))
    {
      ghost var items0, q0 := tasks.items, q.rows;
      ghost var target := TickTargets(qd, q0, bank.hp, optimizeState);
      ghost var w := WorkIdx(items0);
      ghost var m := 0;
      assert q.rows == Overlay(q0, w[..0], target);
      while true
        invariant Valid()
        invariant m <= |w| && tasks.items == items0[m..]
        invariant notify.items == old(notify.items) + Notices(m)
        invariant q.rows == Overlay(q0, w[..m], target)
        decreases |tasks.items|
      {
        if tasks.items == [] {
          DrainIdxEmpty(items0, m);
          stopped := false;
          break;
        }
        var index := tasks.Pop();
        assert tasks.items == items0[m..][1..] == items0[m + 1..];
        if index == -1 {
          DrainIdxStop(items0, m);
          stopped := true;
          break;
        }
        DrainIdxNext(items0, m);
        assert index !in w[..m] by {
          forall p | 0 <= p < m ensures w[p] != w[m] { }
        }
        Tick(index, q0, target, w[..m]);
        assert w[..m + 1] == w[..m] + [index];
        notify.Push(1);
        NoticesNext(m);
        m := m + 1;
      }
    }
  }
}
