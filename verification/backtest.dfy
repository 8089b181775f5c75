/** The pure helpers of backtest.py: the delta and the moving average as they
    would have been computed on a past date (only observations dated on or before
    that date are visible), the generic rule `score_metric` (in Scoring) and the
    weighted total of calculate_regime_score_at_date, which hard-codes the 28- and
    21-day lookbacks and the 200-point average. */
module Backtest {
  import opened Common
  import opened Config
  import opened Transforms
  import opened Metrics
  import opened Scoring

  /** The lookbacks calculate_regime_score_at_date passes. */
  const DeltaDaysBack: int := 28
  const StablecoinDaysBack: int := 21
  const MaWindow: nat := 200

  function DaysBack(m: Metric): int
  {
    if m == Stablecoin then StablecoinDaysBack else DeltaDaysBack
  }

  /** calculate_delta_at_date: the change from the latest observation on or before
      `t - daysBack` to the latest on or before `t`, provided at least two
      observations lie on or before `t`. Seen from the latest visible observation
      `k`, it is the change since the cutoff over the prefix ending at `k`. */
  function DeltaAtDate(s: seq<Point>, t: int, daysBack: int): (r: Option<real>)
    requires Sorted(s)
    ensures |AtOrBefore(s, t)| < 2 ==> r.None?
    ensures forall k :: LatestAtOrBefore(s, t, k) && k >= 1 ==>
              r == ChangeSince(s[..k + 1], t - daysBack)
  {
    AtOrBeforeIsPrefix(s, t);
    var visible := AtOrBefore(s, t);
    SortedPrefix(s, |visible|);
    if |visible| < 2 then None else ChangeSince(visible, t - daysBack)
  }

  /** calculate_ma_at_date: the mean of the last `window` observations dated on or
      before `t`. The mean of an empty selection (window zero, nothing visible) is
      NaN in the source and absent here. */
  function MaAtDate(s: seq<Point>, t: int, window: nat): (r: Option<real>)
    requires Sorted(s)
    ensures window >= 1 ==> (r.Some? <==> |AtOrBefore(s, t)| >= window)
    ensures window == 0 ==> (r.Some? <==> |AtOrBefore(s, t)| > 0)
    ensures r.Some? && window >= 1 ==>
              var v := Values(AtOrBefore(s, t));
              r.value == Mean(v[|v| - window..]) &&
              Min(v[|v| - window..]) <= r.value <= Max(v[|v| - window..])
    ensures r.Some? && window == 0 ==> r.value == Mean(Values(AtOrBefore(s, t)))
  {
    if |s| == 0 then None else MovingAverage(Values(AtOrBefore(s, t)), window)
  }

  /** The BTC entry of the historical score: last visible price, its 200-point
      average, and whether the price is above an average that is present and
      non-zero. */
  datatype BtcAt = BtcAt(price: real, ma: Option<real>, aboveMa: Option<bool>)

  function BtcAtDate(s: seq<Point>, t: int): (r: Option<BtcAt>)
    requires Sorted(s)
    ensures r.Some? <==> |AtOrBefore(s, t)| > 0
    ensures r.Some? ==> r.value.price == AtOrBefore(s, t)[|AtOrBefore(s, t)| - 1].1
    ensures r.Some? ==> r.value.ma == MaAtDate(s, t, MaWindow)
    ensures r.Some? ==> (r.value.aboveMa.Some? <==> r.value.ma.Some? && r.value.ma.value != 0.0)
    ensures r.Some? && r.value.aboveMa.Some? ==> (r.value.aboveMa.value <==> r.value.price > r.value.ma.value)
  {
    var visible := AtOrBefore(s, t);
    if |s| == 0 || |visible| == 0 then None
    else
      var price := visible[|visible| - 1].1;
      var ma := MaAtDate(s, t, MaWindow);
      Some(BtcAt(price, ma, if ma.Some? && ma.value != 0.0 then Some(price > ma.value) else None))
  }

  /** The result of calculate_regime_score_at_date: per indicator the delta, the
      signal and the signal times the indicator's weight; their total; the BTC entry. */
  datatype HistoricalScore = HistoricalScore(
    deltas: PerMetric<Option<real>>,
    signals: PerMetric<int>,
    weighted: PerMetric<real>,
    total: real,
    btc: Option<BtcAt>)

  function HistoricalSignal(c: Settings, m: Metric, s: seq<Point>, t: int): (r: int)
    requires Sorted(s)
    ensures -1 <= r <= 1
    ensures |AtOrBefore(s, t)| < 2 ==> r == 0
    ensures r == ScoreMetric(DeltaAtDate(s, t, DaysBack(m)), c.thresholds.Get(m), Inverted(m))
  {
    ScoreMetric(DeltaAtDate(s, t, DaysBack(m)), c.thresholds.Get(m), Inverted(m))
  }

  /** `wt` holds each signal, in {-1, 0, 1}, times its indicator's weight. */
  predicate WeightedSignals(c: Settings, sig: PerMetric<int>, wt: PerMetric<real>)
  {
    && -1 <= sig.walcl <= 1 && wt.walcl == (sig.walcl as real) * c.weights.walcl
    && -1 <= sig.rrp <= 1 && wt.rrp == (sig.rrp as real) * c.weights.rrp
    && -1 <= sig.hySpread <= 1 && wt.hySpread == (sig.hySpread as real) * c.weights.hySpread
    && -1 <= sig.dxy <= 1 && wt.dxy == (sig.dxy as real) * c.weights.dxy
    && -1 <= sig.stablecoin <= 1 && wt.stablecoin == (sig.stablecoin as real) * c.weights.stablecoin
  }

  function SumOf(wt: PerMetric<real>): real
  {
    wt.walcl + wt.rrp + wt.hySpread + wt.dxy + wt.stablecoin
  }

  function HistoricalDeltas(d: RawData, t: int): (r: PerMetric<Option<real>>)
    requires WellSorted(d)
    ensures forall m: Metric :: r.Get(m) == DeltaAtDate(d.series.Get(m), t, DaysBack(m))
  {
    PerMetric(
      DeltaAtDate(d.series.walcl, t, DaysBack(Walcl)),
      DeltaAtDate(d.series.rrp, t, DaysBack(Rrp)),
      DeltaAtDate(d.series.hySpread, t, DaysBack(HySpread)),
      DeltaAtDate(d.series.dxy, t, DaysBack(Dxy)),
      DeltaAtDate(d.series.stablecoin, t, DaysBack(Stablecoin)))
  }

  function HistoricalSignals(c: Settings, deltas: PerMetric<Option<real>>): (r: PerMetric<int>)
    ensures forall m: Metric :: r.Get(m) == ScoreMetric(deltas.Get(m), c.thresholds.Get(m), Inverted(m))
  {
    PerMetric(
      ScoreMetric(deltas.walcl, c.thresholds.walcl, false),
      ScoreMetric(deltas.rrp, c.thresholds.rrp, true),
      ScoreMetric(deltas.hySpread, c.thresholds.hySpread, true),
      ScoreMetric(deltas.dxy, c.thresholds.dxy, true),
      ScoreMetric(deltas.stablecoin, c.thresholds.stablecoin, false))
  }

  function Weigh(c: Settings, sig: PerMetric<int>): (r: PerMetric<real>)
    requires -1 <= sig.walcl <= 1 && -1 <= sig.rrp <= 1 && -1 <= sig.hySpread <= 1
    requires -1 <= sig.dxy <= 1 && -1 <= sig.stablecoin <= 1
    ensures WeightedSignals(c, sig, r)
  {
    var w := c.weights;
    PerMetric(
      (sig.walcl as real) * w.walcl, (sig.rrp as real) * w.rrp,
      (sig.hySpread as real) * w.hySpread, (sig.dxy as real) * w.dxy,
      (sig.stablecoin as real) * w.stablecoin)
  }

  /** calculate_regime_score_at_date. */
  function ScoreAtDate(c: Settings, d: RawData, t: int): (r: HistoricalScore)
    requires WellSorted(d)
    ensures forall m: Metric :: r.deltas.Get(m) == DeltaAtDate(d.series.Get(m), t, DaysBack(m))
    ensures forall m: Metric :: r.signals.Get(m) == ScoreMetric(r.deltas.Get(m), c.thresholds.Get(m), Inverted(m))
    ensures WeightedSignals(c, r.signals, r.weighted)
    ensures r.total == SumOf(r.weighted)
    ensures NonnegativeWeights(c) ==> -WeightSum(c) <= r.total <= WeightSum(c)
    ensures r.btc == BtcAtDate(d.btc, t)
  {
    var deltas := HistoricalDeltas(d, t);
    var signals := HistoricalSignals(c, deltas);
    assert -1 <= signals.Get(Walcl) <= 1 && -1 <= signals.Get(Rrp) <= 1;
    assert -1 <= signals.Get(HySpread) <= 1 && -1 <= signals.Get(Dxy) <= 1;
    assert -1 <= signals.Get(Stablecoin) <= 1;
    var weighted := Weigh(c, signals);
    WeightedSumBounds(c, signals, weighted);
    HistoricalScore(deltas, signals, weighted, SumOf(weighted), BtcAtDate(d.btc, t))
  }

  /** The weighted signals sum to within plus or minus the weight sum. */
  lemma WeightedSumBounds(c: Settings, sig: PerMetric<int>, wt: PerMetric<real>)
    requires WeightedSignals(c, sig, wt)
    ensures NonnegativeWeights(c) ==> -WeightSum(c) <= SumOf(wt) <= WeightSum(c)
  {
    SignalWithin(sig.walcl, wt.walcl, c.weights.walcl);
    SignalWithin(sig.rrp, wt.rrp, c.weights.rrp);
    SignalWithin(sig.hySpread, wt.hySpread, c.weights.hySpread);
    SignalWithin(sig.dxy, wt.dxy, c.weights.dxy);
    SignalWithin(sig.stablecoin, wt.stablecoin, c.weights.stablecoin);
  }

  /** One weighted signal lies within plus or minus its nonnegative weight. */
  lemma SignalWithin(sig: int, wt: real, w: real)
    requires -1 <= sig <= 1 && wt == (sig as real) * w
    ensures w >= 0.0 ==> -w <= wt <= w
  {
    WeightedWithin(sig, w);
  }

  // ---------------------------------------------------------------------------
  // Only the past is visible
  // ---------------------------------------------------------------------------

  /** Observations dated after `t` never pass the filter. */
  lemma {:induction false} AtOrBeforeIgnoresLater(s: seq<Point>, later: seq<Point>, t: int)
    requires forall i :: 0 <= i < |later| ==> later[i].0 > t
    ensures AtOrBefore(s + later, t) == AtOrBefore(s, t)
    decreases |later|
  {
    if |later| == 0 {
      assert s + later == s;
    } else {
      var init := later[..|later| - 1];
      assert (s + later)[..|s + later| - 1] == s + init;
      AtOrBeforeIgnoresLater(s, init, t);
    }
  }

  /** Observations all dated on or before `t` all pass the filter. */
  lemma {:induction false} AtOrBeforeKeepsEarlier(s: seq<Point>, t: int)
    requires forall i :: 0 <= i < |s| ==> s[i].0 <= t
    ensures AtOrBefore(s, t) == s
    decreases |s|
  {
    if |s| > 0 {
      AtOrBeforeKeepsEarlier(s[..|s| - 1], t);
      assert s[..|s| - 1] + [s[|s| - 1]] == s;
    }
  }

  /** The historical delta ignores every observation dated after the target date. */
  lemma DeltaAtDateIgnoresFuture(s: seq<Point>, later: seq<Point>, t: int, daysBack: int)
    requires Sorted(s + later)
    requires forall i :: 0 <= i < |later| ==> later[i].0 > t
    ensures Sorted(s)
    ensures DeltaAtDate(s + later, t, daysBack) == DeltaAtDate(s, t, daysBack)
  {
    SortedPrefix(s + later, |s|);
    assert (s + later)[..|s|] == s;
    AtOrBeforeIgnoresLater(s, later, t);
    AtOrBeforeIsPrefix(s + later, t);
    AtOrBeforeIsPrefix(s, t);
  }

  /** The historical moving average ignores every observation dated after the target. */
  lemma MaAtDateIgnoresFuture(s: seq<Point>, later: seq<Point>, t: int, window: nat)
    requires Sorted(s + later)
    requires forall i :: 0 <= i < |later| ==> later[i].0 > t
    ensures Sorted(s)
    ensures MaAtDate(s + later, t, window) == MaAtDate(s, t, window)
  {
    SortedPrefix(s + later, |s|);
    assert (s + later)[..|s|] == s;
    AtOrBeforeIgnoresLater(s, later, t);
  }

  /** On the series' last date the historical delta is the live one, as the source's
      docstring promises, once two observations exist. */
  lemma DeltaAtLastDateIsLive(s: seq<Point>, daysBack: int)
    requires Sorted(s)
    requires |s| >= 2
    ensures DeltaAtDate(s, s[|s| - 1].0, daysBack) == DeltaByDate(s, daysBack)
  {
    var t := s[|s| - 1].0;
    AtOrBeforeKeepsEarlier(s, t);
    assert s[..|s|] == s;
  }

  /** On the series' last date the historical moving average is the live one. */
  lemma MaAtLastDateIsLive(s: seq<Point>, window: nat)
    requires Sorted(s)
    requires |s| > 0
    ensures MaAtDate(s, s[|s| - 1].0, window) == MovingAverage(Values(s), window)
  {
    AtOrBeforeKeepsEarlier(s, s[|s| - 1].0);
  }

  // ---------------------------------------------------------------------------
  // Agreement with the live score
  // ---------------------------------------------------------------------------

  /** A series the live and the historical calculation see alike on date `t`: empty, or
      ending on `t` with enough history that the live delta is not withheld (the live
      acceleration-based delta needs three observations). */
  predicate Aligned(m: Metric, s: seq<Point>, t: int)
  {
    |s| == 0 || (s[|s| - 1].0 == t && (HasAcceleration(m) ==> |s| >= 3))
  }

  /** On an aligned series the historical delta under the indicator's lookback is the
      delta of the live entry, once the live lookbacks are the shipped ones. */
  lemma DeltaMatchesLive(c: Settings, m: Metric, s: seq<Point>, t: int)
    requires Sorted(s)
    requires c.deltaDays == DeltaDaysBack && c.stablecoinDays == StablecoinDaysBack
    requires Aligned(m, s, t)
    ensures DeltaAtDate(s, t, DaysBack(m)) == SnapshotOf(c, m, s).delta
  {
    if |s| >= 2 {
      DeltaAtLastDateIsLive(s, DaysBack(m));
    } else if |s| == 1 {
      OnePointHasNoDelta(s, t, DaysBack(m));
    }
  }

  /** A single observation gives neither a historical nor a live delta. */
  lemma OnePointHasNoDelta(s: seq<Point>, t: int, daysBack: int)
    requires Sorted(s) && |s| == 1
    requires daysBack > 0
    ensures DeltaAtDate(s, t, daysBack).None?
    ensures DeltaByDate(s, daysBack).None?
  {
    assert |AtOrBefore(s, t)| <= 1 by { AtOrBeforeIsPrefix(s, t); }
    ShortSeriesHasNoDelta(s, daysBack);
  }

  /** Under the shipped lookbacks, the historical signal of an aligned series is the
      live one. */
  lemma SignalMatchesLive(c: Settings, m: Metric, s: seq<Point>, t: int)
    requires Sorted(s)
    requires c.deltaDays == DeltaDaysBack && c.stablecoinDays == StablecoinDaysBack
    requires Aligned(m, s, t)
    ensures HistoricalSignal(c, m, s, t) == EntryOf(c, m, SnapshotOf(c, m, s)).signal
  {
    ScorersAreInstances(c, m, SnapshotOf(c, m, s));
    DeltaMatchesLive(c, m, s, t);
  }

  /** Weighted signals that agree with the live entries' signals sum to the live total. */
  lemma SumMatchesTotal(c: Settings, sig: PerMetric<int>, wt: PerMetric<real>, e: PerMetric<Entry>)
    requires WeightedSignals(c, sig, wt) && WeightedEntries(c, e)
    requires sig.walcl == e.walcl.signal && sig.rrp == e.rrp.signal
    requires sig.hySpread == e.hySpread.signal && sig.dxy == e.dxy.signal
    requires sig.stablecoin == e.stablecoin.signal
    ensures SumOf(wt) == TotalOf(e)
  {
  }

  /** With every series aligned on `t` and the shipped lookbacks, the historical total
      on `t` is the live composite score computed from the same data. */
  lemma TotalMatchesLive(c: Settings, d: RawData, t: int)
    requires WellSorted(d)
    requires c.deltaDays == DeltaDaysBack && c.stablecoinDays == StablecoinDaysBack
    requires Aligned(Walcl, d.series.walcl, t) && Aligned(Rrp, d.series.rrp, t)
    requires Aligned(HySpread, d.series.hySpread, t) && Aligned(Dxy, d.series.dxy, t)
    requires Aligned(Stablecoin, d.series.stablecoin, t)
    ensures ScoreAtDate(c, d, t).total == CalculateScores(c, CalculateMetrics(c, d)).total
  {
    var h := ScoreAtDate(c, d, t);
    var md := CalculateMetrics(c, d);
    var e := CalculateScores(c, md).individual;
    assert e == Entries(c, md);
    SignalMatchesLive(c, Walcl, d.series.walcl, t);
    SignalMatchesLive(c, Rrp, d.series.rrp, t);
    SignalMatchesLive(c, HySpread, d.series.hySpread, t);
    SignalMatchesLive(c, Dxy, d.series.dxy, t);
    SignalMatchesLive(c, Stablecoin, d.series.stablecoin, t);
    assert h.signals.walcl == e.walcl.signal by { assert h.signals.walcl == h.signals.Get(Walcl); }
    assert h.signals.rrp == e.rrp.signal by { assert h.signals.rrp == h.signals.Get(Rrp); }
    assert h.signals.hySpread == e.hySpread.signal by { assert h.signals.hySpread == h.signals.Get(HySpread); }
    assert h.signals.dxy == e.dxy.signal by { assert h.signals.dxy == h.signals.Get(Dxy); }
    assert h.signals.stablecoin == e.stablecoin.signal by { assert h.signals.stablecoin == h.signals.Get(Stablecoin); }
    SumMatchesTotal(c, h.signals, h.weighted, e);
  }
}
