/** The assembly step calculate_metrics (data/transforms.py): for each of the five
    scored indicators, the latest value and date, the date-based delta (with its
    acceleration for WALCL and RRP) and the trend; for BTC, the price, its moving
    average and the gate. An indicator with no observations contributes an empty
    entry, so every field of it is absent. */
module Metrics {
  import opened Common
  import opened Config
  import opened Transforms
  import opened Trend

  /** What calculate_metrics records for one indicator. */
  datatype Snapshot = Snapshot(
    current: Option<real>,
    delta: Option<real>,
    acceleration: Option<real>,
    trend: Option<Direction>,
    latestDate: Option<int>)

  /** The empty entry `{}` of an indicator without data. */
  const Empty: Snapshot := Snapshot(None, None, None, None, None)

  /** The BTC entry: absent without data, otherwise the last price, the moving
      average and the gate derived from them. */
  datatype BtcMetric =
    | NoBtc
    | Btc(price: real, ma: Option<real>, gate: Gate, latestDate: int)

  /** The fetched inputs: one date-sorted series per indicator plus BTC prices. */
  datatype RawData = RawData(series: PerMetric<seq<Point>>, btc: seq<Point>)

  predicate WellSorted(d: RawData)
  {
    && Sorted(d.series.walcl) && Sorted(d.series.rrp) && Sorted(d.series.hySpread)
    && Sorted(d.series.dxy) && Sorted(d.series.stablecoin) && Sorted(d.btc)
  }

  datatype MetricsDoc = MetricsDoc(snapshots: PerMetric<Snapshot>, btc: BtcMetric)

  /** Whether the indicator's entry carries an acceleration (the weekly balance sheet
      and the reverse repo do). */
  predicate HasAcceleration(m: Metric)
  {
    m == Walcl || m == Rrp
  }

  /** The trend window: the default 14 points, except the weekly balance sheet, whose
      window is min(8, length). */
  function TrendWindow(m: Metric, n: nat): nat
  {
    if m == Walcl then (if n < 8 then n else 8) else 14
  }

  /** The trend entry. A window of one point (a one-observation balance sheet) makes
      the degree-1 fit rank-deficient; the model leaves it absent. */
  function TrendEntry(m: Metric, v: seq<real>): (r: Option<Direction>)
    ensures TrendWindow(m, |v|) >= 2 <==> r.Some?
    ensures r.Some? ==> r.value == TrendOf(v, TrendWindow(m, |v|))
  {
    var w := TrendWindow(m, |v|);
    if w < 2 then None else Some(TrendOf(v, w))
  }

  /** The entry of one indicator. */
  function SnapshotOf(c: Settings, m: Metric, s: seq<Point>): (r: Snapshot)
    requires Sorted(s)
    ensures |s| == 0 <==> r == Empty
    ensures |s| > 0 ==> r.current == Some(s[|s| - 1].1) && r.latestDate == Some(s[|s| - 1].0)
    ensures HasAcceleration(m) && |s| >= 3 ==> r.delta == DeltaByDate(s, c.deltaDays)
    ensures HasAcceleration(m) && |s| < 3 ==> r.delta.None? && r.acceleration.None?
    ensures !HasAcceleration(m) ==> r.delta == DeltaByDate(s, DeltaWindow(c, m)) && r.acceleration.None?
    ensures r.acceleration.Some? ==> r.delta.Some?
    ensures HasAcceleration(m) ==> (r.delta, r.acceleration) == AccelerationByDate(s, c.deltaDays)
    ensures |s| > 0 ==> r.trend == TrendEntry(m, Values(s))
  {
    if |s| == 0 then Empty
    else
      var da := if HasAcceleration(m) then AccelerationByDate(s, c.deltaDays)
                else (DeltaByDate(s, DeltaWindow(c, m)), None);
      Snapshot(Some(s[|s| - 1].1), da.0, da.1, TrendEntry(m, Values(s)), Some(s[|s| - 1].0))
  }

  /** The BTC entry. */
  function BtcOf(c: Settings, s: seq<Point>): (r: BtcMetric)
    ensures |s| == 0 <==> r.NoBtc?
    ensures r.Btc? ==> r.price == s[|s| - 1].1 && r.latestDate == s[|s| - 1].0
    ensures r.Btc? ==> r.ma == MovingAverage(Values(s), c.maDays)
    ensures r.Btc? ==> r.gate == BtcGate(Some(r.price), r.ma)
  {
    if |s| == 0 then NoBtc
    else
      var price := s[|s| - 1].1;
      var ma := MovingAverage(Values(s), c.maDays);
      Btc(price, ma, BtcGate(Some(price), ma), s[|s| - 1].0)
  }

  /** calculate_metrics. */
  function CalculateMetrics(c: Settings, d: RawData): (r: MetricsDoc)
    requires WellSorted(d)
    ensures r.snapshots.walcl == SnapshotOf(c, Walcl, d.series.walcl)
    ensures r.snapshots.rrp == SnapshotOf(c, Rrp, d.series.rrp)
    ensures r.snapshots.hySpread == SnapshotOf(c, HySpread, d.series.hySpread)
    ensures r.snapshots.dxy == SnapshotOf(c, Dxy, d.series.dxy)
    ensures r.snapshots.stablecoin == SnapshotOf(c, Stablecoin, d.series.stablecoin)
    ensures r.btc == BtcOf(c, d.btc)
  {
    MetricsDoc(
      PerMetric(
        SnapshotOf(c, Walcl, d.series.walcl),
        SnapshotOf(c, Rrp, d.series.rrp),
        SnapshotOf(c, HySpread, d.series.hySpread),
        SnapshotOf(c, Dxy, d.series.dxy),
        SnapshotOf(c, Stablecoin, d.series.stablecoin)),
      BtcOf(c, d.btc))
  }

  // ---------------------------------------------------------------------------
  // Properties
  // ---------------------------------------------------------------------------

  /** Once it has two observations the balance sheet's trend is always a direction:
      its window shrinks to the series, so it is never Unknown. Every other indicator
      reports Unknown until it has 14 observations. */
  lemma TrendKnownWhenWindowFits(c: Settings, m: Metric, s: seq<Point>)
    requires Sorted(s)
    requires |s| > 0
    ensures m == Walcl && |s| >= 2 ==>
              SnapshotOf(c, m, s).trend.Some? && SnapshotOf(c, m, s).trend.value != Unknown
    ensures m != Walcl ==>
              (SnapshotOf(c, m, s).trend == Some(Unknown) <==> |s| < 14)
  {
  }

  /** With at least three observations, the delta of an accelerating indicator is the
      plain date-based delta, and its acceleration, when present, is that delta minus
      the delta the same calculation gave at the cutoff. */
  lemma AccelerationEntry(c: Settings, m: Metric, s: seq<Point>)
    requires Sorted(s)
    requires HasAcceleration(m) && |s| >= 3
    ensures SnapshotOf(c, m, s).acceleration.Some? ==>
              && PreviousDelta(s, c.deltaDays).Some?
              && SnapshotOf(c, m, s).acceleration.value
                 == DeltaByDate(s, c.deltaDays).value - PreviousDelta(s, c.deltaDays).value
  {
  }

  /** The gate of a BTC entry holds exactly when the last price is above a positive
      moving average. */
  lemma BtcGateAbove(c: Settings, s: seq<Point>)
    requires |s| > 0
    requires MovingAverage(Values(s), c.maDays).Some?
    requires MovingAverage(Values(s), c.maDays).value > 0.0
    requires s[|s| - 1].1 != 0.0
    ensures BtcOf(c, s).gate.above == Some(s[|s| - 1].1 > MovingAverage(Values(s), c.maDays).value)
  {
  }
}
