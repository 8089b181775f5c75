/** The tunable constants of the regime engine as one configuration record:
    per-indicator weights and thresholds, the regime score thresholds, the
    hysteresis settings and the lookback windows. Lemmas elsewhere hold for
    every configuration satisfying `Valid`, not only for the shipped one. */
module Config {

  /** The five scored liquidity indicators. */
  datatype Metric = Walcl | Rrp | HySpread | Dxy | Stablecoin

  /** One value per scored indicator (the source keys these dicts by name). */
  datatype PerMetric<T> = PerMetric(walcl: T, rrp: T, hySpread: T, dxy: T, stablecoin: T)
  {
    function Get(m: Metric): T
    {
      match m
      case Walcl => walcl
      case Rrp => rrp
      case HySpread => hySpread
      case Dxy => dxy
      case Stablecoin => stablecoin
    }
  }

  /** Whether a falling delta is the bullish direction. The source fixes this per
      indicator: reverse-repo drawdown, spread tightening and a weakening dollar are
      bullish; balance-sheet and stablecoin growth are bullish the usual way. */
  predicate Inverted(m: Metric)
  {
    m == Rrp || m == HySpread || m == Dxy
  }

  datatype Thresholds = Thresholds(bullish: real, bearish: real)

  datatype Settings = Settings(
    weights: PerMetric<real>,
    thresholds: PerMetric<Thresholds>,
    aggressive: real,              // composite score at or above which (gate permitting) the raw regime is aggressive
    defensive: real,               // composite score at or below which the raw regime is defensive
    consecutiveDaysRequired: int,  // identical raw classifications needed before a flip
    marginOverride: real,          // distance past a threshold that bypasses the waiting period
    deltaDays: int,                // lookback of the 4-week deltas
    stablecoinDays: int,           // lookback of the stablecoin delta
    maDays: nat)                   // sample count of the BTC moving average

  function WeightSum(c: Settings): real
  {
    c.weights.walcl + c.weights.rrp + c.weights.hySpread + c.weights.dxy + c.weights.stablecoin
  }

  /** The date lookback used for an indicator's delta. */
  function DeltaWindow(c: Settings, m: Metric): int
  {
    if m == Stablecoin then c.stablecoinDays else c.deltaDays
  }

  /** Thresholds point the right way: for an inverted indicator the bullish threshold
      is a decline and the bearish one a rise, and the other way round otherwise. */
  predicate RuleWellFormed(m: Metric, t: Thresholds)
  {
    if Inverted(m) then t.bullish < 0.0 < t.bearish else t.bearish < 0.0 < t.bullish
  }

  predicate Valid(c: Settings)
  {
    && (forall m: Metric :: c.weights.Get(m) > 0.0)
    && (forall m: Metric :: RuleWellFormed(m, c.thresholds.Get(m)))
    && c.defensive < c.aggressive
    && c.consecutiveDaysRequired >= 1
    && c.marginOverride > 0.0
    && c.deltaDays >= 1
    && c.stablecoinDays >= 1
    && c.maDays >= 1
  }

  /** The constants shipped in config.py. */
  const Shipped: Settings := Settings(
    PerMetric(1.5, 1.5, 1.5, 1.0, 1.0),
    PerMetric(
      Thresholds(0.005, -0.005),
      Thresholds(-0.05, 0.05),
      Thresholds(-0.10, 0.10),
      Thresholds(-0.008, 0.008),
      Thresholds(0.035, -0.035)),
    4.0, -4.0,
    2, 1.0,
    28, 21, 200)

  /** The shipped constants are a valid configuration, their weights sum to the
      6.5 of the dashboard gauge, and every threshold pair is symmetric. */
  lemma ShippedIsValid()
    ensures Valid(Shipped)
    ensures WeightSum(Shipped) == 6.5
    ensures forall m: Metric :: Shipped.thresholds.Get(m).bullish == -Shipped.thresholds.Get(m).bearish
    ensures Shipped.aggressive == 4.0 && Shipped.defensive == -4.0
    ensures Shipped.consecutiveDaysRequired == 2 && Shipped.marginOverride == 1.0
    ensures Shipped.deltaDays == 28 && Shipped.stablecoinDays == 21 && Shipped.maDays == 200
  {
  }

  /** Under a valid configuration every weight is positive. */
  lemma WeightsPositive(c: Settings)
    requires Valid(c)
    ensures c.weights.walcl > 0.0 && c.weights.rrp > 0.0 && c.weights.hySpread > 0.0
    ensures c.weights.dxy > 0.0 && c.weights.stablecoin > 0.0
  {
    assert c.weights.Get(Walcl) > 0.0;
    assert c.weights.Get(Rrp) > 0.0;
    assert c.weights.Get(HySpread) > 0.0;
    assert c.weights.Get(Dxy) > 0.0;
    assert c.weights.Get(Stablecoin) > 0.0;
  }

  /** Under a valid configuration the weights are positive, so their sum is too. */
  lemma WeightSumPositive(c: Settings)
    requires Valid(c)
    ensures WeightSum(c) > 0.0
  {
    WeightsPositive(c);
  }
}
