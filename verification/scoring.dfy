/** The metric scorer (backend/scoring/engine.py): five hand-written threshold
    rules, each turning an indicator's delta into a signal in {-1, 0, +1} with a
    reason, and calculate_scores, which weighs the signals into a composite score
    and passes the BTC gate through. The generic rule `ScoreMetric` is backtest.py's
    score_metric; each hand-written scorer is proved an instance of it. */
module Scoring {
  import opened Common
  import opened Config
  import opened Transforms
  import opened Metrics

  /** score_metric: a non-inverted rule gives +1 at or above the bullish threshold,
      else -1 at or below the bearish one; an inverted rule mirrors both comparisons.
      No delta, no signal. */
  function ScoreMetric(delta: Option<real>, t: Thresholds, inverted: bool): (r: int)
    ensures -1 <= r <= 1
    ensures delta.None? ==> r == 0
    ensures delta.Some? && !inverted ==>
              && (r == 1 <==> delta.value >= t.bullish)
              && (r == -1 <==> delta.value < t.bullish && delta.value <= t.bearish)
    ensures delta.Some? && inverted ==>
              && (r == 1 <==> delta.value <= t.bullish)
              && (r == -1 <==> delta.value > t.bullish && delta.value >= t.bearish)
  {
    if delta.None? then 0
    else if inverted then
      if delta.value <= t.bullish then 1
      else if delta.value >= t.bearish then -1
      else 0
    else
      if delta.value >= t.bullish then 1
      else if delta.value <= t.bearish then -1
      else 0
  }

  /** The reason a scorer gives, as a tag instead of formatted text. The flag of the
      four balance-sheet and reverse-repo tags is the "(accelerating)" suffix. */
  datatype Reason =
    | NoData
    | Expanding(accelerating: bool)
    | Contracting(accelerating: bool)
    | Draining(accelerating: bool)
    | Building(accelerating: bool)
    | Tightening
    | Widening
    | Weakening
    | Strengthening
    | Growing
    | Shrinking
    | Flat
    | Stable

  /** Python's `accel and accel > 0`: present, non-zero and positive. */
  predicate Rising(x: Option<real>)
  {
    x.Some? && x.value > 0.0
  }

  /** Python's `accel and accel < 0`. */
  predicate Falling(x: Option<real>)
  {
    x.Some? && x.value < 0.0
  }

  /** score_walcl: balance-sheet expansion is bullish. */
  function ScoreWalcl(c: Settings, s: Snapshot): (r: (int, Reason))
    ensures r.0 == ScoreMetric(s.delta, c.thresholds.walcl, false)
    ensures r.1 == NoData <==> s.delta.None?
    ensures r.1.Expanding? <==> r.0 == 1
    ensures r.1.Contracting? <==> r.0 == -1
    ensures r.1 == Flat <==> s.delta.Some? && r.0 == 0
    ensures r.1.Expanding? ==> (r.1.accelerating <==> Rising(s.acceleration))
    ensures r.1.Contracting? ==> (r.1.accelerating <==> Falling(s.acceleration))
  {
    var t := c.thresholds.walcl;
    match s.delta
    case None => (0, NoData)
    case Some(d) =>
      if d >= t.bullish then (1, Expanding(Rising(s.acceleration)))
      else if d <= t.bearish then (-1, Contracting(Falling(s.acceleration)))
      else (0, Flat)
  }

  /** score_rrp: inverted, a reverse-repo drawdown is bullish. */
  function ScoreRrp(c: Settings, s: Snapshot): (r: (int, Reason))
    ensures r.0 == ScoreMetric(s.delta, c.thresholds.rrp, true)
    ensures r.1 == NoData <==> s.delta.None?
    ensures r.1.Draining? <==> r.0 == 1
    ensures r.1.Building? <==> r.0 == -1
    ensures r.1 == Stable <==> s.delta.Some? && r.0 == 0
    ensures r.1.Draining? ==> (r.1.accelerating <==> Falling(s.acceleration))
    ensures r.1.Building? ==> (r.1.accelerating <==> Rising(s.acceleration))
  {
    var t := c.thresholds.rrp;
    match s.delta
    case None => (0, NoData)
    case Some(d) =>
      if d <= t.bullish then (1, Draining(Falling(s.acceleration)))
      else if d >= t.bearish then (-1, Building(Rising(s.acceleration)))
      else (0, Stable)
  }

  /** score_hy_spread: inverted, tightening spreads are bullish. */
  function ScoreHySpread(c: Settings, s: Snapshot): (r: (int, Reason))
    ensures r.0 == ScoreMetric(s.delta, c.thresholds.hySpread, true)
    ensures r.1 == NoData <==> s.delta.None?
    ensures r.1.Tightening? <==> r.0 == 1
    ensures r.1.Widening? <==> r.0 == -1
    ensures r.1 == Stable <==> s.delta.Some? && r.0 == 0
  {
    var t := c.thresholds.hySpread;
    match s.delta
    case None => (0, NoData)
    case Some(d) =>
      if d <= t.bullish then (1, Tightening)
      else if d >= t.bearish then (-1, Widening)
      else (0, Stable)
  }

  /** score_dxy: inverted, a weakening dollar is bullish. */
  function ScoreDxy(c: Settings, s: Snapshot): (r: (int, Reason))
    ensures r.0 == ScoreMetric(s.delta, c.thresholds.dxy, true)
    ensures r.1 == NoData <==> s.delta.None?
    ensures r.1.Weakening? <==> r.0 == 1
    ensures r.1.Strengthening? <==> r.0 == -1
    ensures r.1 == Stable <==> s.delta.Some? && r.0 == 0
  {
    var t := c.thresholds.dxy;
    match s.delta
    case None => (0, NoData)
    case Some(d) =>
      if d <= t.bullish then (1, Weakening)
      else if d >= t.bearish then (-1, Strengthening)
      else (0, Stable)
  }

  /** score_stablecoin: supply growth is bullish. */
  function ScoreStablecoin(c: Settings, s: Snapshot): (r: (int, Reason))
    ensures r.0 == ScoreMetric(s.delta, c.thresholds.stablecoin, false)
    ensures r.1 == NoData <==> s.delta.None?
    ensures r.1.Growing? <==> r.0 == 1
    ensures r.1.Shrinking? <==> r.0 == -1
    ensures r.1 == Flat <==> s.delta.Some? && r.0 == 0
  {
    var t := c.thresholds.stablecoin;
    match s.delta
    case None => (0, NoData)
    case Some(d) =>
      if d >= t.bullish then (1, Growing)
      else if d <= t.bearish then (-1, Shrinking)
      else (0, Flat)
  }

  /** The hand-written scorer of an indicator. */
  function Score(c: Settings, m: Metric, s: Snapshot): (r: (int, Reason))
    ensures -1 <= r.0 <= 1
  {
    match m
    case Walcl => ScoreWalcl(c, s)
    case Rrp => ScoreRrp(c, s)
    case HySpread => ScoreHySpread(c, s)
    case Dxy => ScoreDxy(c, s)
    case Stablecoin => ScoreStablecoin(c, s)
  }

  /** One entry of `individual`: signal, weighted signal, reason and weight. */
  datatype Entry = Entry(signal: int, weighted: real, reason: Reason, weight: real)

  function EntryOf(c: Settings, m: Metric, s: Snapshot): (r: Entry)
    ensures r.signal == Score(c, m, s).0 && r.reason == Score(c, m, s).1
    ensures WeightedEntry(r, c.weights.Get(m))
  {
    var (signal, reason) := Score(c, m, s);
    Entry(signal, (signal as real) * c.weights.Get(m), reason, c.weights.Get(m))
  }

  /** The five entries of `individual`. */
  function Entries(c: Settings, md: MetricsDoc): (e: PerMetric<Entry>)
    ensures forall m: Metric :: e.Get(m) == EntryOf(c, m, md.snapshots.Get(m))
    ensures WeightedEntries(c, e)
  {
    PerMetric(
      EntryOf(c, Walcl, md.snapshots.walcl),
      EntryOf(c, Rrp, md.snapshots.rrp),
      EntryOf(c, HySpread, md.snapshots.hySpread),
      EntryOf(c, Dxy, md.snapshots.dxy),
      EntryOf(c, Stablecoin, md.snapshots.stablecoin))
  }

  /** The result of calculate_scores. `gate` is `btc_above_200dma`: false when the
      BTC entry is missing, otherwise whatever the entry holds (possibly absent). */
  datatype Composite = Composite(
    individual: PerMetric<Entry>,
    total: real,
    maxPossible: real,
    minPossible: real,
    gate: Option<bool>,
    distance: Option<real>)

  function TotalOf(e: PerMetric<Entry>): real
  {
    e.walcl.weighted + e.rrp.weighted + e.hySpread.weighted + e.dxy.weighted + e.stablecoin.weighted
  }

  /** The weights are nonnegative, which the composite bounds need. */
  predicate NonnegativeWeights(c: Settings)
  {
    var w := c.weights;
    w.walcl >= 0.0 && w.rrp >= 0.0 && w.hySpread >= 0.0 && w.dxy >= 0.0 && w.stablecoin >= 0.0
  }

  /** Every indicator gives the signal `s`. */
  predicate Unanimous(e: PerMetric<Entry>, s: int)
  {
    e.walcl.signal == s && e.rrp.signal == s && e.hySpread.signal == s
    && e.dxy.signal == s && e.stablecoin.signal == s
  }

  /** calculate_scores. */
  function CalculateScores(c: Settings, md: MetricsDoc): (r: Composite)
    ensures forall m: Metric :: r.individual.Get(m) == EntryOf(c, m, md.snapshots.Get(m))
    ensures WeightedEntries(c, r.individual)
    ensures r.total == TotalOf(r.individual)
    ensures r.maxPossible == WeightSum(c) && r.minPossible == -WeightSum(c)
    ensures NonnegativeWeights(c) ==> r.minPossible <= r.total <= r.maxPossible
    ensures md.btc.NoBtc? ==> r.gate == Some(false) && r.distance.None?
    ensures md.btc.Btc? ==> r.gate == md.btc.gate.above && r.distance == md.btc.gate.distance
  {
    var e := Entries(c, md);
    var gate := if md.btc.NoBtc? then Some(false) else md.btc.gate.above;
    var distance := if md.btc.NoBtc? then None else md.btc.gate.distance;
    TotalBounds(c, e);
    Composite(e, TotalOf(e), WeightSum(c), -WeightSum(c), gate, distance)
  }

  // ---------------------------------------------------------------------------
  // Properties of the rule
  // ---------------------------------------------------------------------------

  /** Every hand-written scorer is the generic rule applied to the indicator's own
      thresholds and direction, and reports "No data" exactly when the delta is
      missing. */
  lemma ScorersAreInstances(c: Settings, m: Metric, s: Snapshot)
    ensures Score(c, m, s).0 == ScoreMetric(s.delta, c.thresholds.Get(m), Inverted(m))
    ensures Score(c, m, s).1 == NoData <==> s.delta.None?
  {
    match m
    case Walcl =>
    case Rrp =>
    case HySpread =>
    case Dxy =>
    case Stablecoin =>
  }

  /** Acceleration changes only the reason, never the signal. */
  lemma AccelerationOnlyAffectsReason(c: Settings, m: Metric, s: Snapshot, a: Option<real>)
    ensures Score(c, m, s.(acceleration := a)).0 == Score(c, m, s).0
  {
    ScorersAreInstances(c, m, s);
    ScorersAreInstances(c, m, s.(acceleration := a));
  }

  /** The rule is monotone in the delta: upward for a non-inverted indicator,
      downward for an inverted one, whatever the thresholds. */
  lemma ScoreMonotone(d1: real, d2: real, t: Thresholds, inverted: bool)
    requires d1 <= d2
    ensures !inverted ==> ScoreMetric(Some(d1), t, inverted) <= ScoreMetric(Some(d2), t, inverted)
    ensures inverted ==> ScoreMetric(Some(d1), t, inverted) >= ScoreMetric(Some(d2), t, inverted)
  {
  }

  /** An inverted rule is the plain rule applied to the negated delta and negated
      thresholds. */
  lemma InvertedIsMirror(d: real, t: Thresholds)
    ensures ScoreMetric(Some(d), t, true)
         == ScoreMetric(Some(-d), Thresholds(-t.bullish, -t.bearish), false)
  {
  }

  /** Under well-formed thresholds an unchanged indicator is neutral, and a move gives
      a signal of the move's direction (bullish direction for inverted indicators is
      down). */
  lemma WellFormedRuleSigns(m: Metric, t: Thresholds, d: real)
    requires RuleWellFormed(m, t)
    ensures ScoreMetric(Some(0.0), t, Inverted(m)) == 0
    ensures d >= 0.0 ==> (if Inverted(m) then ScoreMetric(Some(d), t, true) <= 0
                          else ScoreMetric(Some(d), t, false) >= 0)
    ensures d <= 0.0 ==> (if Inverted(m) then ScoreMetric(Some(d), t, true) >= 0
                          else ScoreMetric(Some(d), t, false) <= 0)
  {
    if d >= 0.0 {
      ScoreMonotone(0.0, d, t, Inverted(m));
    } else {
      ScoreMonotone(d, 0.0, t, Inverted(m));
    }
  }

  // ---------------------------------------------------------------------------
  // Properties of the composite
  // ---------------------------------------------------------------------------

  /** A signal in {-1, 0, 1} times a weight: within the weight when the weight is
      nonnegative, and at either bound exactly for the matching signal when it is
      positive. */
  lemma WeightedWithin(signal: int, w: real)
    requires -1 <= signal <= 1
    ensures w >= 0.0 ==> -w <= (signal as real) * w <= w
    ensures w > 0.0 ==> ((signal as real) * w == w <==> signal == 1)
    ensures w > 0.0 ==> ((signal as real) * w == -w <==> signal == -1)
  {
    if signal == 1 {
      assert (signal as real) * w == w;
    } else if signal == 0 {
      assert (signal as real) * w == 0.0;
    } else {
      assert (signal as real) * w == -w;
    }
  }

  /** An entry as calculate_scores builds it: a signal in {-1, 0, 1} weighted by `w`. */
  predicate WeightedEntry(e: Entry, w: real)
  {
    -1 <= e.signal <= 1 && e.weight == w && e.weighted == (e.signal as real) * w
  }

  predicate WeightedEntries(c: Settings, e: PerMetric<Entry>)
  {
    && WeightedEntry(e.walcl, c.weights.walcl)
    && WeightedEntry(e.rrp, c.weights.rrp)
    && WeightedEntry(e.hySpread, c.weights.hySpread)
    && WeightedEntry(e.dxy, c.weights.dxy)
    && WeightedEntry(e.stablecoin, c.weights.stablecoin)
  }

  /** Each weighted entry lies within plus or minus its weight, and at a bound exactly
      for the matching signal. */
  lemma EntryWithin(e: Entry, w: real)
    requires WeightedEntry(e, w)
    ensures w >= 0.0 ==> -w <= e.weighted <= w
    ensures w > 0.0 ==> (e.weighted == w <==> e.signal == 1)
    ensures w > 0.0 ==> (e.weighted == -w <==> e.signal == -1)
  {
    WeightedWithin(e.signal, w);
  }

  /** The weighted entries sum to within plus or minus the weight sum. */
  lemma TotalBounds(c: Settings, e: PerMetric<Entry>)
    requires WeightedEntries(c, e)
    ensures NonnegativeWeights(c) ==> -WeightSum(c) <= TotalOf(e) <= WeightSum(c)
  {
    EntryWithin(e.walcl, c.weights.walcl);
    EntryWithin(e.rrp, c.weights.rrp);
    EntryWithin(e.hySpread, c.weights.hySpread);
    EntryWithin(e.dxy, c.weights.dxy);
    EntryWithin(e.stablecoin, c.weights.stablecoin);
  }

  /** Under positive weights the composite reaches its maximum exactly when every
      indicator is bullish, and its minimum exactly when every one is bearish. */
  lemma ExtremesNeedUnanimity(c: Settings, md: MetricsDoc)
    requires Valid(c)
    ensures CalculateScores(c, md).total == WeightSum(c) <==> Unanimous(CalculateScores(c, md).individual, 1)
    ensures CalculateScores(c, md).total == -WeightSum(c) <==> Unanimous(CalculateScores(c, md).individual, -1)
  {
    var e := CalculateScores(c, md).individual;
    WeightsPositive(c);
    EntryWithin(e.walcl, c.weights.walcl);
    EntryWithin(e.rrp, c.weights.rrp);
    EntryWithin(e.hySpread, c.weights.hySpread);
    EntryWithin(e.dxy, c.weights.dxy);
    EntryWithin(e.stablecoin, c.weights.stablecoin);
  }

  /** An indicator without data contributes nothing to the composite. */
  lemma MissingDataIsNeutral(c: Settings, md: MetricsDoc, m: Metric)
    requires md.snapshots.Get(m).delta.None?
    ensures CalculateScores(c, md).individual.Get(m).signal == 0
    ensures CalculateScores(c, md).individual.Get(m).weighted == 0.0
    ensures CalculateScores(c, md).individual.Get(m).reason == NoData
  {
    ScorersAreInstances(c, m, md.snapshots.Get(m));
  }
}
