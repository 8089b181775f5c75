/** One run end to end: metrics from the fetched series, the composite score, then
    the regime step with the BTC gate the composite carries. */
module Pipeline {
  import opened Common
  import opened Config
  import opened Transforms
  import opened Metrics
  import opened Scoring
  import opened Regime

  /** The regime step applied to calculate_scores of calculate_metrics. */
  function Evaluate(c: Settings, d: RawData, s: RegimeState, now: int): (r: (RegimeState, RegimeInfo))
    requires WellSorted(d)
    ensures r == Step(c, s, CalculateScores(c, CalculateMetrics(c, d)).total,
                      CalculateScores(c, CalculateMetrics(c, d)).gate, now)
    ensures NonnegativeWeights(c) ==> -WeightSum(c) <= r.1.score <= WeightSum(c)
  {
    var composite := CalculateScores(c, CalculateMetrics(c, d));
    Step(c, s, composite.total, composite.gate, now)
  }

  /** An aggressive raw classification needs BTC prices whose last value is above a
      present, non-zero moving average; without BTC data the regime never becomes
      aggressive. */
  lemma AggressiveNeedsBtcAboveAverage(c: Settings, d: RawData, s: RegimeState, now: int)
    requires WellSorted(d)
    ensures Evaluate(c, d, s, now).0.proposed == Aggressive ==>
              |d.btc| > 0 && BtcOf(c, d.btc).gate.above == Some(true)
              && BtcOf(c, d.btc).price > BtcOf(c, d.btc).ma.value
    ensures |d.btc| == 0 && Evaluate(c, d, s, now).0.current == Aggressive ==>
              s.current == Aggressive
  {
  }

  /** When every indicator is bearish the composite is at its minimum, so a valid
      configuration whose defensive threshold is no lower than that minimum
      proposes defensive. */
  lemma UnanimousBearishProposesDefensive(c: Settings, d: RawData, s: RegimeState, now: int)
    requires WellSorted(d)
    requires Valid(c) && c.defensive >= -WeightSum(c)
    requires Unanimous(CalculateScores(c, CalculateMetrics(c, d)).individual, -1)
    ensures Evaluate(c, d, s, now).0.proposed == Defensive
  {
    ExtremesNeedUnanimity(c, CalculateMetrics(c, d));
  }
}
