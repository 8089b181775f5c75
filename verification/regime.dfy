/** Regime classification with hysteresis (scoring/regime.py). The composite score
    and the BTC gate give a raw classification; the reported regime only changes
    after the same raw classification has been seen on enough consecutive runs, or
    at once when the score is far enough past the threshold. The state carried from
    run to run is persisted as a JSON document, keeping only the last 30 scores. */
module Regime {
  import opened Common
  import opened Config

  datatype Regime = Aggressive | Balanced | Defensive

  /** The carried state. `startTime` is the wall-clock time of the last flip in
      seconds (the source stores it as an ISO timestamp). */
  datatype RegimeState = RegimeState(
    current: Regime,
    proposed: Regime,
    consecutiveDays: int,
    lastScore: real,
    startTime: Option<int>,
    history: seq<real>)

  /** The state a first run starts from. */
  const Default: RegimeState := RegimeState(Balanced, Balanced, 0, 0.0, None, [])

  /** The direction of the recent scores. */
  datatype Drift = Improving | Deteriorating | Flat

  /** What one run reports besides the new state. */
  datatype RegimeInfo = RegimeInfo(
    regime: Regime,
    proposed: Regime,
    score: real,
    gatePassed: Option<bool>,
    consecutiveDays: int,
    daysInRegime: Option<int>,
    trend: Drift,
    pendingFlip: bool,
    daysUntilFlip: Option<int>)

  const SecondsPerDay: int := 86400

  /** Scores kept when the state is saved. */
  const HistoryKept: nat := 30

  /** Orders the regimes from defensive to aggressive. */
  function Rank(g: Regime): int
  {
    match g
    case Defensive => 0
    case Balanced => 1
    case Aggressive => 2
  }

  // ---------------------------------------------------------------------------
  // Raw classification and the flip rule
  // ---------------------------------------------------------------------------

  /** classify_regime: aggressive needs the score at or above the aggressive
      threshold and a gate that is present and true; otherwise defensive at or below
      the defensive threshold; otherwise balanced. An absent gate counts as closed. */
  function Classify(c: Settings, score: real, gate: Option<bool>): (r: Regime)
    ensures r == Aggressive ==> score >= c.aggressive && gate == Some(true)
    ensures r == Defensive ==> score <= c.defensive
    ensures r == Balanced ==> score > c.defensive
    ensures score >= c.aggressive && gate == Some(true) ==> r == Aggressive
  {
    if score >= c.aggressive && gate == Some(true) then Aggressive
    else if score <= c.defensive then Defensive
    else Balanced
  }

  /** The score is far enough inside the proposed regime's band to flip without
      waiting: past the aggressive threshold by the margin, below the defensive one by
      the margin, or at least the margin away from both for balanced. */
  predicate MarginPasses(c: Settings, proposed: Regime, score: real)
  {
    match proposed
    case Aggressive => score >= c.aggressive + c.marginOverride
    case Defensive => score <= c.defensive - c.marginOverride
    case Balanced =>
      var toAggressive := c.aggressive - score;
      var toDefensive := score - c.defensive;
      (if toAggressive <= toDefensive then toAggressive else toDefensive) >= c.marginOverride
  }

  /** should_flip_regime. */
  function ShouldFlip(c: Settings, current: Regime, proposed: Regime, consecutiveDays: int, score: real): (r: bool)
    ensures current == proposed ==> !r
    ensures current != proposed ==>
              (r <==> consecutiveDays >= c.consecutiveDaysRequired || MarginPasses(c, proposed, score))
  {
    if current == proposed then false
    else if consecutiveDays >= c.consecutiveDaysRequired then true
    else MarginPasses(c, proposed, score)
  }

  // ---------------------------------------------------------------------------
  // The score trend
  // ---------------------------------------------------------------------------

  /** The mean of the last three scores and the mean of the two before them. */
  function RecentMean(h: seq<real>): real
    requires |h| >= 5
  {
    (h[|h| - 3] + h[|h| - 2] + h[|h| - 1]) / 3.0
  }

  function PriorMean(h: seq<real>): real
    requires |h| >= 5
  {
    (h[|h| - 5] + h[|h| - 4]) / 2.0
  }

  /** The score trend of determine_regime: flat with fewer than five scores;
      otherwise improving when the last three average more than half a point above
      the two before them, deteriorating when more than half a point below. */
  function ScoreTrend(h: seq<real>): (r: Drift)
    ensures |h| < 5 ==> r == Flat
    ensures r == Improving ==> RecentMean(h) > PriorMean(h) + 0.5
    ensures r == Deteriorating ==> RecentMean(h) < PriorMean(h) - 0.5
    ensures |h| >= 5 && r == Flat ==> PriorMean(h) - 0.5 <= RecentMean(h) <= PriorMean(h) + 0.5
  {
    if |h| < 5 then Flat
    else if RecentMean(h) > PriorMean(h) + 0.5 then Improving
    else if RecentMean(h) < PriorMean(h) - 0.5 then Deteriorating
    else Flat
  }

  // ---------------------------------------------------------------------------
  // One run
  // ---------------------------------------------------------------------------

  /** The consecutive count after seeing `raw`: one more when it repeats the
      previous raw classification, otherwise a fresh count of one. */
  function Counted(s: RegimeState, raw: Regime): int
  {
    if raw == s.proposed then s.consecutiveDays + 1 else 1
  }

  /** Whole days elapsed since the last flip; `timedelta.days` rounds down, which is
      Euclidean division by a positive divisor. */
  function DaysSince(start: Option<int>, now: int): (r: Option<int>)
    ensures r.Some? <==> start.Some?
    ensures r.Some? ==> r.value * SecondsPerDay <= now - start.value < (r.value + 1) * SecondsPerDay
  {
    if start.Some? then Some((now - start.value) / SecondsPerDay) else None
  }

  /** The state the source accepts as carried over: a nonnegative counter. */
  predicate WellFormed(s: RegimeState)
  {
    s.consecutiveDays >= 0
  }

  /** A pending change (raw classification differing from the reported regime) has
      been seen on fewer consecutive runs than a flip requires. */
  predicate Settled(c: Settings, s: RegimeState)
  {
    s.current != s.proposed ==> 1 <= s.consecutiveDays < c.consecutiveDaysRequired
  }

  /** determine_regime for a given state: classify, record the score, count, flip,
      and report. `now` stands for the wall clock, read once. */
  function Step(c: Settings, s: RegimeState, score: real, gate: Option<bool>, now: int): (r: (RegimeState, RegimeInfo))
    ensures r.0.proposed == Classify(c, score, gate)
    ensures r.0.history == s.history + [score] && r.0.lastScore == score
    ensures r.0.current == s.current || r.0.current == Classify(c, score, gate)
    ensures r.0.current != s.current ==>
              Counted(s, r.0.proposed) >= c.consecutiveDaysRequired || MarginPasses(c, r.0.proposed, score)
    ensures Classify(c, score, gate) != s.current
            && (Counted(s, Classify(c, score, gate)) >= c.consecutiveDaysRequired
                || MarginPasses(c, Classify(c, score, gate), score)) ==>
              r.0.current == Classify(c, score, gate)
    ensures r.0.current != s.current ==> r.0.consecutiveDays == 0 && r.0.startTime == Some(now)
    ensures r.0.current == s.current ==>
              r.0.startTime == s.startTime && r.0.consecutiveDays == Counted(s, r.0.proposed)
    ensures r.0.current == s.current && r.0.current != r.0.proposed ==>
              r.0.consecutiveDays < c.consecutiveDaysRequired && !MarginPasses(c, r.0.proposed, score)
    ensures WellFormed(s) ==> WellFormed(r.0) && Settled(c, r.0)
    ensures r.1.regime == r.0.current && r.1.proposed == r.0.proposed
    ensures r.1.score == score && r.1.gatePassed == gate
    ensures r.1.consecutiveDays == r.0.consecutiveDays
    ensures r.1.daysInRegime == DaysSince(r.0.startTime, now)
    ensures r.1.trend == ScoreTrend(r.0.history)
    ensures r.1.pendingFlip <==> r.0.current != r.0.proposed
    ensures r.1.daysUntilFlip.Some? <==> r.1.pendingFlip
    ensures r.1.daysUntilFlip.Some? ==>
              r.1.daysUntilFlip.value == c.consecutiveDaysRequired - r.0.consecutiveDays >= 0
    ensures WellFormed(s) && r.1.daysUntilFlip.Some? ==> r.1.daysUntilFlip.value >= 1
  {
    var raw := Classify(c, score, gate);
    var counted := Counted(s, raw);
    var flip := ShouldFlip(c, s.current, raw, counted, score);
    var next := RegimeState(
      if flip then raw else s.current,
      raw,
      if flip then 0 else counted,
      score,
      if flip then Some(now) else s.startTime,
      s.history + [score]);
    var pending := raw != next.current;
    var untilFlip := if pending then Some(Max2(0, c.consecutiveDaysRequired - next.consecutiveDays)) else None;
    (next, RegimeInfo(next.current, raw, score, gate, next.consecutiveDays,
                      DaysSince(next.startTime, now), ScoreTrend(next.history), pending, untilFlip))
  }

  function Max2(a: int, b: int): (r: int)
    ensures r >= a && r >= b && (r == a || r == b)
  {
    if a >= b then a else b
  }

  // ---------------------------------------------------------------------------
  // Persistence
  // ---------------------------------------------------------------------------

  /** The saved JSON document; a missing key is None. A key present with a JSON
      null is not modelled. */
  datatype Document = Document(
    current: Option<Regime>,
    proposed: Option<Regime>,
    consecutiveDays: Option<int>,
    lastScore: Option<real>,
    startTime: Option<int>,
    history: Option<seq<real>>)

  const EmptyDocument: Document := Document(None, None, None, None, None, None)

  /** RegimeState.to_dict: every field, with only the last 30 scores. */
  function ToDict(s: RegimeState): (d: Document)
    ensures d.current.Some? && d.proposed.Some? && d.consecutiveDays.Some?
    ensures d.lastScore.Some? && d.history.Some?
    ensures |d.history.value| <= HistoryKept
    ensures d.history.value == LastN(s.history, HistoryKept)
  {
    Document(Some(s.current), Some(s.proposed), Some(s.consecutiveDays), Some(s.lastScore),
             s.startTime, Some(LastN(s.history, HistoryKept)))
  }

  /** RegimeState.from_dict: each missing key takes the default state's value. */
  function FromDict(d: Document): (s: RegimeState)
    ensures d.current.None? ==> s.current == Balanced
    ensures d.current.Some? ==> s.current == d.current.value
    ensures d.proposed.None? ==> s.proposed == Balanced
    ensures d.proposed.Some? ==> s.proposed == d.proposed.value
    ensures d.consecutiveDays.None? ==> s.consecutiveDays == 0
    ensures d.consecutiveDays.Some? ==> s.consecutiveDays == d.consecutiveDays.value
    ensures d.lastScore.None? ==> s.lastScore == 0.0
    ensures d.lastScore.Some? ==> s.lastScore == d.lastScore.value
    ensures s.startTime == d.startTime
    ensures d.history.None? ==> s.history == []
    ensures d.history.Some? ==> s.history == d.history.value
  {
    RegimeState(
      d.current.GetOr(Default.current),
      d.proposed.GetOr(Default.proposed),
      d.consecutiveDays.GetOr(Default.consecutiveDays),
      d.lastScore.GetOr(Default.lastScore),
      d.startTime,
      d.history.GetOr(Default.history))
  }

  /** load_regime_state: `file` is None when the file is missing or does not parse. */
  function Load(file: Option<Document>): (s: RegimeState)
    ensures file.None? ==> s == Default
    ensures file.Some? ==> s == FromDict(file.value)
  {
    if file.Some? then FromDict(file.value) else Default
  }

  /** The state determine_regime works on: the one passed in, else the one loaded
      from the state file when a file is named, else the default. */
  function Initial(state: Option<RegimeState>, file: Option<Option<Document>>): (s: RegimeState)
    ensures state.Some? ==> s == state.value
    ensures state.None? && file.None? ==> s == Default
    ensures state.None? && file.Some? ==> s == Load(file.value)
  {
    if state.Some? then state.value else if file.Some? then Load(file.value) else Default
  }

  // ---------------------------------------------------------------------------
  // Properties
  // ---------------------------------------------------------------------------

  /** With the thresholds in order, the defensive classification is exactly a score
      at or below the defensive threshold, and a closed gate never classifies as
      aggressive. */
  lemma ClassifyBands(c: Settings, score: real, gate: Option<bool>)
    requires c.defensive < c.aggressive
    ensures Classify(c, score, gate) == Defensive <==> score <= c.defensive
    ensures gate != Some(true) ==> Classify(c, score, gate) != Aggressive
    ensures Classify(c, score, gate) == Balanced <==>
              c.defensive < score && (score < c.aggressive || gate != Some(true))
  {
  }

  /** A higher score never classifies lower, and opening the gate never classifies
      lower. */
  lemma ClassifyMonotone(c: Settings, s1: real, s2: real, g1: Option<bool>, g2: Option<bool>)
    requires c.defensive < c.aggressive
    requires s1 <= s2
    requires g1 == Some(true) ==> g2 == Some(true)
    ensures Rank(Classify(c, s1, g1)) <= Rank(Classify(c, s2, g2))
  {
  }

  /** A flip through the margin only happens for a score strictly inside the
      proposed regime's band: the margin is positive, so the score is past the
      threshold, or strictly between both for balanced. */
  lemma MarginMeansClearBand(c: Settings, proposed: Regime, score: real)
    requires c.marginOverride > 0.0
    requires MarginPasses(c, proposed, score)
    ensures proposed == Aggressive ==> score > c.aggressive
    ensures proposed == Defensive ==> score < c.defensive
    ensures proposed == Balanced ==> c.defensive < score < c.aggressive
  {
  }

  /** The margin test for the raw classification agrees with the classification: a
      score that passes the balanced margin classifies as balanced, one past the
      defensive margin as defensive, and one past the aggressive margin as
      aggressive when the gate is open. */
  lemma MarginAgreesWithClassify(c: Settings, score: real, gate: Option<bool>)
    requires Valid(c)
    ensures MarginPasses(c, Balanced, score) ==> Classify(c, score, gate) == Balanced
    ensures MarginPasses(c, Defensive, score) ==> Classify(c, score, gate) == Defensive
    ensures MarginPasses(c, Aggressive, score) && gate == Some(true) ==> Classify(c, score, gate) == Aggressive
  {
  }

  /** The regime only becomes aggressive on a run whose gate is open. */
  lemma AggressiveNeedsGate(c: Settings, s: RegimeState, score: real, gate: Option<bool>, now: int)
    ensures Step(c, s, score, gate, now).0.current == Aggressive ==>
              s.current == Aggressive || (gate == Some(true) && score >= c.aggressive)
  {
  }

  /** A flip resets the clock: right after it the regime is zero days old. */
  lemma FlipStartsAtZero(c: Settings, s: RegimeState, score: real, gate: Option<bool>, now: int)
    ensures Step(c, s, score, gate, now).0.current != s.current ==>
              Step(c, s, score, gate, now).1.daysInRegime == Some(0)
  {
  }

  /** The score trend reads only the last five scores. */
  lemma TrendReadsLastFive(h: seq<real>, older: seq<real>)
    requires |h| >= 5
    ensures ScoreTrend(older + h) == ScoreTrend(h)
  {
    var n := |older + h|;
    assert (older + h)[n - 1] == h[|h| - 1] && (older + h)[n - 2] == h[|h| - 2];
    assert (older + h)[n - 3] == h[|h| - 3] && (older + h)[n - 4] == h[|h| - 4];
    assert (older + h)[n - 5] == h[|h| - 5];
  }

  /** Mirroring every score swaps improving and deteriorating. */
  lemma TrendMirror(h: seq<real>, neg: seq<real>)
    requires |neg| == |h|
    requires forall i :: 0 <= i < |h| ==> neg[i] == -h[i]
    ensures ScoreTrend(h) == Improving <==> ScoreTrend(neg) == Deteriorating
    ensures ScoreTrend(h) == Deteriorating <==> ScoreTrend(neg) == Improving
  {
    if |h| >= 5 {
      assert RecentMean(neg) == -RecentMean(h);
      assert PriorMean(neg) == -PriorMean(h);
    }
  }

  /** Adding the same amount to every score leaves the trend unchanged. */
  lemma TrendShiftInvariant(h: seq<real>, moved: seq<real>, k: real)
    requires |moved| == |h|
    requires forall i :: 0 <= i < |h| ==> moved[i] == h[i] + k
    ensures ScoreTrend(moved) == ScoreTrend(h)
  {
    if |h| >= 5 {
      assert RecentMean(moved) == RecentMean(h) + k;
      assert PriorMean(moved) == PriorMean(h) + k;
    }
  }

  /** Saving and loading keeps every field but the older scores. */
  lemma SaveLoadRoundTrip(s: RegimeState)
    ensures FromDict(ToDict(s)) == s.(history := LastN(s.history, HistoryKept))
    ensures ToDict(FromDict(ToDict(s))) == ToDict(s)
  {
  }

  /** A document without any key loads as the default state, as does a missing or
      unreadable file. */
  lemma EmptyLoadsDefault()
    ensures FromDict(EmptyDocument) == Default
    ensures Load(None) == Default
  {
  }

  /** Saving the state and loading it back before the next run changes nothing that
      run reports, and the state it leaves differs only in the older scores. */
  lemma ReloadIsTransparent(c: Settings, s: RegimeState, score: real, gate: Option<bool>, now: int)
    ensures Step(c, FromDict(ToDict(s)), score, gate, now).1 == Step(c, s, score, gate, now).1
    ensures Step(c, FromDict(ToDict(s)), score, gate, now).0
            == Step(c, s, score, gate, now).0.(history := LastN(s.history, HistoryKept) + [score])
  {
    SaveLoadRoundTrip(s);
    TrendIgnoresTruncation(s.history, score);
    StepSeesHistoryThroughTrend(c, s, LastN(s.history, HistoryKept), score, gate, now);
  }

  /** Step reads the score history only through the trend it reports. */
  lemma StepSeesHistoryThroughTrend(c: Settings, s: RegimeState, h: seq<real>, score: real, gate: Option<bool>, now: int)
    requires ScoreTrend(h + [score]) == ScoreTrend(s.history + [score])
    ensures Step(c, s.(history := h), score, gate, now).1 == Step(c, s, score, gate, now).1
    ensures Step(c, s.(history := h), score, gate, now).0 == Step(c, s, score, gate, now).0.(history := h + [score])
  {
  }


  /** Dropping all but the last 30 scores before appending a new one leaves the
      trend unchanged. */
  lemma TrendIgnoresTruncation(h: seq<real>, score: real)
    ensures ScoreTrend(LastN(h, HistoryKept) + [score]) == ScoreTrend(h + [score])
  {
    var kept := LastN(h, HistoryKept);
    if |kept| < |h| {
      var older := h[..|h| - |kept|];
      assert h == older + kept;
      assert h + [score] == older + (kept + [score]);
      TrendReadsLastFive(kept + [score], older);
    }
  }
}
