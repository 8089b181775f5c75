# Liquidity regime pipeline in Dafny

This project models the pure core of the liquidity dashboard's regime engine. The engine has three layers, and they run in sequence between the data fetchers and the UI:

- **Series transforms** (`data/transforms.py` and the date-pinned helpers of `backtest.py`):
  - the percentage delta measured by calendar date, and the same delta measured by index;
  - the delta-of-delta ("acceleration");
  - the least-squares trend classification;
  - the simple moving average;
  - the BTC-above-moving-average gate.

  Every one of them returns an absent value when the history is missing.
- **Metric scorer** (`backend/scoring/engine.py` and `score_metric` in `backtest.py`):
  - five threshold rules turn a delta into a signal in {-1, 0, 1}; three of the rules are inverted;
  - a weighted composite sums the signals;
  - the BTC gate passes through to the classifier.
- **Regime classifier with hysteresis** (`scoring/regime.py`):
  - a raw classification into aggressive, balanced or defensive, gated on BTC;
  - a persisted state machine that only changes the reported regime after enough consecutive identical raw classifications, or at once when the score clears a margin;
  - the JSON persistence of that state.

The constants of `config.py` form one `Settings` record. `Valid` is its well-formedness predicate, so the lemmas hold for every valid configuration; `Shipped` is the shipped one.

Modelling choices:

- Values are exact `real`s.
- A series is a `seq<(int, real)>` whose dates are day numbers. Dates strictly increase: this is a precondition, standing in for the fetchers' sort.
- `None` is `Option.None`.
- The wall clock `now` is a parameter, counted in seconds.

The modules follow the program:

| module | file | models |
|---|---|---|
| Common | common.dfy | `Option`, sums, means, extrema, `LastN` (Python's `s[-n:]`) |
| Config | config.dfy | `Settings`, `Valid`, `Shipped` |
| Transforms | transforms.dfy | deltas, acceleration, moving average, BTC gate |
| Trend | trend.dfy | closed-form least-squares slope and `calculate_trend` |
| Metrics | metrics.dfy | `calculate_metrics` |
| Scoring | scoring.dfy | the five scorers, `score_metric`, `calculate_scores` |
| Backtest | backtest.dfy | `calculate_delta_at_date`, `calculate_ma_at_date`, `calculate_regime_score_at_date` |
| Regime | regime.dfy | `classify_regime`, `should_flip_regime`, the step of `determine_regime`, persistence |
| RegimeRuns | regime_runs.dfy | consecutive runs of the step |
| Pipeline | pipeline.dfy | metrics, then scores, then the regime step |

Two places where the program's own text disagrees with itself; the model follows the code in both:

- **Deltas of short series.** The historical delta (backtest.py:47-49) is absent when fewer than two points lie on or before the target date. The live delta (data/transforms.py:24-28) only needs one point dated at or before the cutoff. With a positive lookback the two agree, because a single point is never at or before its own date minus the lookback (`Transforms.ShortSeriesHasNoDelta`).
- **Margin override.** The docstring of `should_flip_regime` (scoring/regime.py:82-87) asks for a score margin greater than the override threshold. The comparisons at scoring/regime.py:99, 102 and 108 use `>=` and `<=`, so a score exactly at the threshold plus the margin flips (`Regime.MarginPasses`).

## Model

| member | source | states |
|---|---|---|
| Config.ShippedIsValid | config.py:25-85 | The shipped constants are a valid configuration. The weights sum to 6.5. Every threshold pair is symmetric. The regime thresholds are 4 and -4. Hysteresis needs 2 runs with a margin of 1. The windows are 28, 21 and 200. |
| Config.WeightSumPositive | config.py:25-31 | Under a valid configuration the weights sum to a positive total. |
| Transforms.Change | data/transforms.py:33-36 | The relative change is absent exactly when the past value is zero. Otherwise it is the change divided by the past value's magnitude: value × |past| = current − past, so its sign is the sign of current minus past. |
| Transforms.DeltaByDate | data/transforms.py:13-36 | The date delta is absent for an empty series and when no point is dated at or before the cutoff. Otherwise it is `Change` from the latest point at or before the last date minus `days` to the last point, so its value is (current − past) / |past|. |
| Transforms.ShortSeriesHasNoDelta | data/transforms.py:18-28 | With a positive lookback, a series of at most one point has no delta. Its acceleration pair is (None, None). |
| Transforms.RisingSeriesHasPositiveDelta | data/transforms.py:21-36 | On a strictly rising series, any delta that exists is positive. |
| Transforms.DeltaByIndex | data/transforms.py:39-53 | The index delta is absent below window+1 points. Otherwise it is `Change` from the point `window` positions before the last to the last point. |
| Transforms.DailyDeltaMatchesIndexDelta | data/transforms.py:13-53 | On gap-free daily data, the date delta and the index delta agree for every window. |
| Transforms.PreviousDelta | data/transforms.py:66-75 | The previous delta is the date delta of the prefix ending at the latest point on or before the cutoff. It is absent when that prefix has fewer than two points. |
| Transforms.AccelerationByDate | data/transforms.py:56-81 | Below three points the result is (None, None). Otherwise the delta is the date delta, and the acceleration is that delta minus the previous delta when both exist. |
| Transforms.AccelerationByIndex | data/transforms.py:84-99 | Below 2·window points the result is (None, None). The acceleration exists exactly when both index deltas exist, and then it is their difference. |
| Transforms.DailyPreviousDelta | data/transforms.py:56-81 | On gap-free daily data the previous date delta is the change from 2·window positions before the last point to window positions before it, and is absent below 2·window + 1 points. |
| Transforms.DailyAccelerationMatchesIndexAcceleration | data/transforms.py:56-99 | On gap-free daily data with a lookback of at least one day, the date-based and the index-based acceleration agree on every series. Their deltas agree from max(3, 2·window) points. |
| Transforms.MovingAverage | data/transforms.py:131-135 | The average exists exactly when there are at least `window` values (any value, for a zero window). Its value is the mean of the last `window` values, and lies between their minimum and maximum. |
| Transforms.ConstantWindowAverage | data/transforms.py:131-135 | The average of a window of identical values is that value. |
| Transforms.BtcGate | data/transforms.py:219-226 | `above` and `distance` are present together, exactly when the price and the average are present and non-zero. `above` holds exactly when price > average. The distance is the signed fraction price / average − 1, stated as (distance + 1) × average = price. |
| Transforms.GateMatchesDistanceSign | data/transforms.py:225-226 | With a positive average, `above` holds exactly when the distance is positive. |
| Trend.TrendOf | data/transforms.py:102-128 | The trend is Unknown exactly when the series is shorter than the window. A zero window mean gives Flat. Otherwise, with strength = slope / |mean| × window: Up iff strength > 0.02, Down iff strength < −0.02, Flat iff it is within the band. Up needs a positive least-squares slope, and Down a negative one. |
| Trend.SlopeOfLine | data/transforms.py:110-114 | On points lying on a line, the least-squares slope is that line's slope. |
| Trend.SlopeFollowsDirection | data/transforms.py:110-114 | A nondecreasing window has a nonnegative slope, and a nonincreasing one a nonpositive slope. A strictly increasing window has a positive slope. |
| Trend.TrendFollowsSlope | data/transforms.py:116-128 | A nonnegative slope is never classified Down, and a nonpositive one never Up. |
| Trend.RisingWindowNeverDown | data/transforms.py:102-128 | A window whose values never fall is never classified Down. |
| Trend.FallingWindowNeverUp | data/transforms.py:102-128 | A window whose values never rise is never classified Up. |
| Trend.ConstantWindowIsFlat | data/transforms.py:102-128 | A window of identical values is classified Flat. |
| Metrics.TrendEntry | data/transforms.py:162-175 | The trend uses min(8, n) points for the balance sheet and 14 for the others. It is present exactly when that window has two points. |
| Metrics.SnapshotOf | data/transforms.py:153-213 | An indicator without data gives the empty entry. Otherwise the entry holds the last value and date, and the trend `TrendEntry` of its values. WALCL and RRP take delta and acceleration from `AccelerationByDate` over the delta lookback (both absent below three points). The others use the plain date delta over their own lookback and no acceleration. |
| Metrics.BtcOf | data/transforms.py:215-228 | The BTC entry is absent without prices. Otherwise it holds the last price and date, the moving average over `ma_days`, and the gate of those two. |
| Metrics.CalculateMetrics | data/transforms.py:138-230 | Each of the five indicator entries is `SnapshotOf` its own series. The BTC entry is `BtcOf` the prices. |
| Metrics.TrendKnownWhenWindowFits | data/transforms.py:162-175 | With two or more points, the balance-sheet trend is never Unknown. The other trends are Unknown exactly below 14 points. |
| Metrics.AccelerationEntry | data/transforms.py:157-161 | A reported acceleration is the current delta minus the delta at the cutoff. |
| Metrics.BtcGateAbove | data/transforms.py:219-225 | With a positive average and a non-zero price, the gate is price > average. |
| Scoring.ScoreMetric | backtest.py:84-103 | The signal is in {-1, 0, 1} and is 0 without a delta. Non-inverted: 1 iff delta ≥ bullish, -1 iff below bullish and ≤ bearish. Inverted: mirrored. |
| Scoring.ScoreWalcl | backend/scoring/engine.py:9-31 | The signal is the non-inverted rule on WALCL's thresholds. The reason is "No data" exactly without a delta, "Expanding" exactly for signal 1, "Contracting" exactly for -1, and "Flat" exactly for 0 with a delta. "Accelerating" appears exactly for a positive acceleration on an expansion, or a negative one on a contraction. |
| Scoring.ScoreRrp | backend/scoring/engine.py:34-57 | The signal is the inverted rule on RRP's thresholds. The reason is "No data" exactly without a delta, "Draining" exactly for signal 1, "Building" exactly for -1, and "Stable" exactly for 0 with a delta. "Accelerating" follows the acceleration's sign. |
| Scoring.ScoreHySpread | backend/scoring/engine.py:60-80 | The signal is the inverted rule on the spread thresholds. The reason is "No data" exactly without a delta, "Tightening" exactly for signal 1, "Widening" exactly for -1, and "Stable" exactly for 0 with a delta. |
| Scoring.ScoreDxy | backend/scoring/engine.py:83-103 | The signal is the inverted rule on the dollar thresholds. The reason is "No data" exactly without a delta, "Weakening" exactly for signal 1, "Strengthening" exactly for -1, and "Stable" exactly for 0 with a delta. |
| Scoring.ScoreStablecoin | backend/scoring/engine.py:106-126 | The signal is the non-inverted rule on the stablecoin thresholds. The reason is "No data" exactly without a delta, "Growing" exactly for signal 1, "Shrinking" exactly for -1, and "Flat" exactly for 0 with a delta. |
| Scoring.ScorersAreInstances | backend/scoring/engine.py:9-126 | Each of the five scorers is the generic rule applied to its indicator's thresholds and direction. |
| Scoring.AccelerationOnlyAffectsReason | backend/scoring/engine.py:22-29 | Changing the acceleration never changes a signal. |
| Scoring.ScoreMonotone | backtest.py:90-103 | A larger delta never lowers a non-inverted signal and never raises an inverted one. |
| Scoring.InvertedIsMirror | backtest.py:90-103 | The inverted rule on d equals the non-inverted rule on -d with negated thresholds. |
| Scoring.WellFormedRuleSigns | config.py:44-55 | Under well-formed thresholds, a zero delta scores 0. A move in an indicator's bullish direction never scores bearish, and the reverse. |
| Scoring.EntryOf | backend/scoring/engine.py:137-175 | An entry holds the scorer's signal and reason, the weight copied from the configuration, and weighted = signal × weight. |
| Scoring.CalculateScores | backend/scoring/engine.py:129-192 | The total is the sum of the weighted entries. Max and min possible are ±ΣW, and the total lies between them for nonnegative weights. The gate is false when the BTC entry is missing and is passed through otherwise, with the distance. |
| Scoring.TotalBounds | backend/scoring/engine.py:178-189 | For nonnegative weights the sum of the weighted entries is within ±ΣW. |
| Scoring.ExtremesNeedUnanimity | backend/scoring/engine.py:178-189 | Under a valid configuration the total equals ΣW exactly when every signal is 1, and -ΣW exactly when every signal is -1. |
| Scoring.MissingDataIsNeutral | backend/scoring/engine.py:19-20 | An indicator without a delta contributes signal 0, weighted 0 and "No data". |
| Backtest.DeltaAtDate | backtest.py:38-66 | Absent when fewer than two points lie on or before the target. Otherwise it is the change from the latest point at or before target minus `days_back` to the latest visible point. |
| Backtest.MaAtDate | backtest.py:69-81 | On a date-sorted series: present exactly when at least `window` points lie on or before the target. Its value is the mean of the last `window` of them, between their minimum and maximum. |
| Backtest.BtcAtDate | backtest.py:170-181 | Present exactly when a price lies on or before the target. It holds the last such price and the 200-point average. `above_ma` is absent when the average is absent or zero, and is price > average otherwise. |
| Backtest.HistoricalSignal | backtest.py:114-165 | The historical signal is in {-1, 0, 1}, is 0 with fewer than two visible points, and is the generic rule applied to the indicator's historical delta over its own lookback. |
| Backtest.ScoreAtDate | backtest.py:106-194 | Each delta uses the indicator's lookback (28 days, 21 for stablecoins) and each signal is the generic rule. The total is the sum of signal × weight, within ±ΣW for nonnegative weights. The BTC entry is `BtcAtDate`. |
| Backtest.WeightedSumBounds | backtest.py:183-188 | The sum of the five signal × weight terms is within ±ΣW for nonnegative weights. |
| Backtest.AtOrBeforeIgnoresLater | backtest.py:47 | Appending points dated after the target leaves the visible prefix unchanged. |
| Backtest.DeltaAtDateIgnoresFuture | backtest.py:46-49 | The historical delta ignores every point dated after the target. |
| Backtest.MaAtDateIgnoresFuture | backtest.py:75-81 | On a sorted series, the historical moving average ignores every point dated after the target. |
| Backtest.DeltaAtLastDateIsLive | backtest.py:38-66 | On the series' last date, with two or more points, the historical delta is the live date delta. |
| Backtest.MaAtLastDateIsLive | backtest.py:69-81 | On the series' last date the historical average is the live moving average. |
| Backtest.OnePointHasNoDelta | backtest.py:48-49 | A single point gives neither a historical nor a live delta. |
| Backtest.DeltaMatchesLive | backtest.py:114-160 | On a series ending on the target date, under the shipped 28/21-day lookbacks, the historical delta is the live entry's delta. For WALCL and RRP this needs three points. |
| Backtest.SignalMatchesLive | backtest.py:84-103 | On such a series, the historical signal is the live engine's signal. |
| Backtest.SumMatchesTotal | backtest.py:183-188 | Signal × weight terms whose signals match the live entries sum to the live total. |
| Backtest.TotalMatchesLive | backtest.py:183-188 | With every series ending on the target date, the historical total on that date is the live composite. |
| Regime.Classify | scoring/regime.py:64-73 | Aggressive only when score ≥ the aggressive threshold and the gate is true, and always then. Defensive only at or below the defensive threshold. Balanced only above it. |
| Regime.ClassifyBands | scoring/regime.py:64-73 | With ordered thresholds, defensive is exactly score ≤ defensive. A gate that is not true never gives aggressive. Balanced is exactly the remaining band. |
| Regime.ClassifyMonotone | scoring/regime.py:64-73 | A higher score or an opened gate never gives a lower regime. |
| Regime.ShouldFlip | scoring/regime.py:76-111 | Never flips when current equals proposed. Otherwise it flips exactly when the count reaches the requirement or the margin test passes. |
| Regime.MarginMeansClearBand | scoring/regime.py:96-109 | With a positive margin, a margin flip needs a score strictly past the aggressive or defensive threshold, or strictly between both for balanced. |
| Regime.MarginAgreesWithClassify | scoring/regime.py:96-109 | A score passing a regime's margin test classifies as that regime (aggressive needs the gate). |
| Regime.ScoreTrend | scoring/regime.py:170-179 | Flat below five scores. Improving or deteriorating exactly when the mean of the last three differs from the mean of the two before them by more than 0.5 in that direction. |
| Regime.TrendReadsLastFive | scoring/regime.py:172-175 | Scores older than the last five never change the trend. |
| Regime.TrendMirror | scoring/regime.py:170-179 | Negating every score swaps improving and deteriorating. |
| Regime.TrendShiftInvariant | scoring/regime.py:170-179 | Adding a constant to every score leaves the trend unchanged. |
| Regime.DaysSince | scoring/regime.py:161-168 | Days in regime are present exactly when a start time is, and they are the whole days elapsed, rounded down. |
| Regime.Step | scoring/regime.py:131-191 | The proposal becomes the raw classification. One score is appended and becomes the last score. The counter grows on a repeat and is 1 on a change. A flip sets the regime, counter 0 and a new start, and happens exactly when the counter reaches the requirement or the margin passes. Afterwards a pending change has a count below the requirement. `days_until_flip` is present exactly when pending and equals required − count. |
| Regime.AggressiveNeedsGate | scoring/regime.py:135-157 | The regime only becomes aggressive on a run whose gate is true and whose score reaches the threshold. |
| Regime.FlipStartsAtZero | scoring/regime.py:156-166 | Right after a flip the regime is zero days old. |
| Regime.ToDict | scoring/regime.py:24-32 | The saved document holds every field, and only the last 30 scores. |
| Regime.FromDict | scoring/regime.py:34-43 | Each present key is taken as is. A missing key takes its default: balanced for both regimes, 0 days, score 0.0, no start time, an empty history. |
| Regime.Load | scoring/regime.py:46-55 | A missing or unreadable file gives the default state. Otherwise the state is `from_dict` of the document. |
| Regime.Initial | scoring/regime.py:125-129 | A passed state wins. Otherwise a named file is loaded, and with neither the default is used. |
| Regime.SaveLoadRoundTrip | scoring/regime.py:24-43 | Loading a saved state gives it back with the history cut to its last 30 scores. Saving again gives the same document. |
| Regime.EmptyLoadsDefault | scoring/regime.py:34-55 | An empty document, and a missing file, load as the default state. |
| Regime.TrendIgnoresTruncation | scoring/regime.py:170-175 | Cutting the history to 30 scores before the next run leaves that run's trend unchanged. |
| Regime.StepSeesHistoryThroughTrend | scoring/regime.py:138-179 | The step reads the history only through the trend it reports. |
| Regime.ReloadIsTransparent | scoring/regime.py:114-197 | Saving and reloading between runs changes nothing the next run reports. Its state differs only in the older scores. |
| RegimeRuns.Replay | scoring/regime.py:141-159 | Over consecutive runs the counter stays nonnegative, a pending change stays below the requirement, one score is kept per run, and the proposal is the last raw classification. |
| RegimeRuns.KeepsCounting | scoring/regime.py:141-159 | While every run classifies as g, a state already in g or pending g stays so, and its count grows by one per run. |
| RegimeRuns.ConfirmedClassificationFlips | scoring/regime.py:88-93 | After as many consecutive identical raw classifications as required, that classification is the reported regime, from any state. |
| RegimeRuns.WhipsawNeverFlips | scoring/regime.py:141-159 | With a requirement of at least two, raw classifications that change on every run and never pass the margin leave the regime unchanged. |
| RegimeRuns.ConfirmedRegimeHolds | scoring/regime.py:88-89 | The reported regime stays while every run classifies as it. |
| RegimeRuns.ShippedHysteresis | scoring/regime.py:141-159 | With the shipped settings, a one-run excursion within the margin does not change the regime, and two identical runs do. |
| Pipeline.Evaluate | scoring/regime.py:131-135 | The score handed to the regime step lies within ±ΣW for nonnegative weights. |
| Pipeline.AggressiveNeedsBtcAboveAverage | backend/scoring/engine.py:181-182 | An aggressive proposal needs BTC prices whose last value is above a present average. Without BTC data the regime never becomes aggressive. |
| Pipeline.UnanimousBearishProposesDefensive | scoring/regime.py:68-71 | With every indicator bearish and a defensive threshold no lower than -ΣW, the proposal is defensive. |

## Left out

- Data fetching: the HTTP calls to FRED, CoinGecko and DefiLlama. Their output is an input series, and sortedness with strictly increasing dates is a precondition.
- Caches, UI, chart data (`get_chart_data`), bots, notifications, subscriber storage and the explanation texts: these are I/O and presentation.
- Reason strings are tags. The formatted percentages and level suffixes are not modelled.
- Floating point and NaN:
  - values are exact reals;
  - `pd.isna` guards have no counterpart;
  - `past == 0` and a zero price or average are the only absent-value cases.
- Trend.TrendOf: requires a window of at least two points, because the closed-form slope of a single point divides by zero.
- Metrics.TrendEntry: gives no trend for a one-observation balance-sheet series. There `calculate_trend` (data/transforms.py:114) fits `np.polyfit` to a single x value, which yields NaN or raises; the absent entry stands in for that behaviour.
- Wall clock: `datetime.now()` is the parameter `now`, read once per run. The source reads it twice, microseconds apart.
- ISO timestamp strings: a malformed `regime_start_date` (which the source swallows) is not modelled, and neither is an empty one.
- The JSON file:
  - `save_regime_state` is the function `ToDict`;
  - a file that cannot be read or parsed is the absent document;
  - values of the wrong type inside the document are not modelled;
  - a key present with a JSON null is not modelled: `from_dict` reads it as `None` instead of the default, and `Regime.FromDict` treats every present key as a value;
  - regime names outside the three values are not modelled.
- The regime state file is read, modified and written without synchronisation. Concurrent runs are not modelled; the model covers one sequential step.
- Backtest statistics: forward returns, bucketing, quantiles, printing and the percentile-based threshold recommendations of `backtest.py`. The copies of the helpers in `backtest_with_cache.py` and `run_backtest.py` are covered by the `backtest.py` model.
- Backtest.ScoreAtDate: uses the configured thresholds. The literal per-key fallback values that `calculate_regime_score_at_date` would use for a threshold dictionary missing a key are not modelled.
- Backtest.TotalMatchesLive: holds only for series that end on the target date. On other dates, the historical delta measures its lookback from the target, but the live delta measures from the series' last date.
