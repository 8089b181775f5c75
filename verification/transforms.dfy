/** Series transforms (data/transforms.py): percentage deltas measured by
    calendar date and by index, delta-of-delta, the simple moving average and
    the BTC moving-average gate. Every transform answers `None` when history is
    missing rather than failing or inventing a zero. A series is a sequence of
    (day number, value) observations sorted by strictly increasing day; the
    fetchers sort what they return, so sortedness is a precondition here. */
module Transforms {
  import opened Common

  /** One observation: (day number, value). */
  type Point = (int, real)

  predicate Sorted(s: seq<Point>)
  {
    forall i, j :: 0 <= i < j < |s| ==> s[i].0 < s[j].0
  }

  /** Consecutive calendar days with no gaps: the cadence where date- and index-based lookbacks coincide. */
  predicate Daily(s: seq<Point>)
  {
    forall i :: 0 <= i < |s| ==> s[i].0 == s[0].0 + i
  }

  function Values(s: seq<Point>): (r: seq<real>)
    ensures |r| == |s|
    ensures forall i :: 0 <= i < |s| ==> r[i] == s[i].1
  {
    seq(|s|, i requires 0 <= i < |s| => s[i].1)
  }

  /** The rows kept by the filter `df[df.date <= t]`: every observation dated on or
      before `t`, in order. On a sorted series these form a prefix. */
  function AtOrBefore(s: seq<Point>, t: int): (r: seq<Point>)
    ensures |r| <= |s|
    ensures forall i :: 0 <= i < |r| ==> r[i].0 <= t
    ensures Sorted(s) ==> r == s[..|r|] && forall i :: |r| <= i < |s| ==> s[i].0 > t
  {
    if |s| == 0 then []
    else
      var init := AtOrBefore(s[..|s| - 1], t);
      if s[|s| - 1].0 <= t then init + [s[|s| - 1]] else init
  }

  /** `k` indexes the latest observation dated on or before `t`. */
  predicate LatestAtOrBefore(s: seq<Point>, t: int, k: int)
  {
    && 0 <= k < |s|
    && s[k].0 <= t
    && forall j :: k < j < |s| ==> s[j].0 > t
  }

  /** On a sorted series the filter keeps exactly the prefix that ends at the latest
      observation dated on or before `t`, and nothing when there is none. */
  lemma AtOrBeforeIsPrefix(s: seq<Point>, t: int)
    requires Sorted(s)
    ensures forall k {:trigger LatestAtOrBefore(s, t, k)} :: LatestAtOrBefore(s, t, k) ==> AtOrBefore(s, t) == s[..k + 1]
    ensures |AtOrBefore(s, t)| > 0 ==> LatestAtOrBefore(s, t, |AtOrBefore(s, t)| - 1)
  {
  }

  /** A prefix of a sorted series is sorted. */
  lemma SortedPrefix(s: seq<Point>, n: nat)
    requires Sorted(s)
    requires n <= |s|
    ensures Sorted(s[..n])
  {
  }

  /** Relative change from `past` to `current`, scaled by |past|; undefined when
      `past` is zero (the source's division guard). */
  function Change(past: real, current: real): (r: Option<real>)
    ensures r.Some? <==> past != 0.0
    ensures r.Some? ==> (r.value > 0.0 <==> current > past)
    ensures r.Some? ==> (r.value < 0.0 <==> current < past)
    ensures r.Some? ==> r.value * Abs(past) == current - past
  {
    if past == 0.0 then None else Some((current - past) / Abs(past))
  }

  /** The lookback cutoff of a non-empty series: its last day minus `days`. */
  function Cutoff(s: seq<Point>, days: int): int
    requires |s| > 0
  {
    s[|s| - 1].0 - days
  }

  /** The change from the latest observation dated at or before `cutoff` to the last
      observation; absent when no observation is that old. */
  function ChangeSince(s: seq<Point>, cutoff: int): (r: Option<real>)
    requires Sorted(s)
    requires |s| > 0
    ensures (forall i :: 0 <= i < |s| ==> s[i].0 > cutoff) ==> r.None?
    ensures forall k {:trigger LatestAtOrBefore(s, cutoff, k)} :: LatestAtOrBefore(s, cutoff, k) ==> r == Change(s[k].1, s[|s| - 1].1)
  {
    AtOrBeforeIsPrefix(s, cutoff);
    var past := AtOrBefore(s, cutoff);
    if |past| == 0 then None
    else Change(past[|past| - 1].1, s[|s| - 1].1)
  }

  /** calculate_delta_by_date: the change from the latest observation dated at or
      before (last date - days) to the last observation. */
  function DeltaByDate(s: seq<Point>, days: int): (r: Option<real>)
    requires Sorted(s)
    ensures |s| == 0 ==> r.None?
    ensures |s| > 0 && (forall i :: 0 <= i < |s| ==> s[i].0 > Cutoff(s, days)) ==> r.None?
    ensures |s| > 0 ==> forall k {:trigger LatestAtOrBefore(s, Cutoff(s, days), k)} :: LatestAtOrBefore(s, Cutoff(s, days), k) ==>
              r == Change(s[k].1, s[|s| - 1].1)
  {
    if |s| == 0 then None else ChangeSince(s, Cutoff(s, days))
  }

  /** calculate_delta: the change from the point `window` positions before the last. */
  function DeltaByIndex(v: seq<real>, window: nat): (r: Option<real>)
    ensures |v| < window + 1 ==> r.None?
    ensures |v| >= window + 1 ==> r == Change(v[|v| - window - 1], v[|v| - 1])
  {
    if |v| < window + 1 then None
    else Change(v[|v| - window - 1], v[|v| - 1])
  }

  /** The acceleration: current delta minus previous delta, when both exist. */
  function Accel(current: Option<real>, previous: Option<real>): Option<real>
  {
    if current.None? || previous.None? then None else Some(current.value - previous.value)
  }

  /** The delta as it stood at the latest observation on or before the cutoff: the
      date-based delta of that prefix, provided the prefix holds two observations. */
  function PreviousDelta(s: seq<Point>, days: int): (r: Option<real>)
    requires Sorted(s)
    requires |s| > 0
    ensures (forall i :: 0 <= i < |s| ==> s[i].0 > Cutoff(s, days)) ==> r.None?
    ensures forall k {:trigger LatestAtOrBefore(s, Cutoff(s, days), k)} :: LatestAtOrBefore(s, Cutoff(s, days), k) ==>
              r == (if k >= 1 then DeltaByDate(s[..k + 1], days) else None)
  {
    AtOrBeforeIsPrefix(s, Cutoff(s, days));
    var past := AtOrBefore(s, Cutoff(s, days));
    SortedPrefix(s, |past|);
    if |past| < 2 then None else DeltaByDate(past, days)
  }

  /** calculate_acceleration_by_date: the current delta, and the change between it and
      the delta computed on the observations dated at or before (last date - days). */
  function AccelerationByDate(s: seq<Point>, days: int): (r: (Option<real>, Option<real>))
    requires Sorted(s)
    ensures |s| < 3 ==> r == (None, None)
    ensures |s| >= 3 ==> r.0 == DeltaByDate(s, days)
    ensures r.1.Some? ==> r.0.Some?
    ensures |s| >= 3 ==> r.1 == Accel(r.0, PreviousDelta(s, days))
  {
    if |s| < 3 then (None, None)
    else
      var current := DeltaByDate(s, days);
      (current, Accel(current, PreviousDelta(s, days)))
  }

  /** calculate_acceleration: index-based delta and delta-of-delta. Python's
      `series.iloc[:-0]` is empty, so a zero window never yields a previous delta. */
  function AccelerationByIndex(v: seq<real>, window: nat): (r: (Option<real>, Option<real>))
    ensures |v| < 2 * window ==> r == (None, None)
    ensures |v| >= 2 * window ==> r.0 == DeltaByIndex(v, window)
    ensures r.1.Some? <==>
              && window >= 1 && |v| >= 2 * window + 1
              && v[|v| - window - 1] != 0.0 && v[|v| - 2 * window - 1] != 0.0
    ensures r.1.Some? ==>
              r.1.value == Change(v[|v| - window - 1], v[|v| - 1]).value
                           - Change(v[|v| - 2 * window - 1], v[|v| - window - 1]).value
  {
    if |v| < window * 2 then (None, None)
    else
      var current := DeltaByIndex(v, window);
      var shifted := if window == 0 then [] else v[..|v| - window];
      var previous := if |shifted| >= window + 1 then DeltaByIndex(shifted, window) else None;
      if current.None? || previous.None? then (current, None)
      else (current, Some(current.value - previous.value))
  }

  /** calculate_moving_average: the mean of the last `window` values. Python's
      `iloc[-0:]` is the whole series, so a zero window averages everything; the
      mean of nothing is NaN in the source and `None` here. */
  function MovingAverage(v: seq<real>, window: nat): (r: Option<real>)
    ensures window >= 1 ==> (r.Some? <==> |v| >= window)
    ensures window == 0 ==> (r.Some? <==> |v| > 0)
    ensures r.Some? && window >= 1 ==> Min(v[|v| - window..]) <= r.value <= Max(v[|v| - window..])
    ensures r.Some? && window >= 1 ==> r.value == Mean(v[|v| - window..])
    ensures r.Some? && window == 0 ==> r.value == Mean(v)
  {
    if |v| < window then None
    else if window == 0 then (if |v| == 0 then None else Some(Mean(v)))
    else
      MeanWithinBounds(v[|v| - window..]);
      Some(Mean(v[|v| - window..]))
  }

  /** The BTC entry of calculate_metrics: whether the price is above its moving
      average and by what fraction. */
  datatype Gate = Gate(above: Option<bool>, distance: Option<real>)

  /** Both gate fields are `None` unless price and average are present and non-zero. */
  function BtcGate(price: Option<real>, ma: Option<real>): (r: Gate)
    ensures r.above.Some? <==> r.distance.Some?
    ensures r.above.Some? <==> price.Some? && price.value != 0.0 && ma.Some? && ma.value != 0.0
    ensures r.above.Some? ==> (r.above.value <==> price.value > ma.value)
    ensures r.distance.Some? ==> (r.distance.value + 1.0) * ma.value == price.value
  {
    if price.Some? && price.value != 0.0 && ma.Some? && ma.value != 0.0 then
      Gate(Some(price.value > ma.value), Some(price.value / ma.value - 1.0))
    else Gate(None, None)
  }

  // ---------------------------------------------------------------------------
  // Properties
  // ---------------------------------------------------------------------------

  /** With a positive lookback, fewer than two observations never give a delta. */
  lemma ShortSeriesHasNoDelta(s: seq<Point>, days: int)
    requires Sorted(s)
    requires |s| <= 1
    requires days > 0
    ensures DeltaByDate(s, days).None?
    ensures AccelerationByDate(s, days) == (None, None)
  {
  }

  /** A series whose values strictly rise over time has a positive delta whenever
      one is defined: the sign of the delta is the sign of the move. */
  lemma RisingSeriesHasPositiveDelta(s: seq<Point>, days: int)
    requires Sorted(s)
    requires days > 0
    requires forall i, j :: 0 <= i < j < |s| ==> s[i].1 < s[j].1
    requires DeltaByDate(s, days).Some?
    ensures DeltaByDate(s, days).value > 0.0
  {
    var past := AtOrBefore(s, s[|s| - 1].0 - days);
    var k := |past| - 1;
    assert LatestAtOrBefore(s, s[|s| - 1].0 - days, k);
    assert k < |s| - 1;
  }

  lemma DailyIsSorted(s: seq<Point>)
    requires Daily(s)
    ensures Sorted(s)
  {
  }

  /** On daily data the observation `window` positions before the last is the latest
      one dated at or before the cutoff. */
  lemma DailyLatest(s: seq<Point>, window: nat)
    requires Daily(s)
    requires |s| >= window + 1
    ensures LatestAtOrBefore(s, Cutoff(s, window), |s| - window - 1)
  {
  }

  /** On daily data shorter than the window every observation is after the cutoff. */
  lemma DailyTooShort(s: seq<Point>, window: nat)
    requires Daily(s)
    requires 0 < |s| < window + 1
    ensures forall i :: 0 <= i < |s| ==> s[i].0 > Cutoff(s, window)
  {
  }

  /** On gap-free daily data the date-based delta and the index-based delta agree:
      the latest observation at or before the cutoff is exactly `window` positions
      before the last one, and neither exists when the series is too short. */
  lemma DailyDeltaMatchesIndexDelta(s: seq<Point>, window: nat)
    requires Daily(s)
    ensures Sorted(s)
    ensures DeltaByDate(s, window) == DeltaByIndex(Values(s), window)
  {
    DailyIsSorted(s);
    if |s| >= window + 1 {
      DailyLatest(s, window);
    } else if |s| > 0 {
      DailyTooShort(s, window);
    }
  }

  /** A prefix of daily data is daily. */
  lemma DailyPrefix(s: seq<Point>, k: nat)
    requires Daily(s)
    requires k <= |s|
    ensures Daily(s[..k])
  {
    if k > 0 {
      assert s[..k][0] == s[0];
    }
  }

  lemma ValuesPrefix(s: seq<Point>, m: nat)
    requires m <= |s|
    ensures Values(s[..m]) == Values(s)[..m]
  {
  }

  /** On daily data the date delta of the first `m` observations is the change from
      position `a`, `window` before the m-th, to position `b`, the m-th. */
  lemma DailyPrefixDelta(s: seq<Point>, m: nat, window: nat, a: int, b: int)
    requires Daily(s)
    requires m <= |s|
    requires a == m - window - 1 && b == m - 1
    ensures Sorted(s[..m])
    ensures DeltaByDate(s[..m], window) ==
              if m >= window + 1 then Change(s[a].1, s[b].1) else None
  {
    DailyPrefix(s, m);
    DailyDeltaMatchesIndexDelta(s[..m], window);
    ValuesPrefix(s, m);
  }

  /** The previous delta is the date delta of the first `m` observations when the
      m-th is the latest one on or before the cutoff. */
  lemma PreviousDeltaAt(s: seq<Point>, window: nat, m: nat)
    requires Sorted(s)
    requires 1 <= m <= |s|
    requires LatestAtOrBefore(s, Cutoff(s, window), m - 1)
    ensures Sorted(s[..m])
    ensures PreviousDelta(s, window) == if m >= 2 then DeltaByDate(s[..m], window) else None
  {
    SortedPrefix(s, m);
    assert m - 1 + 1 == m;
  }

  /** On daily data the previous delta is the index delta one window further back:
      the change from `2 * window` positions before the last to `window` before it. */
  lemma DailyPreviousDelta(s: seq<Point>, window: nat)
    requires Daily(s)
    requires window >= 1
    requires |s| >= window + 1
    ensures Sorted(s)
    ensures PreviousDelta(s, window) ==
              if |s| >= 2 * window + 1 then Change(s[|s| - 2 * window - 1].1, s[|s| - window - 1].1)
              else None
  {
    DailyIsSorted(s);
    DailyLatest(s, window);
    PreviousDeltaAt(s, window, |s| - window);
    DailyPrefixDelta(s, |s| - window, window, |s| - 2 * window - 1, |s| - window - 1);
  }

  /** The index-based acceleration over `n` values, read as the acceleration of two
      changes. */
  lemma IndexAcceleration(v: seq<real>, window: nat, n: nat)
    requires window >= 1
    requires n == |v|
    ensures AccelerationByIndex(v, window).1 ==
              if n >= 2 * window + 1 then
                Accel(Change(v[n - window - 1], v[n - 1]),
                      Change(v[n - 2 * window - 1], v[n - window - 1]))
              else None
  {
  }

  /** The date-based acceleration of a series with three observations is the
      acceleration of its current and previous deltas. */
  lemma DateAcceleration(s: seq<Point>, window: nat, current: Option<real>, previous: Option<real>)
    requires Sorted(s)
    requires |s| >= 3
    requires current == DeltaByDate(s, window) && previous == PreviousDelta(s, window)
    ensures AccelerationByDate(s, window).1 == Accel(current, previous)
  {
  }

  /** The index-based acceleration of a series' values, read off its observations. */
  lemma PointsIndexAcceleration(s: seq<Point>, window: nat)
    requires window >= 1
    ensures AccelerationByIndex(Values(s), window).1 ==
              if |s| >= 2 * window + 1 then
                Accel(Change(s[|s| - window - 1].1, s[|s| - 1].1),
                      Change(s[|s| - 2 * window - 1].1, s[|s| - window - 1].1))
              else None
  {
    var v := Values(s);
    IndexAcceleration(v, window, |s|);
    if |s| >= 2 * window + 1 {
      assert v[|s| - window - 1] == s[|s| - window - 1].1;
      assert v[|s| - 1] == s[|s| - 1].1;
      assert v[|s| - 2 * window - 1] == s[|s| - 2 * window - 1].1;
    }
  }

  /** With both date deltas present as the matching changes, the date-based
      acceleration is the index-based one. */
  lemma AccelerationFromDeltas(s: seq<Point>, window: nat)
    requires Sorted(s)
    requires window >= 1
    requires |s| >= 3 && |s| >= 2 * window + 1
    requires DeltaByDate(s, window) == Change(s[|s| - window - 1].1, s[|s| - 1].1)
    requires PreviousDelta(s, window) == Change(s[|s| - 2 * window - 1].1, s[|s| - window - 1].1)
    ensures AccelerationByDate(s, window).1 == AccelerationByIndex(Values(s), window).1
  {
    PointsIndexAcceleration(s, window);
    DateAcceleration(s, window, DeltaByDate(s, window), PreviousDelta(s, window));
  }

  /** Without a previous date delta neither acceleration exists. */
  lemma NoAccelerationWithoutPrevious(s: seq<Point>, window: nat)
    requires Sorted(s)
    requires window >= 1
    requires |s| >= 3 && |s| < 2 * window + 1
    requires PreviousDelta(s, window).None?
    ensures AccelerationByDate(s, window).1 == AccelerationByIndex(Values(s), window).1
  {
    IndexAcceleration(Values(s), window, |s|);
  }

  /** On gap-free daily data with a lookback of at least one day, the date-based
      acceleration is the index-based one: the observation on or before the cutoff is
      `window` positions back, and the previous delta reaches `window` further. */
  lemma DailyAccelerationMatchesIndexAcceleration(s: seq<Point>, window: nat)
    requires Daily(s)
    requires window >= 1
    ensures Sorted(s)
    ensures AccelerationByDate(s, window).1 == AccelerationByIndex(Values(s), window).1
    ensures |s| >= 3 && |s| >= 2 * window ==>
              AccelerationByDate(s, window).0 == AccelerationByIndex(Values(s), window).0
  {
    DailyIsSorted(s);
    DailyAccelerationValue(s, window);
    if |s| >= 3 && |s| >= 2 * window {
      DailyDeltaMatchesIndexDelta(s, window);
    }
  }

  /** The acceleration half of the agreement, case by case. */
  lemma DailyAccelerationValue(s: seq<Point>, window: nat)
    requires Daily(s)
    requires window >= 1
    ensures Sorted(s)
    ensures AccelerationByDate(s, window).1 == AccelerationByIndex(Values(s), window).1
  {
    DailyIsSorted(s);
    PointsIndexAcceleration(s, window);
    var n := |s|;
    if n >= 3 && n >= 2 * window + 1 {
      DailyCurrentDelta(s, window);
      DailyPreviousDelta(s, window);
      AccelerationFromDeltas(s, window);
    } else if n >= 3 && n >= window + 1 {
      DailyPreviousDelta(s, window);
      NoAccelerationWithoutPrevious(s, window);
    } else if n >= 3 {
      DailyTooShort(s, window);
      assert DeltaByDate(s, window).None?;
    }
  }

  /** On daily data the current date delta is the change from `window` positions
      before the last observation. */
  lemma DailyCurrentDelta(s: seq<Point>, window: nat)
    requires Daily(s)
    requires |s| >= window + 1
    ensures Sorted(s)
    ensures DeltaByDate(s, window) == Change(s[|s| - window - 1].1, s[|s| - 1].1)
  {
    DailyIsSorted(s);
    DailyLatest(s, window);
  }

  /** The moving-average gate and the distance agree on direction when the average
      is positive, as it is for prices. */
  lemma GateMatchesDistanceSign(price: Option<real>, ma: Option<real>)
    requires ma.Some? && ma.value > 0.0
    requires BtcGate(price, ma).above.Some?
    ensures BtcGate(price, ma).above.value <==> BtcGate(price, ma).distance.value > 0.0
  {
    var p, m := price.value, ma.value;
    assert p / m - 1.0 > 0.0 <==> p / m > 1.0;
    if p > m {
      assert p / m > m / m;
    } else {
      assert p / m <= m / m;
    }
  }

  /** A moving average of a window of identical values is that value. */
  lemma ConstantWindowAverage(v: seq<real>, window: nat, c: real)
    requires 1 <= window <= |v|
    requires forall i :: |v| - window <= i < |v| ==> v[i] == c
    ensures MovingAverage(v, window) == Some(c)
  {
    var w := v[|v| - window..];
    MeanBetween(w, c, c);
  }
}
