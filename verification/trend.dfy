/** Trend classification (calculate_trend in data/transforms.py): the degree-1
    least-squares slope of the last `window` values against their positions
    0, 1, ..., window-1, normalised by the window's mean and length. */
module Trend {
  import opened Common

  datatype Direction = Up | Down | Flat | Unknown

  /** The normalised-slope dead band of calculate_trend. */
  const Band: real := 0.02

  /** `n` points on the line a + b*x at x = 0, 1, ..., n-1. */
  function Line(a: real, b: real, n: nat): (r: seq<real>)
    ensures |r| == n
    ensures forall i :: 0 <= i < n ==> r[i] == a + b * (i as real)
  {
    seq(n, i requires 0 <= i < n => a + b * (i as real))
  }

  /** `s` with `c` subtracted from every entry. */
  function Shift(s: seq<real>, c: real): (r: seq<real>)
    ensures |r| == |s|
    ensures forall i :: 0 <= i < |s| ==> r[i] == s[i] - c
  {
    seq(|s|, i requires 0 <= i < |s| => s[i] - c)
  }

  /** `s` with every entry multiplied by `b`. */
  function Scale(s: seq<real>, b: real): (r: seq<real>)
    ensures |r| == |s|
    ensures forall i :: 0 <= i < |s| ==> r[i] == b * s[i]
  {
    seq(|s|, i requires 0 <= i < |s| => b * s[i])
  }

  /** Deviations from the mean. */
  function Centered(s: seq<real>): seq<real>
    requires |s| > 0
  {
    Shift(s, Mean(s))
  }

  function Dot(a: seq<real>, b: seq<real>): real
    requires |a| == |b|
  {
    if |a| == 0 then 0.0 else a[0] * b[0] + Dot(a[1..], b[1..])
  }

  /** The positions 0, 1, ..., n-1 (numpy's `arange(n)`) as reals. */
  function Positions(n: nat): seq<real>
  {
    Line(0.0, 1.0, n)
  }

  /** The ordinary-least-squares slope of `y` against its positions, in closed form:
      sum((x - mean x) * (y - mean y)) / sum((x - mean x)^2). Two points make the
      fit well-posed. */
  function OlsSlope(y: seq<real>): real
    requires |y| >= 2
  {
    var cx := Centered(Positions(|y|));
    PositionSpreadPositive(|y|);
    Dot(cx, Centered(y)) / Dot(cx, cx)
  }

  /** The slope of a window relative to the size of its values, scaled by the
      window's length: the quantity calculate_trend compares against the band. */
  function Strength(recent: seq<real>): real
    requires |recent| >= 2 && Mean(recent) != 0.0
  {
    OlsSlope(recent) / Abs(Mean(recent)) * (|recent| as real)
  }

  /** calculate_trend. A window of fewer than two points leaves the degree-1 fit
      rank-deficient, so the model asks for two. */
  function TrendOf(v: seq<real>, window: nat): (r: Direction)
    requires window >= 2
    ensures r == Unknown <==> |v| < window
    ensures |v| >= window && Mean(v[|v| - window..]) == 0.0 ==> r == Flat
    ensures |v| >= window && Mean(v[|v| - window..]) != 0.0 ==>
      (r == Up <==> Strength(v[|v| - window..]) > Band) &&
      (r == Down <==> Strength(v[|v| - window..]) < -Band) &&
      (r == Flat <==> -Band <= Strength(v[|v| - window..]) <= Band)
    ensures r == Up ==> OlsSlope(v[|v| - window..]) > 0.0
    ensures r == Down ==> OlsSlope(v[|v| - window..]) < 0.0
  {
    if |v| < window then Unknown
    else
      var recent := v[|v| - window..];
      var mean := Mean(recent);
      if mean == 0.0 then Flat
      else
        var normalized := OlsSlope(recent) / Abs(mean) * (window as real);
        NormalizedSign(OlsSlope(recent), mean, window);
        if normalized > Band then Up
        else if normalized < -Band then Down
        else Flat
  }

  predicate Nondecreasing(s: seq<real>)
  {
    forall i, j :: 0 <= i < j < |s| ==> s[i] <= s[j]
  }

  predicate Nonincreasing(s: seq<real>)
  {
    forall i, j :: 0 <= i < j < |s| ==> s[i] >= s[j]
  }

  predicate StrictlyIncreasing(s: seq<real>)
  {
    forall i, j :: 0 <= i < j < |s| ==> s[i] < s[j]
  }

  // ---------------------------------------------------------------------------
  // Algebra of sums, shifts and dot products
  // ---------------------------------------------------------------------------

  lemma {:induction false} SumShift(s: seq<real>, c: real)
    ensures Sum(Shift(s, c)) == Sum(s) - (|s| as real) * c
    decreases |s|
  {
    if |s| > 0 {
      assert Shift(s, c)[1..] == Shift(s[1..], c);
      SumShift(s[1..], c);
    }
  }

  /** Deviations from the mean sum to zero. */
  lemma CenteredSumsToZero(s: seq<real>)
    requires |s| > 0
    ensures Sum(Centered(s)) == 0.0
  {
    SumShift(s, Mean(s));
  }

  lemma {:induction false} DotShiftRight(a: seq<real>, y: seq<real>, c: real)
    requires |a| == |y|
    ensures Dot(a, Shift(y, c)) == Dot(a, y) - c * Sum(a)
    decreases |a|
  {
    if |a| > 0 {
      assert Shift(y, c)[1..] == Shift(y[1..], c);
      DotShiftRight(a[1..], y[1..], c);
    }
  }

  lemma {:induction false} DotScaleRight(a: seq<real>, y: seq<real>, b: real)
    requires |a| == |y|
    ensures Dot(a, Scale(y, b)) == b * Dot(a, y)
    decreases |a|
  {
    if |a| > 0 {
      forall i | 0 <= i < |y| - 1
        ensures Scale(y, b)[1..][i] == Scale(y[1..], b)[i]
      {
        assert y[1..][i] == y[i + 1];
      }
      assert Scale(y, b)[1..] == Scale(y[1..], b);
      DotScaleRight(a[1..], y[1..], b);
    }
  }

  /** Peel the last term off a dot product. */
  lemma {:induction false} DotSnoc(a: seq<real>, b: seq<real>)
    requires |a| == |b| > 0
    ensures Dot(a, b) == Dot(a[..|a| - 1], b[..|b| - 1]) + a[|a| - 1] * b[|b| - 1]
    decreases |a|
  {
    if |a| > 1 {
      assert a[1..][..|a| - 2] == a[..|a| - 1][1..];
      assert b[1..][..|b| - 2] == b[..|b| - 1][1..];
      DotSnoc(a[1..], b[1..]);
    }
  }

  lemma {:induction false} DotSelfNonnegative(a: seq<real>)
    ensures Dot(a, a) >= 0.0
    decreases |a|
  {
    if |a| > 0 {
      DotSelfNonnegative(a[1..]);
    }
  }

  /** Dropping a line's first point leaves the line that starts one step later. */
  lemma LineTail(a: real, b: real, n: nat)
    requires n > 0
    ensures Line(a, b, n)[1..] == Line(a + b, b, n - 1)
  {
    forall i | 0 <= i < n - 1
      ensures Line(a, b, n)[1..][i] == Line(a + b, b, n - 1)[i]
    {
      assert a + b * ((i + 1) as real) == (a + b) + b * (i as real);
    }
  }

  lemma {:induction false} SumLine(a: real, b: real, n: nat)
    ensures Sum(Line(a, b, n)) == (n as real) * a + b * ((n as real) * ((n as real) - 1.0) / 2.0)
    decreases n
  {
    if n > 0 {
      LineTail(a, b, n);
      SumLine(a + b, b, n - 1);
      var m := (n - 1) as real;
      assert Sum(Line(a, b, n)) == a + (m * (a + b) + b * (m * (m - 1.0) / 2.0));
      assert m * (a + b) + b * (m * (m - 1.0) / 2.0) == m * a + b * (m * (m + 1.0) / 2.0);
    }
  }

  /** The mean of points on a line is the line's value at the middle position. */
  lemma MeanOfLine(a: real, b: real, n: nat)
    requires n > 0
    ensures Mean(Line(a, b, n)) == a + b * (((n as real) - 1.0) / 2.0)
  {
    var nr := n as real;
    var mid := a + b * ((nr - 1.0) / 2.0);
    SumLine(a, b, n);
    assert Sum(Line(a, b, n)) == nr * mid;
    assert (nr * mid) / nr == mid;
  }

  /** The positions' mean is the middle position (n-1)/2. */
  lemma MeanPositions(n: nat)
    requires n > 0
    ensures Mean(Positions(n)) == ((n as real) - 1.0) / 2.0
  {
    MeanOfLine(0.0, 1.0, n);
  }

  /** The centred positions: position i lies i - (n-1)/2 from the middle. */
  lemma CenteredPositions(n: nat)
    requires n > 0
    ensures forall i :: 0 <= i < n ==> Centered(Positions(n))[i] == (i as real) - ((n as real) - 1.0) / 2.0
  {
    MeanPositions(n);
  }

  /** With two or more points the positions have positive spread, so the slope's
      denominator is never zero. */
  lemma PositionSpreadPositive(n: nat)
    requires n >= 2
    ensures Dot(Centered(Positions(n)), Centered(Positions(n))) > 0.0
  {
    var cx := Centered(Positions(n));
    CenteredPositions(n);
    assert cx[0] == -((n as real) - 1.0) / 2.0;
    assert cx[0] * cx[0] > 0.0;
    DotSelfNonnegative(cx[1..]);
  }

  // ---------------------------------------------------------------------------
  // Sign of the slope
  // ---------------------------------------------------------------------------

  lemma MulNonnegative(x: real, y: real)
    requires (x >= 0.0 && y >= 0.0) || (x <= 0.0 && y <= 0.0)
    ensures x * y >= 0.0
  {
  }

  lemma MulNonpositive(x: real, y: real)
    requires (x >= 0.0 && y <= 0.0) || (x <= 0.0 && y >= 0.0)
    ensures x * y <= 0.0
  {
  }

  lemma MulPositive(x: real, y: real)
    requires x > 0.0 && y > 0.0
    ensures x * y > 0.0
  {
  }

  /** Two sequences agree in sign at every index, so every term of their dot product
      is nonnegative; `Opposite` is the mirror image. */
  predicate Agree(a: seq<real>, b: seq<real>)
    requires |a| == |b|
  {
    forall i :: 0 <= i < |a| ==> (a[i] >= 0.0 && b[i] >= 0.0) || (a[i] <= 0.0 && b[i] <= 0.0)
  }

  predicate Opposite(a: seq<real>, b: seq<real>)
    requires |a| == |b|
  {
    forall i :: 0 <= i < |a| ==> (a[i] >= 0.0 && b[i] <= 0.0) || (a[i] <= 0.0 && b[i] >= 0.0)
  }

  lemma {:induction false} DotAgree(a: seq<real>, b: seq<real>)
    requires |a| == |b|
    ensures Agree(a, b) ==> Dot(a, b) >= 0.0
    ensures Opposite(a, b) ==> Dot(a, b) <= 0.0
    decreases |a|
  {
    if |a| > 0 {
      DotAgree(a[1..], b[1..]);
      if Agree(a, b) {
        MulNonnegative(a[0], b[0]);
        assert Agree(a[1..], b[1..]) by {
          assert forall i :: 0 <= i < |a| - 1 ==> a[1..][i] == a[i + 1] && b[1..][i] == b[i + 1];
        }
      }
      if Opposite(a, b) {
        MulNonpositive(a[0], b[0]);
        assert Opposite(a[1..], b[1..]) by {
          assert forall i :: 0 <= i < |a| - 1 ==> a[1..][i] == a[i + 1] && b[1..][i] == b[i + 1];
        }
      }
    }
  }

  /** Sign agreement with a strictly positive last pair makes the dot product positive. */
  lemma DotAgreeLastPositive(a: seq<real>, b: seq<real>)
    requires |a| == |b| > 0
    requires Agree(a, b)
    requires a[|a| - 1] > 0.0 && b[|b| - 1] > 0.0
    ensures Dot(a, b) > 0.0
  {
    var n := |a|;
    DotSnoc(a, b);
    MulPositive(a[n - 1], b[n - 1]);
    assert Agree(a[..n - 1], b[..n - 1]) by {
      assert forall i :: 0 <= i < n - 1 ==> a[..n - 1][i] == a[i] && b[..n - 1][i] == b[i];
    }
    DotAgree(a[..n - 1], b[..n - 1]);
  }

  /** The index of the middle value, (n-1)/2 rounded down, sits at or before the
      real midpoint and less than one step before it. */
  lemma MedianIndex(n: nat)
    requires n > 0
    ensures ((((n - 1) / 2) as real)) <= ((n as real) - 1.0) / 2.0 < ((((n - 1) / 2 + 1) as real))
  {
  }

  /** Centring on the middle value instead of the mean leaves the numerator unchanged,
      because the centred positions sum to zero. */
  lemma NumeratorRecentred(y: seq<real>, c: real)
    requires |y| >= 2
    ensures Dot(Centered(Positions(|y|)), Centered(y)) == Dot(Centered(Positions(|y|)), Shift(y, c))
  {
    var cx := Centered(Positions(|y|));
    CenteredSumsToZero(Positions(|y|));
    DotShiftRight(cx, y, Mean(y));
    DotShiftRight(cx, y, c);
  }

  /** Centred on its middle value, a nondecreasing window agrees in sign with the
      centred positions: positions before the middle carry values at most the middle
      one, later positions values at least it. A nonincreasing window is opposite. */
  lemma MiddleCentredSigns(y: seq<real>)
    requires |y| >= 2
    ensures Nondecreasing(y) ==> Agree(Centered(Positions(|y|)), Shift(y, y[(|y| - 1) / 2]))
    ensures Nonincreasing(y) ==> Opposite(Centered(Positions(|y|)), Shift(y, y[(|y| - 1) / 2]))
  {
    CenteredPositions(|y|);
    MedianIndex(|y|);
  }

  /** The numerator of the slope has the direction of a monotone window. */
  lemma NumeratorSign(y: seq<real>)
    requires |y| >= 2
    ensures Nondecreasing(y) ==> Dot(Centered(Positions(|y|)), Centered(y)) >= 0.0
    ensures Nonincreasing(y) ==> Dot(Centered(Positions(|y|)), Centered(y)) <= 0.0
    ensures StrictlyIncreasing(y) ==> Dot(Centered(Positions(|y|)), Centered(y)) > 0.0
  {
    var n := |y|;
    var cx := Centered(Positions(n));
    var d := Shift(y, y[(n - 1) / 2]);
    NumeratorRecentred(y, y[(n - 1) / 2]);
    MiddleCentredSigns(y);
    DotAgree(cx, d);
    if StrictlyIncreasing(y) {
      assert Nondecreasing(y);
      CenteredPositions(n);
      MedianIndex(n);
      DotAgreeLastPositive(cx, d);
    }
  }

  /** A monotone window has a slope of the same direction; a strictly rising one a
      positive slope. */
  lemma SlopeFollowsDirection(y: seq<real>)
    requires |y| >= 2
    ensures Nondecreasing(y) ==> OlsSlope(y) >= 0.0
    ensures Nonincreasing(y) ==> OlsSlope(y) <= 0.0
    ensures StrictlyIncreasing(y) ==> OlsSlope(y) > 0.0
  {
    var cx := Centered(Positions(|y|));
    PositionSpreadPositive(|y|);
    NumeratorSign(y);
    assert OlsSlope(y) == Dot(cx, Centered(y)) / Dot(cx, cx);
  }

  /** The least-squares slope of points lying exactly on a line is that line's slope. */
  lemma SlopeOfLine(a: real, b: real, n: nat)
    requires n >= 2
    ensures OlsSlope(Line(a, b, n)) == b
  {
    var y := Line(a, b, n);
    var h := ((n as real) - 1.0) / 2.0;
    var cx := Centered(Positions(n));
    PositionSpreadPositive(n);
    CenteredPositions(n);
    MeanOfLine(a, b, n);
    forall i | 0 <= i < n
      ensures Centered(y)[i] == Scale(cx, b)[i]
    {
      assert y[i] - (a + b * h) == b * ((i as real) - h);
    }
    assert Centered(y) == Scale(cx, b);
    DotScaleRight(cx, cx, b);
    var d := Dot(cx, cx);
    assert OlsSlope(y) == (b * d) / d;
  }

  // ---------------------------------------------------------------------------
  // Properties of the classification
  // ---------------------------------------------------------------------------

  lemma NormalizedSign(slope: real, mean: real, window: nat)
    requires mean != 0.0
    ensures slope >= 0.0 ==> slope / Abs(mean) * (window as real) >= 0.0
    ensures slope <= 0.0 ==> slope / Abs(mean) * (window as real) <= 0.0
  {
  }

  /** The classification follows the sign of the window's slope: a nonnegative
      slope is never Down and a nonpositive one never Up. */
  lemma TrendFollowsSlope(v: seq<real>, window: nat)
    requires 2 <= window <= |v|
    ensures OlsSlope(v[|v| - window..]) >= 0.0 ==> TrendOf(v, window) != Down
    ensures OlsSlope(v[|v| - window..]) <= 0.0 ==> TrendOf(v, window) != Up
  {
    var recent := v[|v| - window..];
    if Mean(recent) != 0.0 {
      NormalizedSign(OlsSlope(recent), Mean(recent), window);
    }
  }

  /** A window whose values never fall is never classified as trending down. */
  lemma RisingWindowNeverDown(v: seq<real>, window: nat)
    requires 2 <= window <= |v|
    requires Nondecreasing(v[|v| - window..])
    ensures TrendOf(v, window) != Down
  {
    SlopeFollowsDirection(v[|v| - window..]);
    TrendFollowsSlope(v, window);
  }

  /** A window whose values never rise is never classified as trending up. */
  lemma FallingWindowNeverUp(v: seq<real>, window: nat)
    requires 2 <= window <= |v|
    requires Nonincreasing(v[|v| - window..])
    ensures TrendOf(v, window) != Up
  {
    SlopeFollowsDirection(v[|v| - window..]);
    TrendFollowsSlope(v, window);
  }

  /** A window of identical values is flat. */
  lemma ConstantWindowIsFlat(v: seq<real>, window: nat)
    requires 2 <= window <= |v|
    requires forall i :: |v| - window <= i < |v| ==> v[i] == v[|v| - 1]
    ensures TrendOf(v, window) == Flat
  {
    var recent := v[|v| - window..];
    assert Nondecreasing(recent) && Nonincreasing(recent);
    SlopeFollowsDirection(recent);
  }
}
