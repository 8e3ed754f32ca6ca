/** The ordinary-least-squares forecast of the alerts panel: the totals
    folded over the days x and values y, the slope and intercept computed
    from them, and the line evaluated 30 days past the largest day. */
module Regression {
  import opened Tools

  /** Days past the last window at which the line is evaluated. */
  const Horizon: real := 30.0

  datatype Line = Line(slope: real, intercept: real)

  /** The totals the source folds before it divides: `n`, `sumX`, `sumY`,
      `sumXY` and `sumXX`. */
  datatype Moments = Moments(n: real, sumX: real, sumY: real, sumXY: real, sumXX: real)

  const NoMoments := Moments(0.0, 0.0, 0.0, 0.0, 0.0)

  /** One more (day, value) pair added to every running total. */
  function Step(m: Moments, u: real, v: real): Moments {
    Moments(m.n + 1.0, m.sumX + u, m.sumY + v, m.sumXY + u * v, m.sumXX + u * u)
  }

  /** The source's `x.length` and its four `reduce` left folds, taken over
      the same pairs in the same order: `x.reduce((a, b) => a + b, 0)`, the
      same over y, `x.reduce((total, xi, i) => total + xi * y[i], 0)` and
      `x.reduce((total, xi) => total + xi * xi, 0)`. */
  function Totals(x: seq<real>, y: seq<real>): Moments
    requires |x| == |y|
  {
    if |x| == 0 then NoMoments
    else Step(Totals(x[..|x| - 1], y[..|y| - 1]), x[|x| - 1], y[|y| - 1])
  }

  /** `n * sumXX - sumX * sumX`. */
  function Denominator(m: Moments): real {
    m.n * m.sumXX - m.sumX * m.sumX
  }

  /** `n * sumXY - sumX * sumY`. */
  function Numerator(m: Moments): real {
    m.n * m.sumXY - m.sumX * m.sumY
  }

  /** `(sumY - slope * sumX) / n`. */
  function Intercept(m: Moments, slope: real): real
    requires m.n != 0.0
  {
    (m.sumY - slope * m.sumX) / m.n
  }

  /** Slope and intercept from the totals; None where the source divides
      by zero. */
  function FitMoments(m: Moments): Option<Line> {
    if Denominator(m) == 0.0 || m.n == 0.0 then None
    else
      var slope := Numerator(m) / Denominator(m);
      Some(Line(slope, Intercept(m, slope)))
  }

  /** The fitted line of a series; None exactly where the source's
      denominator is zero (DegenerateIsIndeterminate: the quotient is then
      0 / 0). */
  function Fit(x: seq<real>, y: seq<real>): (r: Option<Line>)
    requires |x| == |y|
    ensures r.None? <==> Denominator(Totals(x, y)) == 0.0
    ensures r.Some? ==> |x| > 0
  {
    TotalsCount(x, y);
    FitMoments(Totals(x, y))
  }

  /** `Math.max(...x)`. */
  function Max(x: seq<real>): (m: real)
    requires |x| > 0
    ensures m in x
    ensures forall i :: 0 <= i < |x| ==> x[i] <= m
  {
    if |x| == 1 then x[0]
    else
      var p := Max(x[..|x| - 1]);
      assert forall i :: 0 <= i < |x| - 1 ==> x[..|x| - 1][i] == x[i];
      if x[|x| - 1] > p then x[|x| - 1] else p
  }

  /** The line's value at day t. */
  function Evaluate(line: Line, t: real): real {
    line.slope * t + line.intercept
  }

  /** `slope * (Math.max(...x) + 30) + intercept`, None with no fitted line. */
  function Forecast(x: seq<real>, y: seq<real>): (r: Option<real>)
    requires |x| == |y|
    ensures r.None? <==> Denominator(Totals(x, y)) == 0.0
  {
    match Fit(x, y)
    case None => None
    case Some(line) => Some(Evaluate(line, Max(x) + Horizon))
  }

  /** The count total is the length of the series. */
  lemma {:induction false} TotalsCount(x: seq<real>, y: seq<real>)
    requires |x| == |y|
    ensures Totals(x, y).n == |x| as real
  {
    if |x| > 0 {
      TotalsCount(x[..|x| - 1], y[..|y| - 1]);
    }
  }

  /** The folded totals are the separate `reduce` sums. */
  lemma {:induction false} TotalsAreSums(x: seq<real>, y: seq<real>)
    requires |x| == |y|
    ensures Totals(x, y).sumX == Sum(x) && Totals(x, y).sumY == Sum(y)
  {
    if |x| > 0 {
      TotalsAreSums(x[..|x| - 1], y[..|y| - 1]);
    }
  }

  // The fit on exactly linear data.

  /** The values of the line a * x + b at the days x. */
  function LineValues(x: seq<real>, a: real, b: real): (y: seq<real>)
    ensures |y| == |x|
    ensures forall i :: 0 <= i < |x| ==> y[i] == a * x[i] + b
  {
    seq(|x|, i requires 0 <= i < |x| => a * x[i] + b)
  }

  /** The totals of a series whose values lie on the line a * x + b. */
  predicate OnLine(m: Moments, a: real, b: real) {
    m.sumY == a * m.sumX + m.n * b && m.sumXY == a * m.sumXX + b * m.sumX
  }

  lemma {:induction false} TotalsOnLine(x: seq<real>, a: real, b: real)
    ensures OnLine(Totals(x, LineValues(x, a, b)), a, b)
  {
    if |x| > 0 {
      var n := |x| - 1;
      var y := LineValues(x, a, b);
      forall i | 0 <= i < n
        ensures y[..n][i] == LineValues(x[..n], a, b)[i]
      {
      }
      assert y[..n] == LineValues(x[..n], a, b);
      TotalsOnLine(x[..n], a, b);
      StepOnLine(Totals(x[..n], y[..n]), x[n], y[n], a, b);
    }
  }

  /** From such totals the slope and intercept formulas give back a and b. */
  lemma FitMomentsOnLine(m: Moments, a: real, b: real)
    requires OnLine(m, a, b) && m.n != 0.0 && Denominator(m) != 0.0
    ensures FitMoments(m) == Some(Line(a, b))
  {
    SlopeAlgebra(m, a, b);
    Quotient(Numerator(m), Denominator(m), a);
    Quotient(m.sumY - a * m.sumX, m.n, b);
    assert Intercept(m, a) == b;
  }

  /** On exactly linear data with at least two different days the fit
      recovers the line. */
  lemma {:induction false} FitExactOnLine(x: seq<real>, a: real, b: real)
    requires Denominator(Totals(x, LineValues(x, a, b))) != 0.0
    ensures Fit(x, LineValues(x, a, b)) == Some(Line(a, b))
  {
    var y := LineValues(x, a, b);
    TotalsOnLine(x, a, b);
    TotalsCount(x, y);
    FitMomentsOnLine(Totals(x, y), a, b);
  }

  /** The forecast is the fitted line evaluated 30 days past the last day. */
  lemma ForecastOfFit(x: seq<real>, y: seq<real>, line: Line)
    requires |x| == |y| && Fit(x, y) == Some(line)
    ensures Forecast(x, y) == Some(Evaluate(line, Max(x) + Horizon))
  {
  }

  /** ... and forecasts the line's own value 30 days past the last day. */
  lemma {:induction false} ForecastOnLine(x: seq<real>, a: real, b: real)
    requires Denominator(Totals(x, LineValues(x, a, b))) != 0.0
    ensures Forecast(x, LineValues(x, a, b)) == Some(Evaluate(Line(a, b), Max(x) + Horizon))
  {
    FitExactOnLine(x, a, b);
    ForecastOfFit(x, LineValues(x, a, b), Line(a, b));
  }

  /** A constant series fits a flat line and is forecast unchanged. */
  lemma {:induction false} FitConstant(x: seq<real>, y: seq<real>, c: real)
    requires |x| == |y|
    requires forall i :: 0 <= i < |y| ==> y[i] == c
    requires Denominator(Totals(x, y)) != 0.0
    ensures Fit(x, y) == Some(Line(0.0, c))
    ensures Forecast(x, y) == Some(c)
  {
    assert y == LineValues(x, 0.0, c);
    FitExactOnLine(x, 0.0, c);
    ForecastOnLine(x, 0.0, c);
  }

  // When the denominator is zero.

  /** Every element of x equals c. */
  predicate AllEqual(x: seq<real>, c: real) {
    forall i :: 0 <= i < |x| ==> x[i] == c
  }

  /** The totals over days that all equal c. */
  predicate ConstantDays(m: Moments, c: real) {
    m.sumX == m.n * c && m.sumXX == m.n * (c * c) && m.sumXY == c * m.sumY
  }

  lemma {:induction false} TotalsOfConstantDays(x: seq<real>, y: seq<real>, c: real)
    requires |x| == |y| && AllEqual(x, c)
    ensures ConstantDays(Totals(x, y), c)
  {
    if |x| > 0 {
      var n := |x| - 1;
      TotalsOfConstantDays(x[..n], y[..n], c);
      StepConstantDays(Totals(x[..n], y[..n]), c, y[n]);
    }
  }

  /** The denominator is never negative, and it is positive once two days
      differ. */
  lemma {:induction false} DenominatorNonNegative(x: seq<real>, y: seq<real>)
    requires |x| == |y|
    ensures Denominator(Totals(x, y)) >= 0.0
    ensures (exists k :: 0 <= k < |x| && x[k] != x[0]) ==> Denominator(Totals(x, y)) > 0.0
  {
    if |x| > 0 {
      var n := |x| - 1;
      var p, q := x[..n], y[..n];
      var m := Totals(p, q);
      DenominatorNonNegative(p, q);
      TotalsCount(p, q);
      if n == 0 {
        assert m == NoMoments;
        StepFromEmpty(x[n], y[n]);
      } else {
        StepGrows(m, x[n], y[n]);
        if exists k :: 0 <= k < |x| && x[k] != x[0] {
          if exists k :: 0 <= k < |p| && p[k] != p[0] {
            var k :| 0 <= k < |p| && p[k] != p[0];
            assert p[k] != p[0];
          } else {
            assert AllEqual(p, x[0]);
            TotalsOfConstantDays(p, q, x[0]);
            assert x[n] != x[0];
            StepSeparates(m, x[0], x[n], y[n]);
          }
        }
      }
    }
  }

  /** The denominator vanishes exactly when all days are equal. */
  lemma {:induction false} DenominatorZeroIff(x: seq<real>, y: seq<real>)
    requires |x| == |y| && |x| > 0
    ensures Denominator(Totals(x, y)) == 0.0 <==> AllEqual(x, x[0])
  {
    DenominatorNonNegative(x, y);
    if AllEqual(x, x[0]) {
      TotalsOfConstantDays(x, y, x[0]);
      ConstantDenominator(Totals(x, y), x[0]);
    } else {
      var k :| 0 <= k < |x| && x[k] != x[0];
    }
  }

  /** Where the denominator is zero the numerator is zero too, so the
      source computes slope = 0 / 0 = NaN (never an infinity), its
      forecast is NaN, and `forecast > 90` is false: "no forecast" is the
      source's exact behaviour over the reals. */
  lemma {:induction false} DegenerateIsIndeterminate(x: seq<real>, y: seq<real>)
    requires |x| == |y|
    ensures Denominator(Totals(x, y)) == 0.0 ==> Numerator(Totals(x, y)) == 0.0
  {
    if |x| == 0 {
      assert Totals(x, y) == NoMoments;
    } else if AllEqual(x, x[0]) {
      TotalsOfConstantDays(x, y, x[0]);
      ConstantNumerator(Totals(x, y), x[0]);
    } else {
      DenominatorZeroIff(x, y);
    }
  }

  /** One day, or several equal days, never give a forecast. */
  lemma {:induction false} NoFitOnEqualDays(x: seq<real>, y: seq<real>)
    requires |x| == |y| && |x| > 0
    requires AllEqual(x, x[0])
    ensures Fit(x, y).None? && Forecast(x, y).None?
  {
    DenominatorZeroIff(x, y);
  }

  /** Two or more strictly ascending days always give a forecast. */
  lemma {:induction false} FitDefinedOnAscending(x: seq<real>, y: seq<real>)
    requires |x| == |y| && |x| >= 2
    requires forall i, j :: 0 <= i < j < |x| ==> x[i] < x[j]
    ensures Fit(x, y).Some? && Forecast(x, y).Some?
  {
    DenominatorZeroIff(x, y);
    assert x[1] != x[0];
  }

  /** With ascending days, `Math.max(...x)` is the last day. */
  lemma {:induction false} MaxOfAscending(x: seq<real>)
    requires |x| > 0
    requires forall i, j :: 0 <= i < j < |x| ==> x[i] < x[j]
    ensures Max(x) == x[|x| - 1]
  {
  }

  /** Ascending days on a line: the forecast is the line's value 30 days
      past the last day. */
  lemma ForecastOnAscendingLine(x: seq<real>, a: real, b: real)
    requires |x| >= 2
    requires forall i, j :: 0 <= i < j < |x| ==> x[i] < x[j]
    ensures Forecast(x, LineValues(x, a, b)) == Some(Evaluate(Line(a, b), x[|x| - 1] + Horizon))
  {
    FitDefinedOnAscending(x, LineValues(x, a, b));
    ForecastOnLine(x, a, b);
    MaxOfAscending(x);
  }

  /** The values [10, 20, 30, 40] over days [0, 1, 2, 3] fit slope 10 and
      intercept 10, so the forecast at day 3 + 30 is 340. */
  lemma FitExample()
    ensures Fit([0.0, 1.0, 2.0, 3.0], [10.0, 20.0, 30.0, 40.0]) == Some(Line(10.0, 10.0))
    ensures Forecast([0.0, 1.0, 2.0, 3.0], [10.0, 20.0, 30.0, 40.0]) == Some(340.0)
  {
    var x := [0.0, 1.0, 2.0, 3.0];
    assert LineValues(x, 10.0, 10.0) == [10.0, 20.0, 30.0, 40.0];
    FitDefinedOnAscending(x, LineValues(x, 10.0, 10.0));
    FitExactOnLine(x, 10.0, 10.0);
    ForecastOnLine(x, 10.0, 10.0);
    MaxOfAscending(x);
  }

  // One-step facts about the totals, over plain numbers so that the solver
  // meets each non-linear step on its own.

  lemma StepOnLine(m: Moments, u: real, v: real, a: real, b: real)
    requires OnLine(m, a, b) && v == a * u + b
    ensures OnLine(Step(m, u, v), a, b)
  {
    assert u * v == a * (u * u) + b * u;
  }

  lemma StepConstantDays(m: Moments, c: real, v: real)
    requires ConstantDays(m, c)
    ensures ConstantDays(Step(m, c, v), c)
  {
  }

  /** n * sumXX - sumX^2 changes by sumXX - 2 u sumX + n u^2 when (u, v) is
      added, and n times that change is the old denominator plus
      (sumX - n u)^2. */
  lemma StepGrows(m: Moments, u: real, v: real)
    requires m.n > 0.0 && Denominator(m) >= 0.0
    ensures Denominator(Step(m, u, v)) >= Denominator(m)
  {
    var q := m.sumXX - 2.0 * u * m.sumX + m.n * (u * u);
    var e := m.sumX - m.n * u;
    StepDenominator(m, u, v, q);
    GrowthTimesCount(m, u, q, e);
    SquareTermNonNegative(e * e, e);
    NonNegativeFactor(m.n * q, m.n, q);
  }

  lemma StepDenominator(m: Moments, u: real, v: real, q: real)
    requires q == m.sumXX - 2.0 * u * m.sumX + m.n * (u * u)
    ensures Denominator(Step(m, u, v)) == Denominator(m) + q
  {
  }

  lemma GrowthTimesCount(m: Moments, u: real, q: real, e: real)
    requires q == m.sumXX - 2.0 * u * m.sumX + m.n * (u * u)
    requires e == m.sumX - m.n * u
    ensures m.n * q == Denominator(m) + e * e
  {
  }

  lemma StepFromEmpty(u: real, v: real)
    ensures Denominator(Step(NoMoments, u, v)) == 0.0
  {
  }

  lemma StepSeparates(m: Moments, c: real, u: real, v: real)
    requires m.n > 0.0 && ConstantDays(m, c) && u != c
    ensures Denominator(Step(m, u, v)) > 0.0
  {
    var e := u - c;
    var s := e * e;
    SquareTermPositive(s, e);
    var t := m.n * s;
    ProductTermPositive(t, m.n, s);
    SeparatedDenominator(m, c, u, v, e, t);
  }

  lemma SeparatedDenominator(m: Moments, c: real, u: real, v: real, e: real, t: real)
    requires ConstantDays(m, c) && e == u - c && t == m.n * (e * e)
    ensures Denominator(Step(m, u, v)) == t
  {
  }

  lemma SlopeAlgebra(m: Moments, a: real, b: real)
    requires OnLine(m, a, b)
    ensures Numerator(m) == a * Denominator(m)
    ensures m.sumY - a * m.sumX == b * m.n
  {
    assert Numerator(m) == m.n * (a * m.sumXX + b * m.sumX) - m.sumX * (a * m.sumX + m.n * b);
  }

  lemma Quotient(num: real, den: real, q: real)
    requires den != 0.0 && num == q * den
    ensures num / den == q
  {
  }

  lemma ConstantDenominator(m: Moments, c: real)
    requires ConstantDays(m, c)
    ensures Denominator(m) == 0.0
  {
    assert m.n * (m.n * (c * c)) == (m.n * c) * (m.n * c);
  }

  lemma ConstantNumerator(m: Moments, c: real)
    requires ConstantDays(m, c)
    ensures Numerator(m) == 0.0
  {
    assert m.n * (c * m.sumY) == (m.n * c) * m.sumY;
  }

  // A fact about a square is stated about a term t equal to it: the
  // solver loses a hypothesis `p * p > 0` once it has rewritten it.

  lemma ProductTermPositive(t: real, p: real, q: real)
    requires t == p * q
    requires (p > 0.0 && q > 0.0) || (p < 0.0 && q < 0.0)
    ensures t > 0.0
  {
    if p < 0.0 {
      assert p * q == (-p) * (-q);
    }
  }

  lemma SquareTermPositive(t: real, p: real)
    requires t == p * p && p != 0.0
    ensures t > 0.0
  {
    ProductTermPositive(t, p, p);
  }

  lemma SquareTermNonNegative(t: real, p: real)
    requires t == p * p
    ensures t >= 0.0
  {
    if p != 0.0 {
      SquareTermPositive(t, p);
    }
  }

  lemma NonNegativeFactor(t: real, p: real, q: real)
    requires t == p * q && p > 0.0 && t >= 0.0
    ensures q >= 0.0
  {
    if q < 0.0 {
      ProductTermPositive(-t, p, -q);
    }
  }
}
