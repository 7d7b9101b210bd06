/**
 * `calculateRegression` of src/features/mood-tracker/useMoodAnalisys.ts:
 * least squares over the pairs (x[i], y[i]) for i < n, with the caller's
 * means. R² is accumulated in the same loop from a running slope estimate,
 * so it is not the textbook two-pass coefficient of determination.
 */
module Regression {

  import opened Numeric

  datatype RegressionResult = RegressionResult(slope: real, rSquared: real)

  function XDiff(x: seq<real>, meanX: real, j: nat): real
    requires j < |x|
  {
    x[j] - meanX
  }

  function YDiff(y: seq<int>, meanY: real, j: nat): real
    requires j < |y|
  {
    y[j] as real - meanY
  }

  /** Σ_{j < i} (x[j] - meanX)(y[j] - meanY) */
  function SumXY(x: seq<real>, y: seq<int>, meanX: real, meanY: real, i: nat): (r: real)
    requires i <= |x| && i <= |y|
    ensures (forall j :: 0 <= j < i ==> x[j] == meanX) ==> r == 0.0
  {
    if i == 0 then 0.0
    else SumXY(x, y, meanX, meanY, i - 1) + XDiff(x, meanX, i - 1) * YDiff(y, meanY, i - 1)
  }

  /** Σ_{j < i} (x[j] - meanX)² */
  function SumXX(x: seq<real>, meanX: real, i: nat): real
    requires i <= |x|
  {
    if i == 0 then 0.0
    else SumXX(x, meanX, i - 1) + XDiff(x, meanX, i - 1) * XDiff(x, meanX, i - 1)
  }

  /** Σ_{j < i} (y[j] - meanY)² */
  function SumYY(y: seq<int>, meanY: real, i: nat): real
    requires i <= |y|
  {
    if i == 0 then 0.0
    else SumYY(y, meanY, i - 1) + Square(YDiff(y, meanY, i - 1))
  }

  /** `numerator / (denominator || 1)`: a slope estimate that divides by 1
      while the denominator is still 0. */
  function SlopeOf(numerator: real, denominator: real): real {
    numerator / (if denominator == 0.0 then 1.0 else denominator)
  }

  /** The slope estimate after the first i pairs. */
  function RunningSlope(x: seq<real>, y: seq<int>, meanX: real, meanY: real, i: nat): real
    requires i <= |x| && i <= |y|
  {
    SlopeOf(SumXY(x, y, meanX, meanY, i), SumXX(x, meanX, i))
  }

  /** The value predicted for pair i - 1 from the slope estimate over the
      first i pairs, which already includes that pair. */
  function Predicted(x: seq<real>, y: seq<int>, meanX: real, meanY: real, i: nat): real
    requires 0 < i <= |x| && i <= |y|
  {
    meanY + RunningSlope(x, y, meanX, meanY, i) * XDiff(x, meanX, i - 1)
  }

  function Residual(x: seq<real>, y: seq<int>, meanX: real, meanY: real, i: nat): real
    requires 0 < i <= |x| && i <= |y|
  {
    y[i - 1] as real - Predicted(x, y, meanX, meanY, i)
  }

  /** Σ_{0 < j <= i} (y[j - 1] - Predicted(j))² */
  function SumResiduals(x: seq<real>, y: seq<int>, meanX: real, meanY: real, i: nat): (r: real)
    requires i <= |x| && i <= |y|
    ensures 0.0 <= r
  {
    if i == 0 then 0.0
    else
      SquareNonNegative(Residual(x, y, meanX, meanY, i));
      SumResiduals(x, y, meanX, meanY, i - 1) + Square(Residual(x, y, meanX, meanY, i))
  }

  /** The four running sums of the loop. */
  datatype Accumulators = Accumulators(
    numerator: real,
    denominator: real,
    totalSquaredResiduals: real,
    totalSquaredTotal: real)

  /** The slope estimate of the running sums. */
  function SlopeSoFar(acc: Accumulators): real {
    SlopeOf(acc.numerator, acc.denominator)
  }

  /** The running sums once the first i pairs are folded in. */
  function AccumulatorsAfter(x: seq<real>, y: seq<int>, meanX: real, meanY: real, i: nat): Accumulators
    requires i <= |x| && i <= |y|
  {
    Accumulators(SumXY(x, y, meanX, meanY, i), SumXX(x, meanX, i),
                 SumResiduals(x, y, meanX, meanY, i), SumYY(y, meanY, i))
  }

  /** The result the code reads off the running sums after the loop: the
      slope (0 when the denominator is 0) and 1 - residuals / total (0 when
      the total is 0). */
  function ResultOf(acc: Accumulators): (r: RegressionResult)
    ensures acc.denominator == 0.0 ==> r.slope == 0.0
    ensures acc.denominator != 0.0 ==> r.slope * acc.denominator == acc.numerator
    ensures acc.totalSquaredTotal == 0.0 ==> r.rSquared == 0.0
    ensures 0.0 < acc.totalSquaredTotal ==> (r.rSquared <= 1.0 <==> 0.0 <= acc.totalSquaredResiduals)
  {
    RegressionResult(
      if acc.denominator == 0.0 then 0.0 else acc.numerator / acc.denominator,
      if acc.totalSquaredTotal == 0.0 then 0.0 else 1.0 - acc.totalSquaredResiduals / acc.totalSquaredTotal)
  }

  /**
   * The result over the first n pairs: the least-squares slope (0 when the
   * x values do not vary) and R² (0 when the y values do not vary), which
   * always lies between 0 and 1.
   */
  function RegressionOf(x: seq<real>, y: seq<int>, meanX: real, meanY: real, n: nat): (r: RegressionResult)
    requires n <= |x| && n <= |y|
    ensures n == 0 ==> r == RegressionResult(0.0, 0.0)
    ensures SumXX(x, meanX, n) == 0.0 ==> r.slope == 0.0
    ensures SumYY(y, meanY, n) == 0.0 ==> r.rSquared == 0.0
    ensures 0.0 <= r.rSquared <= 1.0
  {
    if n == 0 then RegressionResult(0.0, 0.0)
    else
      SumsWithinTotal(x, y, meanX, meanY, n);
      RSquaredInRange(AccumulatorsAfter(x, y, meanX, meanY, n));
      ResultOf(AccumulatorsAfter(x, y, meanX, meanY, n))
  }

  /** `next` is `acc` with the pair of differences `xDiff` and `yDiff` and
      score `yValue` folded in, as the loop body does; `residual` is that
      pair's residual against the slope estimate of `next`. */
  predicate FoldsInto(acc: Accumulators, next: Accumulators, xDiff: real, yDiff: real,
                      yValue: real, meanY: real, residual: real) {
    && yDiff == yValue - meanY
    && next.numerator == acc.numerator + xDiff * yDiff
    && next.denominator == acc.denominator + xDiff * xDiff
    && residual == yValue - (meanY + SlopeSoFar(next) * xDiff)
    && next.totalSquaredResiduals == acc.totalSquaredResiduals + Square(residual)
    && next.totalSquaredTotal == acc.totalSquaredTotal + Square(yDiff)
  }

  /** The sums over i pairs are those over i - 1 pairs with pair i - 1 folded in. */
  lemma SumsStep(x: seq<real>, y: seq<int>, meanX: real, meanY: real, i: nat)
    requires 0 < i <= |x| && i <= |y|
    ensures FoldsInto(AccumulatorsAfter(x, y, meanX, meanY, i - 1), AccumulatorsAfter(x, y, meanX, meanY, i),
                      XDiff(x, meanX, i - 1), YDiff(y, meanY, i - 1), y[i - 1] as real, meanY,
                      Residual(x, y, meanX, meanY, i))
  {
  }

  /** `SumsStep` indexed forward: the sums over i + 1 pairs from those over i. */
  lemma SumsStepForward(x: seq<real>, y: seq<int>, meanX: real, meanY: real, i: nat)
    requires i < |x| && i < |y|
    ensures SumXY(x, y, meanX, meanY, i + 1) == SumXY(x, y, meanX, meanY, i) + XDiff(x, meanX, i) * YDiff(y, meanY, i)
    ensures SumXX(x, meanX, i + 1) == SumXX(x, meanX, i) + XDiff(x, meanX, i) * XDiff(x, meanX, i)
    ensures SumResiduals(x, y, meanX, meanY, i + 1) == SumResiduals(x, y, meanX, meanY, i) + Square(Residual(x, y, meanX, meanY, i + 1))
    ensures SumYY(y, meanY, i + 1) == SumYY(y, meanY, i) + Square(YDiff(y, meanY, i))
  {
  }

  /** What the running sums keep from one pass to the next: the numerator
      vanishes with the denominator, and the squared residuals plus the part
      the current slope explains stay within the squared total. */
  predicate WithinTotal(acc: Accumulators) {
    && 0.0 <= acc.denominator
    && (acc.denominator == 0.0 ==> acc.numerator == 0.0)
    && 0.0 <= acc.totalSquaredResiduals
    && acc.totalSquaredResiduals + SlopeSoFar(acc) * acc.numerator <= acc.totalSquaredTotal
  }

  /** The slope estimate times the denominator gives back the numerator. */
  lemma SlopeSpansNumerator(acc: Accumulators)
    requires acc.denominator == 0.0 ==> acc.numerator == 0.0
    ensures acc.numerator == SlopeSoFar(acc) * acc.denominator
  {
    if acc.denominator != 0.0 {
      var q := SlopeSoFar(acc);
      assert q == acc.numerator / acc.denominator;
    }
  }

  /** The part of the variation the slope estimate explains is never negative. */
  lemma ExplainedNonNegative(acc: Accumulators)
    requires 0.0 <= acc.denominator && (acc.denominator == 0.0 ==> acc.numerator == 0.0)
    ensures 0.0 <= SlopeSoFar(acc) * acc.numerator
  {
    var b := SlopeSoFar(acc);
    SlopeSpansNumerator(acc);
    SquareNonNegative(b);
    ProductNonNegative(acc.denominator, b * b);
    assert b * (b * acc.denominator) == acc.denominator * (b * b);
  }

  /** One step in the sums before it (numerator `s`, denominator `d`, slope
      `q`) and after it (`sNext`, `dNext`, slope `b`), for the pair with
      differences `a` and `c`: the new squared residual and the growth of
      the explained part together stay within the new squared total. */
  lemma ResidualStep(a: real, c: real, s: real, d: real, q: real, sNext: real, dNext: real, b: real, residual: real)
    requires 0.0 <= d && s == q * d
    requires sNext == s + a * c && dNext == d + a * a && sNext == b * dNext
    requires residual == c - b * a
    ensures Square(residual) + b * sNext <= Square(c) + q * s
  {
    assert Square(residual) == c * c - 2.0 * (a * b * c) + (b * b) * (a * a);
    assert b * sNext == (b * b) * d + (b * b) * (a * a);
    assert q * s == (q * q) * d;
    assert a * b * c == b * (b * (d + a * a) - s);
    var e := b - q;
    assert Square(residual) + b * sNext == Square(c) + q * s - (e * e) * d;
    SquareNonNegative(e);
    ProductNonNegative(e * e, d);
  }

  /** Folding in a pair adds no more to the squared residuals and the
      explained part together than its squared difference from the mean. */
  lemma FoldExplainsNoMore(acc: Accumulators, next: Accumulators, xDiff: real, yDiff: real,
                           yValue: real, meanY: real, residual: real)
    requires 0.0 <= acc.denominator && (acc.denominator == 0.0 ==> acc.numerator == 0.0)
    requires FoldsInto(acc, next, xDiff, yDiff, yValue, meanY, residual)
    requires next.denominator == 0.0 ==> next.numerator == 0.0
    ensures Square(residual) + SlopeSoFar(next) * next.numerator <= Square(yDiff) + SlopeSoFar(acc) * acc.numerator
  {
    SlopeSpansNumerator(acc);
    SlopeSpansNumerator(next);
    assert residual == yDiff - SlopeSoFar(next) * xDiff;
    ResidualStep(xDiff, yDiff, acc.numerator, acc.denominator, SlopeSoFar(acc),
                 next.numerator, next.denominator, SlopeSoFar(next), residual);
  }

  /** The loop body keeps `WithinTotal`. */
  lemma StepKeepsWithinTotal(acc: Accumulators, next: Accumulators, xDiff: real, yDiff: real,
                             yValue: real, meanY: real, residual: real)
    requires WithinTotal(acc) && FoldsInto(acc, next, xDiff, yDiff, yValue, meanY, residual)
    ensures WithinTotal(next)
  {
    SquareNonNegative(xDiff);
    SquareNonNegative(residual);
    if next.denominator == 0.0 {
      SquareZero(xDiff);
      ProductOfEquals(xDiff, yDiff, 0.0, yDiff);
    }
    FoldExplainsNoMore(acc, next, xDiff, yDiff, yValue, meanY, residual);
  }

  /** The running sums keep `WithinTotal` whatever the pairs. */
  lemma {:induction false} SumsWithinTotal(x: seq<real>, y: seq<int>, meanX: real, meanY: real, i: nat)
    requires i <= |x| && i <= |y|
    ensures WithinTotal(AccumulatorsAfter(x, y, meanX, meanY, i))
  {
    if i > 0 {
      SumsWithinTotal(x, y, meanX, meanY, i - 1);
      SumsStep(x, y, meanX, meanY, i);
      StepKeepsWithinTotal(AccumulatorsAfter(x, y, meanX, meanY, i - 1), AccumulatorsAfter(x, y, meanX, meanY, i),
                           XDiff(x, meanX, i - 1), YDiff(y, meanY, i - 1), y[i - 1] as real, meanY,
                           Residual(x, y, meanX, meanY, i));
    }
  }

  /** Sums that keep `WithinTotal` give an R² between 0 and 1. */
  lemma RSquaredInRange(acc: Accumulators)
    requires WithinTotal(acc)
    ensures 0.0 <= ResultOf(acc).rSquared <= 1.0
  {
    if acc.totalSquaredTotal != 0.0 {
      ExplainedNonNegative(acc);
      RSquaredBound(acc.totalSquaredResiduals, 0.0, acc.totalSquaredTotal);
      QuotientNonNegative(acc.totalSquaredResiduals, acc.totalSquaredTotal);
    }
  }

  /** The textbook coefficient of determination Sxy² / (Sxx · Syy) of the sums. */
  function Determination(acc: Accumulators): real
    requires acc.denominator != 0.0 && acc.totalSquaredTotal != 0.0
  {
    ProductNonZero(acc.denominator, acc.totalSquaredTotal);
    acc.numerator * acc.numerator / (acc.denominator * acc.totalSquaredTotal)
  }

  /** Although each residual is taken against the slope known so far, R² is
      never below the textbook coefficient of determination. */
  lemma RSquaredAtLeastDetermination(acc: Accumulators)
    requires WithinTotal(acc) && acc.denominator != 0.0 && acc.totalSquaredTotal != 0.0
    ensures Determination(acc) <= ResultOf(acc).rSquared
  {
    ExplainedNonNegative(acc);
    ExplainedByFit(acc);
    RSquaredBound(acc.totalSquaredResiduals, acc.numerator * acc.numerator / acc.denominator, acc.totalSquaredTotal);
    QuotientOfQuotient(acc.numerator * acc.numerator, acc.denominator, acc.totalSquaredTotal);
  }

  /** With a non-zero denominator the explained part is numerator² / denominator. */
  lemma ExplainedByFit(acc: Accumulators)
    requires acc.denominator != 0.0
    ensures SlopeSoFar(acc) * acc.numerator == acc.numerator * acc.numerator / acc.denominator
  {
    assert SlopeSoFar(acc) == acc.numerator / acc.denominator;
    ScaleQuotient(acc.numerator, acc.denominator, acc.numerator);
  }

  /** 1 - r / t is at least e / t when r + e <= t. */
  lemma RSquaredBound(r: real, e: real, t: real)
    requires 0.0 < t && r + e <= t
    ensures e / t <= 1.0 - r / t
  {
    PartsAtMostOne(r, e, t);
  }

  /** Over the first n pairs, once both the x and the y values vary, R² is at
      least the textbook coefficient Sxy² / (Sxx · Syy). */
  lemma RSquaredAtLeastTextbook(x: seq<real>, y: seq<int>, meanX: real, meanY: real, n: nat)
    requires n <= |x| && n <= |y|
    requires SumXX(x, meanX, n) != 0.0 && SumYY(y, meanY, n) != 0.0
    ensures Determination(AccumulatorsAfter(x, y, meanX, meanY, n)) <= RegressionOf(x, y, meanX, meanY, n).rSquared
  {
    SumsWithinTotal(x, y, meanX, meanY, n);
    RSquaredAtLeastDetermination(AccumulatorsAfter(x, y, meanX, meanY, n));
  }

  /** One pass of the loop body: folds pair i into the running sums. */
  method AccumulatePair(x: seq<real>, y: seq<int>, meanX: real, meanY: real, i: nat, acc: Accumulators)
    returns (next: Accumulators)
    requires i < |x| && i < |y|
    requires acc == AccumulatorsAfter(x, y, meanX, meanY, i)
    ensures next == AccumulatorsAfter(x, y, meanX, meanY, i + 1)
  {
    var xDiff := x[i] - meanX;
    var yDiff := y[i] as real - meanY;
    var numerator := acc.numerator + xDiff * yDiff;
    var denominator := acc.denominator + xDiff * xDiff;
    var predicted := meanY + SlopeOf(numerator, denominator) * xDiff;
    var residual := y[i] as real - predicted;
    var totalSquaredResiduals := acc.totalSquaredResiduals + Square(residual);
    var totalSquaredTotal := acc.totalSquaredTotal + Square(yDiff);
    next := Accumulators(numerator, denominator, totalSquaredResiduals, totalSquaredTotal);
    PairFoldsIn(x, y, meanX, meanY, i, acc, xDiff, yDiff, numerator, denominator, residual);
  }

  /** The values the loop body computes for pair i are the sums over i + 1 pairs. */
  lemma PairFoldsIn(x: seq<real>, y: seq<int>, meanX: real, meanY: real, i: nat, acc: Accumulators,
                    xDiff: real, yDiff: real, numerator: real, denominator: real, residual: real)
    requires i < |x| && i < |y| && acc == AccumulatorsAfter(x, y, meanX, meanY, i)
    requires xDiff == x[i] - meanX && yDiff == y[i] as real - meanY
    requires numerator == acc.numerator + xDiff * yDiff
    requires denominator == acc.denominator + xDiff * xDiff
    requires residual == y[i] as real - (meanY + SlopeOf(numerator, denominator) * xDiff)
    ensures Accumulators(numerator, denominator, acc.totalSquaredResiduals + Square(residual),
                         acc.totalSquaredTotal + Square(yDiff))
            == AccumulatorsAfter(x, y, meanX, meanY, i + 1)
  {
    SumsStepForward(x, y, meanX, meanY, i);
    CrossTermsAgree(x, y, meanX, meanY, i, xDiff, yDiff);
    assert numerator == SumXY(x, y, meanX, meanY, i + 1);
    assert denominator == SumXX(x, meanX, i + 1);
    ResidualAgrees(x, y, meanX, meanY, i, numerator, denominator, xDiff, residual);
  }

  /** The loop's products for pair i are the terms the sums add for it. */
  lemma CrossTermsAgree(x: seq<real>, y: seq<int>, meanX: real, meanY: real, i: nat, xDiff: real, yDiff: real)
    requires i < |x| && i < |y|
    requires xDiff == x[i] - meanX && yDiff == y[i] as real - meanY
    ensures xDiff * yDiff == XDiff(x, meanX, i) * YDiff(y, meanY, i)
    ensures xDiff * xDiff == XDiff(x, meanX, i) * XDiff(x, meanX, i)
    ensures yDiff == YDiff(y, meanY, i)
  {
    ProductOfEquals(xDiff, yDiff, XDiff(x, meanX, i), YDiff(y, meanY, i));
    ProductOfEquals(xDiff, xDiff, XDiff(x, meanX, i), XDiff(x, meanX, i));
  }

  /** The loop's residual for pair i, from the sums over i + 1 pairs, is `Residual`. */
  lemma ResidualAgrees(x: seq<real>, y: seq<int>, meanX: real, meanY: real, i: nat,
                       numerator: real, denominator: real, xDiff: real, residual: real)
    requires i < |x| && i < |y|
    requires numerator == SumXY(x, y, meanX, meanY, i + 1) && denominator == SumXX(x, meanX, i + 1)
    requires xDiff == x[i] - meanX
    requires residual == y[i] as real - (meanY + SlopeOf(numerator, denominator) * xDiff)
    ensures residual == Residual(x, y, meanX, meanY, i + 1)
  {
    ResidualForward(x, y, meanX, meanY, i);
    assert SlopeOf(numerator, denominator) == RunningSlope(x, y, meanX, meanY, i + 1);
    ProductOfEquals(SlopeOf(numerator, denominator), xDiff, RunningSlope(x, y, meanX, meanY, i + 1), XDiff(x, meanX, i));
  }

  /** The residual of pair i against the slope estimate over i + 1 pairs. */
  lemma ResidualForward(x: seq<real>, y: seq<int>, meanX: real, meanY: real, i: nat)
    requires i < |x| && i < |y|
    ensures Residual(x, y, meanX, meanY, i + 1)
            == y[i] as real - (meanY + RunningSlope(x, y, meanX, meanY, i + 1) * XDiff(x, meanX, i))
  {
  }

  /** The loop of calculateRegression. */
  method CalculateRegression(x: seq<real>, y: seq<int>, meanX: real, meanY: real, n: nat) returns (r: RegressionResult)
    requires n <= |x| && n <= |y|
    ensures r == RegressionOf(x, y, meanX, meanY, n)
  {
    if n == 0 {
      return RegressionResult(0.0, 0.0);
    }
    var acc := Accumulators(0.0, 0.0, 0.0, 0.0);
    for i := 0 to n
      invariant acc == AccumulatorsAfter(x, y, meanX, meanY, i)
    {
      acc := AccumulatePair(x, y, meanX, meanY, i, acc);
    }
    var numerator, denominator := acc.numerator, acc.denominator;
    var totalSquaredResiduals, totalSquaredTotal := acc.totalSquaredResiduals, acc.totalSquaredTotal;
    var slope := if denominator == 0.0 then 0.0 else numerator / denominator;
    var rSquared := if totalSquaredTotal == 0.0 then 0.0 else 1.0 - totalSquaredResiduals / totalSquaredTotal;
    r := RegressionResult(slope, rSquared);
  }

  /** When every y equals meanY, no pair contributes to any sum. */
  lemma {:induction false} SumsVanishAtMean(x: seq<real>, y: seq<int>, meanX: real, meanY: real, i: nat)
    requires i <= |x| && i <= |y|
    requires forall j :: 0 <= j < i ==> y[j] as real == meanY
    ensures SumXY(x, y, meanX, meanY, i) == 0.0
    ensures SumYY(y, meanY, i) == 0.0
  {
    if i > 0 {
      SumsVanishAtMean(x, y, meanX, meanY, i - 1);
      assert YDiff(y, meanY, i - 1) == 0.0;
    }
  }

  /** Constant y at its mean: slope 0 and R² 0. */
  lemma ConstantAtMean(x: seq<real>, y: seq<int>, meanX: real, meanY: real, n: nat)
    requires n <= |x| && n <= |y|
    requires forall j :: 0 <= j < n ==> y[j] as real == meanY
    ensures RegressionOf(x, y, meanX, meanY, n) == RegressionResult(0.0, 0.0)
  {
    SumsVanishAtMean(x, y, meanX, meanY, n);
  }

  /** The positions 0, 1, ..., n - 1 the analysis uses as x. */
  function Indices(n: nat): (x: seq<real>)
    ensures |x| == n
    ensures forall i :: 0 <= i < n ==> x[i] == i as real
  {
    seq(n, i requires 0 <= i < n => i as real)
  }

  /** Σ_{j < i} (x[j] - meanX)² is at least the first term once i > 0. */
  lemma {:induction false} SumXXAtLeastFirst(x: seq<real>, meanX: real, i: nat)
    requires 0 < i <= |x|
    ensures SumXX(x, meanX, i) >= XDiff(x, meanX, 0) * XDiff(x, meanX, 0)
  {
    if i > 1 {
      SumXXAtLeastFirst(x, meanX, i - 1);
      var d := XDiff(x, meanX, i - 1);
      assert 0.0 <= d * d;
    }
  }

  /** Over the positions 0..n-1 with their mean, the slope's denominator is 0
      exactly when there are fewer than two points. */
  lemma IndexDenominatorPositive(n: nat)
    ensures var meanX := (n as real - 1.0) / 2.0;
            SumXX(Indices(n), meanX, n) == 0.0 <==> n <= 1
  {
    var meanX := (n as real - 1.0) / 2.0;
    var x := Indices(n);
    if n >= 2 {
      SumXXAtLeastFirst(x, meanX, n);
      var d := XDiff(x, meanX, 0);
      assert d < 0.0;
      assert d * d > 0.0;
    } else if n == 1 {
      assert XDiff(x, meanX, 0) == 0.0;
    }
  }

  /** The perfectly linear case pinned by the project's own tests: y = x + 1. */
  lemma PerfectLine()
    ensures RegressionOf([0.0, 1.0, 2.0], [1, 2, 3], 1.0, 2.0, 3) == RegressionResult(1.0, 1.0)
  {
  }
}
