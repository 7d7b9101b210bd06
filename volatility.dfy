/**
 * `calculateVolatility` of src/features/mood-tracker/useMoodAnalisys.ts:
 * the population standard deviation of the absolute day-to-day changes.
 */
module Volatility {
  import opened Numeric

  /** |s[i] - s[i - 1]| for i = 1 .. |s| - 1. */
  function Changes(s: seq<int>): (changes: seq<real>)
    ensures |changes| == if |s| < 2 then 0 else |s| - 1
    ensures forall i :: 0 <= i < |changes| ==> 0.0 <= changes[i]
  {
    if |s| < 2 then []
    else seq(|s| - 1, i requires 0 <= i < |s| - 1 => Abs(s[i + 1] - s[i]) as real)
  }

  /** The arithmetic mean, 0 for no values. */
  function Mean(xs: seq<real>): (m: real)
    ensures |xs| == 0 ==> m == 0.0
    ensures 0 < |xs| ==> m * |xs| as real == Sum(xs)
  {
    if |xs| == 0 then 0.0 else Sum(xs) / |xs| as real
  }

  /** (xs[i] - m)² for every i. */
  function SquaredDeviations(xs: seq<real>, m: real): (squares: seq<real>)
    ensures |squares| == |xs|
    ensures forall i :: 0 <= i < |xs| ==> 0.0 <= squares[i]
  {
    seq(|xs|, i requires 0 <= i < |xs| => Square(xs[i] - m))
  }

  /** The population variance, 0 for no values. */
  function Variance(xs: seq<real>): (v: real)
    ensures 0.0 <= v
  {
    if |xs| == 0 then 0.0
    else
      SumNonNegative(SquaredDeviations(xs, Mean(xs)));
      Sum(SquaredDeviations(xs, Mean(xs))) / |xs| as real
  }

  /** The volatility of a score sequence: 0 below two scores. */
  function VolatilityOf(s: seq<int>, sqrt: real -> real): (v: real)
    ensures |s| < 2 ==> v == 0.0
    ensures IsSquareRoot(sqrt) ==> 0.0 <= v
  {
    if |s| < 2 then 0.0 else sqrt(Variance(Changes(s)))
  }

  /** The function of the source: collects the changes in a loop, then
      averages them and their squared deviations. */
  method CalculateVolatility(moodScores: seq<int>, sqrt: real -> real) returns (volatility: real)
    ensures volatility == VolatilityOf(moodScores, sqrt)
  {
    if |moodScores| < 2 {
      return 0.0;
    }
    var changes: seq<real> := [];
    for i := 1 to |moodScores|
      invariant changes == Changes(moodScores)[..i - 1]
    {
      changes := changes + [Abs(moodScores[i] - moodScores[i - 1]) as real];
    }
    assert changes == Changes(moodScores);
    var meanChange := if |changes| == 0 then 0.0 else Sum(changes) / |changes| as real;
    var squaredDiffs := seq(|changes|, k requires 0 <= k < |changes| => Square(changes[k] - meanChange));
    var variance := if |changes| == 0 then 0.0 else Sum(squaredDiffs) / |changes| as real;
    assert squaredDiffs == SquaredDeviations(changes, Mean(changes));
    volatility := sqrt(variance);
  }

  /** Values that all equal their mean have no variance. */
  lemma VarianceOfUniform(xs: seq<real>, c: real)
    requires forall i :: 0 <= i < |xs| ==> xs[i] == c
    ensures Variance(xs) == 0.0
  {
    if |xs| > 0 {
      SumConstant(xs, c);
      assert Mean(xs) == c;
      var squares := SquaredDeviations(xs, c);
      SumConstant(squares, 0.0);
    }
  }

  /** Values that do not all agree have positive variance. */
  lemma VarianceOfNonUniform(xs: seq<real>, j: nat, k: nat)
    requires j < |xs| && k < |xs| && xs[j] != xs[k]
    ensures 0.0 < Variance(xs)
  {
    var m := Mean(xs);
    var squares := SquaredDeviations(xs, m);
    var p := if xs[j] != m then j else k;
    SquarePositive(xs[p] - m);
    forall i | 0 <= i < |squares| ensures 0.0 <= squares[i] {
      SquareNonNegative(xs[i] - m);
    }
    SumPositive(squares, p);
  }

  /** Non-negative terms, one of them positive, have a positive sum. */
  lemma {:induction false} SumPositive(xs: seq<real>, p: nat)
    requires forall i :: 0 <= i < |xs| ==> 0.0 <= xs[i]
    requires p < |xs| && 0.0 < xs[p]
    ensures 0.0 < Sum(xs)
  {
    var init := xs[..|xs| - 1];
    assert forall i :: 0 <= i < |init| ==> init[i] == xs[i];
    if p == |xs| - 1 {
      SumNonNegative(init);
    } else {
      SumPositive(init, p);
    }
  }

  /** The volatility is 0 exactly when every day-to-day change has the same
      size: it measures how unevenly the mood moves, not how much. */
  lemma VolatilityZeroIffEvenChanges(s: seq<int>, sqrt: real -> real)
    requires IsSquareRoot(sqrt)
    ensures VolatilityOf(s, sqrt) == 0.0 <==>
            forall i, j :: 0 <= i < |Changes(s)| && 0 <= j < |Changes(s)| ==> Changes(s)[i] == Changes(s)[j]
  {
    var changes := Changes(s);
    if |s| < 2 {
      return;
    }
    if forall i, j :: 0 <= i < |changes| && 0 <= j < |changes| ==> changes[i] == changes[j] {
      VarianceOfUniform(changes, changes[0]);
      SqrtOfZero(sqrt);
    } else {
      var i, j :| 0 <= i < |changes| && 0 <= j < |changes| && changes[i] != changes[j];
      VarianceOfNonUniform(changes, i, j);
      SqrtOfPositive(sqrt, Variance(changes));
    }
  }

  /** A constant mood sequence has volatility 0. */
  lemma ConstantHasZeroVolatility(s: seq<int>, sqrt: real -> real)
    requires IsSquareRoot(sqrt)
    requires forall i :: 0 <= i < |s| ==> s[i] == s[0]
    ensures VolatilityOf(s, sqrt) == 0.0
  {
    if |s| >= 2 {
      var changes := Changes(s);
      forall i | 0 <= i < |changes| ensures changes[i] == 0.0 {
        assert s[i + 1] == s[i];
      }
      VarianceOfUniform(changes, 0.0);
      SqrtOfZero(sqrt);
    }
  }
}
