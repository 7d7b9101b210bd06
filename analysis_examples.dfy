/**
 * The analysis on the histories the project's own tests use, worked out
 * from the specification function `TrendAnalysisOf`.
 */
module AnalysisExamples {
  import opened Numeric
  import opened MoodDomain
  import opened MoodScores
  import opened TrendDomain
  import opened Regression
  import opened Volatility
  import opened Classifier
  import opened MoodAnalysis
  import opened AnalysisProperties

  /** Entries with the given moods; ids and days do not matter. */
  function Entries(moods: seq<int>): (entries: seq<MoodEntry>)
    ensures |entries| == |moods|
    ensures forall i :: 0 <= i < |moods| ==> entries[i].mood == moods[i]
  {
    seq(|moods|, i requires 0 <= i < |moods| => MoodEntry(1, "any-day", moods[i]))
  }

  const Rising: seq<int> := [1, 1, 2, 2, 2, 3, 3, 3, 3]
  const Positions: seq<real> := [0.0, 1.0, 2.0, 3.0, 4.0, 5.0, 6.0, 7.0, 8.0]

  lemma RisingFit()
    ensures SumXY(Positions, Rising, 4.0, 20.0 / 9.0, 9) == 17.0
    ensures SumXX(Positions, 4.0, 9) == 60.0
    ensures SumYY(Rising, 20.0 / 9.0, 9) == 50.0 / 9.0
  {
  }

  lemma RisingResidualsUpTo3()
    ensures SumXY(Positions, Rising, 4.0, 20.0 / 9.0, 3) == 9.0
    ensures SumXX(Positions, 4.0, 3) == 29.0
    ensures SumResiduals(Positions, Rising, 4.0, 20.0 / 9.0, 3) == (8388176.0 / 42575625.0)
  {
    assert SumXY(Positions, Rising, 4.0, 20.0 / 9.0, 1) == (44.0 / 9.0);
    assert SumXX(Positions, 4.0, 1) == 16.0;
    assert Predicted(Positions, Rising, 4.0, 20.0 / 9.0, 1) == 1.0;
    assert SumResiduals(Positions, Rising, 4.0, 20.0 / 9.0, 1) == 0.0;
    assert SumXY(Positions, Rising, 4.0, 20.0 / 9.0, 2) == (77.0 / 9.0);
    assert SumXX(Positions, 4.0, 2) == 25.0;
    assert Predicted(Positions, Rising, 4.0, 20.0 / 9.0, 2) == (269.0 / 225.0);
    assert SumResiduals(Positions, Rising, 4.0, 20.0 / 9.0, 2) == (1936.0 / 50625.0);
    assert SumXY(Positions, Rising, 4.0, 20.0 / 9.0, 3) == 9.0;
    assert SumXX(Positions, 4.0, 3) == 29.0;
    assert Predicted(Positions, Rising, 4.0, 20.0 / 9.0, 3) == (418.0 / 261.0);
    assert SumResiduals(Positions, Rising, 4.0, 20.0 / 9.0, 3) == (8388176.0 / 42575625.0);
  }

  lemma RisingResidualsUpTo6()
    ensures SumXY(Positions, Rising, 4.0, 20.0 / 9.0, 6) == 10.0
    ensures SumXX(Positions, 4.0, 6) == 31.0
    ensures SumResiduals(Positions, Rising, 4.0, 20.0 / 9.0, 6) == (678824887621.0 / 1472946322500.0)
  {
    RisingResidualsUpTo3();
    assert SumXY(Positions, Rising, 4.0, 20.0 / 9.0, 4) == (83.0 / 9.0);
    assert SumXX(Positions, 4.0, 4) == 30.0;
    assert Predicted(Positions, Rising, 4.0, 20.0 / 9.0, 4) == (517.0 / 270.0);
    assert SumResiduals(Positions, Rising, 4.0, 20.0 / 9.0, 4) == (313096561.0 / 1532722500.0);
    assert SumXY(Positions, Rising, 4.0, 20.0 / 9.0, 5) == (83.0 / 9.0);
    assert SumXX(Positions, 4.0, 5) == 30.0;
    assert Predicted(Positions, Rising, 4.0, 20.0 / 9.0, 5) == (20.0 / 9.0);
    assert SumResiduals(Positions, Rising, 4.0, 20.0 / 9.0, 5) == (388786561.0 / 1532722500.0);
    assert SumXY(Positions, Rising, 4.0, 20.0 / 9.0, 6) == 10.0;
    assert SumXX(Positions, 4.0, 6) == 31.0;
    assert Predicted(Positions, Rising, 4.0, 20.0 / 9.0, 6) == (710.0 / 279.0);
    assert SumResiduals(Positions, Rising, 4.0, 20.0 / 9.0, 6) == (678824887621.0 / 1472946322500.0);
  }

  /** The running fit of the rising history, one point at a time. */
  lemma RisingResiduals()
    ensures SumXY(Positions, Rising, 4.0, 20.0 / 9.0, 9) == 17.0
    ensures SumXX(Positions, 4.0, 9) == 60.0
    ensures SumResiduals(Positions, Rising, 4.0, 20.0 / 9.0, 9) == (21997086896688061.0 / 34932394984410000.0)
  {
    RisingResidualsUpTo6();
    assert SumXY(Positions, Rising, 4.0, 20.0 / 9.0, 7) == (104.0 / 9.0);
    assert SumXX(Positions, 4.0, 7) == 35.0;
    assert Predicted(Positions, Rising, 4.0, 20.0 / 9.0, 7) == (908.0 / 315.0);
    assert SumResiduals(Positions, Rising, 4.0, 20.0 / 9.0, 7) == (34258203945529.0 / 72174369802500.0);
    assert SumXY(Positions, Rising, 4.0, 20.0 / 9.0, 8) == (125.0 / 9.0);
    assert SumXX(Positions, 4.0, 8) == 44.0;
    assert Predicted(Positions, Rising, 4.0, 20.0 / 9.0, 8) == (1255.0 / 396.0);
    assert SumResiduals(Positions, Rising, 4.0, 20.0 / 9.0, 8) == (17580942148041661.0 / 34932394984410000.0);
    assert SumXY(Positions, Rising, 4.0, 20.0 / 9.0, 9) == 17.0;
    assert SumXX(Positions, 4.0, 9) == 60.0;
    assert Predicted(Positions, Rising, 4.0, 20.0 / 9.0, 9) == (151.0 / 45.0);
    assert SumResiduals(Positions, Rising, 4.0, 20.0 / 9.0, 9) == (21997086896688061.0 / 34932394984410000.0);
  }

  const Falling: seq<int> := [3, 3, 3, 3, 2, 2, 2, 1, 1]

  lemma FallingFit()
    ensures SumXY(Positions, Falling, 4.0, 20.0 / 9.0, 9) == -17.0
    ensures SumXX(Positions, 4.0, 9) == 60.0
    ensures SumYY(Falling, 20.0 / 9.0, 9) == 50.0 / 9.0
  {
  }

  lemma FallingResidualsUpTo3()
    ensures SumXY(Positions, Falling, 4.0, 20.0 / 9.0, 3) == -7.0
    ensures SumXX(Positions, 4.0, 3) == 29.0
    ensures SumResiduals(Positions, Falling, 4.0, 20.0 / 9.0, 3) == (4364969.0 / 42575625.0)
  {
    assert SumXY(Positions, Falling, 4.0, 20.0 / 9.0, 1) == (-28.0 / 9.0);
    assert SumXX(Positions, 4.0, 1) == 16.0;
    assert Predicted(Positions, Falling, 4.0, 20.0 / 9.0, 1) == 3.0;
    assert SumResiduals(Positions, Falling, 4.0, 20.0 / 9.0, 1) == 0.0;
    assert SumXY(Positions, Falling, 4.0, 20.0 / 9.0, 2) == (-49.0 / 9.0);
    assert SumXX(Positions, 4.0, 2) == 25.0;
    assert Predicted(Positions, Falling, 4.0, 20.0 / 9.0, 2) == (647.0 / 225.0);
    assert SumResiduals(Positions, Falling, 4.0, 20.0 / 9.0, 2) == (784.0 / 50625.0);
    assert SumXY(Positions, Falling, 4.0, 20.0 / 9.0, 3) == -7.0;
    assert SumXX(Positions, 4.0, 3) == 29.0;
    assert Predicted(Positions, Falling, 4.0, 20.0 / 9.0, 3) == (706.0 / 261.0);
    assert SumResiduals(Positions, Falling, 4.0, 20.0 / 9.0, 3) == (4364969.0 / 42575625.0);
  }

  lemma FallingResidualsUpTo6()
    ensures SumXY(Positions, Falling, 4.0, 20.0 / 9.0, 6) == -8.0
    ensures SumXX(Positions, 4.0, 6) == 31.0
    ensures SumResiduals(Positions, Falling, 4.0, 20.0 / 9.0, 6) == (155414824381.0 / 368236580625.0)
  {
    FallingResidualsUpTo3();
    assert SumXY(Positions, Falling, 4.0, 20.0 / 9.0, 4) == (-70.0 / 9.0);
    assert SumXX(Positions, 4.0, 4) == 30.0;
    assert Predicted(Positions, Falling, 4.0, 20.0 / 9.0, 4) == (67.0 / 27.0);
    assert SumResiduals(Positions, Falling, 4.0, 20.0 / 9.0, 4) == (142307221.0 / 383180625.0);
    assert SumXY(Positions, Falling, 4.0, 20.0 / 9.0, 5) == (-70.0 / 9.0);
    assert SumXX(Positions, 4.0, 5) == 30.0;
    assert Predicted(Positions, Falling, 4.0, 20.0 / 9.0, 5) == (20.0 / 9.0);
    assert SumResiduals(Positions, Falling, 4.0, 20.0 / 9.0, 5) == (161229721.0 / 383180625.0);
    assert SumXY(Positions, Falling, 4.0, 20.0 / 9.0, 6) == -8.0;
    assert SumXX(Positions, 4.0, 6) == 31.0;
    assert Predicted(Positions, Falling, 4.0, 20.0 / 9.0, 6) == (548.0 / 279.0);
    assert SumResiduals(Positions, Falling, 4.0, 20.0 / 9.0, 6) == (155414824381.0 / 368236580625.0);
  }

  /** The running fit of the falling history, one point at a time. */
  lemma FallingResiduals()
    ensures SumXY(Positions, Falling, 4.0, 20.0 / 9.0, 9) == -17.0
    ensures SumXX(Positions, 4.0, 9) == 60.0
    ensures SumResiduals(Positions, Falling, 4.0, 20.0 / 9.0, 9) == (22877302100929609.0 / 34932394984410000.0)
  {
    FallingResidualsUpTo6();
    assert SumXY(Positions, Falling, 4.0, 20.0 / 9.0, 7) == (-76.0 / 9.0);
    assert SumXX(Positions, 4.0, 7) == 35.0;
    assert Predicted(Positions, Falling, 4.0, 20.0 / 9.0, 7) == (548.0 / 315.0);
    assert SumResiduals(Positions, Falling, 4.0, 20.0 / 9.0, 7) == (8838053687569.0 / 18043592450625.0);
    assert SumXY(Positions, Falling, 4.0, 20.0 / 9.0, 8) == (-109.0 / 9.0);
    assert SumXX(Positions, 4.0, 8) == 44.0;
    assert Predicted(Positions, Falling, 4.0, 20.0 / 9.0, 8) == (553.0 / 396.0);
    assert SumResiduals(Positions, Falling, 4.0, 20.0 / 9.0, 8) == (22601293054139209.0 / 34932394984410000.0);
    assert SumXY(Positions, Falling, 4.0, 20.0 / 9.0, 9) == -17.0;
    assert SumXX(Positions, 4.0, 9) == 60.0;
    assert Predicted(Positions, Falling, 4.0, 20.0 / 9.0, 9) == (49.0 / 45.0);
    assert SumResiduals(Positions, Falling, 4.0, 20.0 / 9.0, 9) == (22877302100929609.0 / 34932394984410000.0);
  }

  /** The sum of eight reals, one element at a time. */
  lemma SumOfEight(xs: seq<real>)
    requires |xs| == 8
    ensures Sum(xs) == xs[0] + xs[1] + xs[2] + xs[3] + xs[4] + xs[5] + xs[6] + xs[7]
  {
    assert xs[..0] == [];
    SumPrefix(xs, 1); SumPrefix(xs, 2); SumPrefix(xs, 3); SumPrefix(xs, 4);
    SumPrefix(xs, 5); SumPrefix(xs, 6); SumPrefix(xs, 7); SumPrefix(xs, 8);
    assert xs[..8] == xs;
  }

  /** The day-to-day changes of the two histories: two steps of 1. */
  lemma RisingChanges()
    ensures Changes(Rising) == [0.0, 1.0, 0.0, 0.0, 1.0, 0.0, 0.0, 0.0]
  {
  }

  lemma FallingChanges()
    ensures Changes(Falling) == [0.0, 0.0, 0.0, 1.0, 0.0, 0.0, 1.0, 0.0]
  {
  }

  lemma TwoStepVariance(changes: seq<real>)
    requires changes == [0.0, 1.0, 0.0, 0.0, 1.0, 0.0, 0.0, 0.0] || changes == [0.0, 0.0, 0.0, 1.0, 0.0, 0.0, 1.0, 0.0]
    ensures Variance(changes) == 0.1875
  {
    SumOfEight(changes);
    assert Mean(changes) == 0.25;
    var squares := SquaredDeviations(changes, 0.25);
    assert forall i :: 0 <= i < 8 ==> squares[i] == (if changes[i] == 1.0 then 0.5625 else 0.0625);
    SumOfEight(squares);
  }

  /** Both histories change mood twice, a step of 1 each time, so their
      changes have variance 3/16 and volatility at most 0.8. */
  lemma TwoStepVolatility(s: seq<int>, sqrt: real -> real)
    requires s == Rising || s == Falling
    requires IsSquareRoot(sqrt)
    ensures VolatilityOf(s, sqrt) <= HighVolatility
  {
    RisingChanges();
    FallingChanges();
    TwoStepVariance(Changes(s));
    SqrtAtMost(sqrt, 0.1875, 0.8);
  }

  /** The sum of three reals, one element at a time. */
  lemma SumOfThree(xs: seq<real>)
    requires |xs| == 3
    ensures Sum(xs) == xs[0] + xs[1] + xs[2]
  {
    assert xs[..0] == [];
    SumPrefix(xs, 1); SumPrefix(xs, 2); SumPrefix(xs, 3);
    assert xs[..3] == xs;
  }

  /** The alternating pattern of the volatility tests moves by 1 every
      day: its changes are even, so the code's volatility is 0. */
  lemma AlternatingVolatility(sqrt: real -> real)
    requires IsSquareRoot(sqrt)
    ensures VolatilityOf([1, 2, 1, 2], sqrt) == 0.0
  {
    assert Changes([1, 2, 1, 2]) == [1.0, 1.0, 1.0];
    VolatilityZeroIffEvenChanges([1, 2, 1, 2], sqrt);
  }

  /** The pattern [1, 2, 3, 1] has changes 1, 1 and 2: their variance is
      2/9, so the code's volatility is the square root of 2/9. */
  lemma UnevenVolatility(sqrt: real -> real)
    requires IsSquareRoot(sqrt)
    ensures Variance(Changes([1, 2, 3, 1])) == 2.0 / 9.0
    ensures var v := VolatilityOf([1, 2, 3, 1], sqrt); 0.0 < v && v * v == 2.0 / 9.0
  {
    var changes := Changes([1, 2, 3, 1]);
    assert changes == [1.0, 1.0, 2.0];
    SumOfThree(changes);
    assert Mean(changes) == 4.0 / 3.0;
    var squares := SquaredDeviations(changes, 4.0 / 3.0);
    assert squares == [1.0 / 9.0, 1.0 / 9.0, 4.0 / 9.0];
    SumOfThree(squares);
    SqrtOfPositive(sqrt, 2.0 / 9.0);
  }

  /** The scores of both histories sum to 20. */
  lemma ScoresSum(s: seq<int>)
    requires s == Rising || s == Falling
    ensures SumInt(s) == 20
  {
    assert s[..0] == [];
    SumIntPrefix(s, 1); SumIntPrefix(s, 2); SumIntPrefix(s, 3);
    SumIntPrefix(s, 4); SumIntPrefix(s, 5); SumIntPrefix(s, 6);
    SumIntPrefix(s, 7); SumIntPrefix(s, 8); SumIntPrefix(s, 9);
    assert s[..9] == s;
  }

  /** The common inputs of the fit: positions 0..8 with mean 4 and scores
      with mean 20/9. */
  lemma NineScores(s: seq<int>)
    requires s == Rising || s == Falling
    ensures NormalizeScores(Entries(s)) == s
    ensures Indices(9) == Positions
    ensures Sum(Positions) / 9.0 == 4.0
    ensures SumInt(s) as real / 9.0 == 20.0 / 9.0
  {
    assert NormalizeScores(Entries(s)) == s;
    MeanIndex(9);
    ScoresSum(s);
  }

  /** The rising history of the tests is classified "improving
      significantly", with slope 17/60 and prediction clamped to 3. */
  lemma RisingHistory(sqrt: real -> real)
    requires IsSquareRoot(sqrt)
    ensures var a := TrendAnalysisOf(Entries(Rising), sqrt);
            && a.trend == ImprovingSignificantly
            && a.stats.slope == 17.0 / 60.0
            && a.stats.averageMood == 20.0 / 9.0
            && a.prediction == 3.0
  {
    NineScores(Rising);
    RisingFit();
    RisingResiduals();
    TwoStepVolatility(Rising, sqrt);
    var r := RegressionOf(Positions, Rising, 4.0, 20.0 / 9.0, 9);
    assert r.slope == 17.0 / 60.0;
    assert r.rSquared > HighRSquared;
  }

  /** The falling history of the tests is classified "declining
      significantly", with slope -17/60 and prediction clamped to 1. */
  lemma FallingHistory(sqrt: real -> real)
    requires IsSquareRoot(sqrt)
    ensures var a := TrendAnalysisOf(Entries(Falling), sqrt);
            && a.trend == DecliningSignificantly
            && a.stats.slope == -17.0 / 60.0
            && a.stats.averageMood == 20.0 / 9.0
            && a.prediction == 1.0
  {
    NineScores(Falling);
    FallingFit();
    FallingResiduals();
    TwoStepVolatility(Falling, sqrt);
    var r := RegressionOf(Positions, Falling, 4.0, 20.0 / 9.0, 9);
    assert r.slope == -17.0 / 60.0;
    assert r.rSquared > HighRSquared;
  }
  /** Where the average and the shares of a result come from. */
  lemma MeasuredStats(moods: seq<MoodEntry>, sqrt: real -> real)
    requires 0 < |moods|
    ensures var scores := NormalizeScores(moods);
            var a := TrendAnalysisOf(moods, sqrt);
            && a.stats.averageMood == SumInt(scores) as real / |scores| as real
            && a.stats.percentages == PercentagesOf(scores)
  {
  }

  lemma SumOfFour(scores: seq<int>)
    requires scores == [1, 2, 2, 2]
    ensures SumInt(scores) == 7
  {
    assert scores[..0] == [];
    SumIntPrefix(scores, 1); SumIntPrefix(scores, 2); SumIntPrefix(scores, 3); SumIntPrefix(scores, 4);
    assert scores[..4] == scores;
  }

  /** Moods 4 and 5 are read as 2: average 1.75, no high share, three
      quarters medium and one quarter low. */
  lemma InvalidMoodsAsMedium(moods: seq<MoodEntry>, sqrt: real -> real)
    requires |moods| == 4
    requires moods[0].mood == 1 && moods[1].mood == 4 && moods[2].mood == 5 && moods[3].mood == 2
    ensures var a := TrendAnalysisOf(moods, sqrt);
            && a.stats.averageMood == 1.75
            && a.stats.percentages == Percentages(0.0, 75.0, 25.0)
  {
    var scores := NormalizeScores(moods);
    assert scores == [1, 2, 2, 2];
    SumOfFour(scores);
    assert SumInt(scores) as real / |scores| as real == 1.75;
    var counts := multiset(scores);
    assert counts[3] == 0 && counts[2] == 3 && counts[1] == 1;
    assert PercentagesOf(scores) == Percentages(0.0, 75.0, 25.0) by {
      assert Share(0, 4) == 0.0 && Share(3, 4) == 75.0 && Share(1, 4) == 25.0;
    }
    MeasuredStats(moods, sqrt);
  }

  lemma ValidMoodShares(moods: seq<MoodEntry>, sqrt: real -> real)
    requires |moods| == 5
    requires moods[0].mood == 1 && moods[1].mood == 2 && moods[2].mood == 2 && moods[3].mood == 3 && moods[4].mood == 3
    ensures TrendAnalysisOf(moods, sqrt).stats.percentages == Percentages(40.0, 40.0, 20.0)
  {
    var scores := NormalizeScores(moods);
    assert scores == [1, 2, 2, 3, 3];
    var counts := multiset(scores);
    assert counts[3] == 2 && counts[2] == 2 && counts[1] == 1;
    assert PercentagesOf(scores) == Percentages(40.0, 40.0, 20.0) by {
      assert Share(2, 5) == 40.0 && Share(1, 5) == 20.0;
    }
    MeasuredStats(moods, sqrt);
  }
}
