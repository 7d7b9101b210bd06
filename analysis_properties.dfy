/**
 * What `useMoodTrendAnalysis` promises about its result, proved about the
 * specification function `TrendAnalysisOf`.
 */
module AnalysisProperties {
  import opened Numeric
  import opened MoodDomain
  import opened MoodScores
  import opened TrendDomain
  import opened Regression
  import opened Volatility
  import opened Streak
  import opened Classifier
  import opened MoodAnalysis

  /** Every normalised score is 1, 2 or 3, so the three counts cover them all. */
  lemma {:induction false} MoodCountsCover(scores: seq<int>)
    requires AllMoodValues(scores)
    ensures multiset(scores)[1] + multiset(scores)[2] + multiset(scores)[3] == |scores|
  {
    if scores != [] {
      var init := scores[..|scores| - 1];
      assert scores == init + [scores[|scores| - 1]];
      assert AllMoodValues(init) by {
        forall i | 0 <= i < |init| ensures IsMoodValue(init[i]) {
          assert init[i] == scores[i];
        }
      }
      MoodCountsCover(init);
      assert IsMoodValue(scores[|scores| - 1]);
    }
  }

  lemma ShareBounds(count: nat, n: nat)
    requires 0 < n && count <= n
    ensures 0.0 <= Share(count, n) <= 100.0
  {
    var q := count as real / n as real;
    assert q * n as real == count as real;
    assert q <= 1.0;
  }

  lemma SharesAddUp(a: nat, b: nat, c: nat, n: nat)
    requires 0 < n && a + b + c == n
    ensures Share(a, n) + Share(b, n) + Share(c, n) == 100.0
  {
    var r := n as real;
    assert a as real / r + b as real / r + c as real / r == (a + b + c) as real / r;
  }

  /** The three shares lie between 0 and 100 and add up to 100. */
  lemma PercentagesAddUp(scores: seq<int>)
    requires 0 < |scores| && AllMoodValues(scores)
    ensures var p := PercentagesOf(scores);
            && p.high + p.medium + p.low == 100.0
            && 0.0 <= p.high <= 100.0 && 0.0 <= p.medium <= 100.0 && 0.0 <= p.low <= 100.0
  {
    var ms := multiset(scores);
    MoodCountsCover(scores);
    SharesAddUp(ms[3], ms[2], ms[1], |scores|);
    ShareBounds(ms[3], |scores|);
    ShareBounds(ms[2], |scores|);
    ShareBounds(ms[1], |scores|);
  }

  /** `a / n` lies between `lo` and `hi` when `a` lies between `n * lo` and `n * hi`. */
  lemma QuotientBounds(a: real, n: real, lo: real, hi: real)
    requires 0.0 < n && n * lo <= a <= n * hi
    ensures lo <= a / n <= hi
  {
    var q := a / n;
    assert q * n == a;
  }

  /** The average of normalised scores is on the mood scale. */
  lemma AverageOnScale(scores: seq<int>)
    requires 0 < |scores| && AllMoodValues(scores)
    ensures 1.0 <= SumInt(scores) as real / |scores| as real <= 3.0
  {
    SumIntBounds(scores, 1, 3);
    QuotientBounds(SumInt(scores) as real, |scores| as real, 1.0, 3.0);
  }

  /** Σ 0..n-1 = n(n-1)/2, so the mean position is (n - 1) / 2. */
  lemma {:induction false} SumOfIndices(n: nat)
    ensures Sum(Indices(n)) == (n * (n - 1)) as real / 2.0
  {
    if n > 0 {
      var m := n - 1;
      assert Indices(n)[..m] == Indices(m);
      assert Sum(Indices(n)) == Sum(Indices(m)) + m as real;
      SumOfIndices(m);
      TriangleStep(m);
    }
  }

  lemma TriangleStep(m: nat)
    ensures (m * (m - 1)) as real / 2.0 + m as real == ((m + 1) * m) as real / 2.0
  {
    assert m * (m - 1) + 2 * m == (m + 1) * m;
  }

  /** The mean position used for the fit is (n - 1) / 2. */
  lemma MeanIndex(n: nat)
    requires 0 < n
    ensures Sum(Indices(n)) / n as real == (n as real - 1.0) / 2.0
  {
    SumOfIndices(n);
    var r := n as real;
    var total := Sum(Indices(n));
    assert total == r * (r - 1.0) / 2.0;
    DivideOut(total, r, (r - 1.0) / 2.0);
  }

  /** Dividing `r * q` by `r` gives back `q`. */
  lemma DivideOut(a: real, r: real, q: real)
    requires 0.0 < r && a == r * q
    ensures a / r == q
  {
  }

  /** No entries: "no data", slope 0, average 2, no shares, volatility 0,
      the empty streak and prediction 2. */
  lemma NoEntries(sqrt: real -> real)
    ensures TrendAnalysisOf([], sqrt) ==
            TrendAnalysis(NoData,
                          TrendStats(0.0, 2.0, Percentages(0.0, 0.0, 0.0), 0.0, StreakResult(2, 0)),
                          2.0)
  {
  }

  /** Every statistic of a non-empty analysis is in range: the average and
      the prediction on the mood scale, the shares adding up to 100, the
      volatility non-negative, and the streak the first longest run of the
      normalised scores. */
  lemma StatisticsInRange(moods: seq<MoodEntry>, sqrt: real -> real)
    requires 0 < |moods| && IsSquareRoot(sqrt)
    ensures var a := TrendAnalysisOf(moods, sqrt);
            var p := a.stats.percentages;
            && 1.0 <= a.stats.averageMood <= 3.0
            && 1.0 <= a.prediction <= 3.0
            && p.high + p.medium + p.low == 100.0
            && 0.0 <= p.high <= 100.0 && 0.0 <= p.medium <= 100.0 && 0.0 <= p.low <= 100.0
            && 0.0 <= a.stats.volatility
            && 1 <= a.stats.longestStreak.length <= |moods|
            && IsLongestStreak(NormalizeScores(moods), a.stats.longestStreak)
  {
    var scores := NormalizeScores(moods);
    NormalizeIdempotent(moods);
    PercentagesAddUp(scores);
    AverageOnScale(scores);
    ComparedOfMoodValues(scores);
    LongestStreakIsFirstLongestRun(scores);
    NormalizedStreakAgrees(scores);
  }

  /** Only the moods matter: ids and days do not change the analysis, and
      neither does normalising the moods first. */
  lemma OnlyMoodsMatter(moods1: seq<MoodEntry>, moods2: seq<MoodEntry>, sqrt: real -> real)
    requires |moods1| == |moods2|
    requires forall i :: 0 <= i < |moods1| ==> Normalize(moods1[i].mood) == Normalize(moods2[i].mood)
    ensures TrendAnalysisOf(moods1, sqrt) == TrendAnalysisOf(moods2, sqrt)
  {
    assert NormalizeScores(moods1) == NormalizeScores(moods2);
  }

  /** Occurrences in a sequence of equal scores. */
  lemma {:induction false} CountsOfConstant(scores: seq<int>, m: int)
    requires forall i :: 0 <= i < |scores| ==> scores[i] == m
    ensures multiset(scores)[m] == |scores|
    ensures forall v :: v != m ==> multiset(scores)[v] == 0
  {
    if scores != [] {
      var init := scores[..|scores| - 1];
      assert scores == init + [m];
      CountsOfConstant(init, m);
    }
  }

  /** The label a constant history gets: its single mood decides it. */
  function ConstantTrend(m: int): TrendDescription {
    if m == 3 then MostlyPositive else if m == 1 then MostlyNegative else RelativelyStable
  }

  /** The percentages of a constant history: all of it in one share. */
  function ConstantPercentages(m: int): Percentages {
    Percentages(if m == 3 then 100.0 else 0.0, if m == 2 then 100.0 else 0.0, if m == 1 then 100.0 else 0.0)
  }

  lemma ConstantShares(scores: seq<int>, m: int)
    requires 0 < |scores| && IsMoodValue(m)
    requires forall i :: 0 <= i < |scores| ==> scores[i] == m
    ensures PercentagesOf(scores) == ConstantPercentages(m)
  {
    CountsOfConstant(scores, m);
    assert Share(|scores|, |scores|) == 100.0;
    assert Share(0, |scores|) == 0.0;
  }

  lemma ConstantMean(scores: seq<int>, m: int)
    requires 0 < |scores|
    requires forall i :: 0 <= i < |scores| ==> scores[i] == m
    ensures SumInt(scores) as real / |scores| as real == m as real
  {
    SumIntBounds(scores, m, m);
    DivideOut(SumInt(scores) as real, |scores| as real, m as real);
  }

  /** The whole of a constant history is its longest streak. */
  lemma ConstantStreak(scores: seq<int>, m: int)
    requires 0 < |scores| && IsMoodValue(m)
    requires forall i :: 0 <= i < |scores| ==> scores[i] == m
    ensures LongestStreakOf(scores) == StreakResult(m, |scores|)
  {
    ComparedOfMoodValues(scores);
    LongestStreakIsFirstLongestRun(scores);
    assert IsLongestStreak(scores, StreakResult(m, |scores|)) by {
      assert RunAt(scores, 0, |scores|);
    }
    LongestStreakUnique(scores, LongestStreakOf(scores), StreakResult(m, |scores|));
  }

  /** A history of one repeated mood: flat line, no volatility, the whole
      history as the streak, all of it in one share, and the mood itself as
      the prediction. */
  lemma ConstantHistory(moods: seq<MoodEntry>, sqrt: real -> real, m: int)
    requires 0 < |moods| && IsSquareRoot(sqrt) && IsMoodValue(m)
    requires forall i :: 0 <= i < |moods| ==> moods[i].mood == m
    ensures TrendAnalysisOf(moods, sqrt) ==
            TrendAnalysis(ConstantTrend(m),
                          TrendStats(0.0, m as real, ConstantPercentages(m), 0.0, StreakResult(m, |moods|)),
                          m as real)
  {
    var scores := NormalizeScores(moods);
    var n := |scores|;
    assert forall i :: 0 <= i < n ==> scores[i] == m;
    ConstantMean(scores, m);
    var x := Indices(n);
    ConstantAtMean(x, scores, Sum(x) / n as real, m as real, n);
    ConstantHasZeroVolatility(scores, sqrt);
    ConstantShares(scores, m);
    ConstantStreak(scores, m);
    NormalizedStreakAgrees(scores);
    assert Prediction(m as real, 0.0, n) == m as real;
  }
}
