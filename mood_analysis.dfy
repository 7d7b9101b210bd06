/**
 * `useMoodTrendAnalysis` of src/features/mood-tracker/useMoodAnalisys.ts:
 * normalises the entries' moods, counts them, fits the trend line, measures
 * volatility and the longest streak, classifies the trend and predicts the
 * next mood.
 */
module MoodAnalysis {
  import opened Numeric
  import opened MoodDomain
  import opened MoodScores
  import opened TrendDomain
  import opened Regression
  import opened Volatility
  import opened Streak
  import opened Classifier

  /** `acc[mood] || 0`: a missing key counts 0. */
  function CountOf(counts: map<int, nat>, v: int): nat {
    if v in counts then counts[v] else 0
  }

  /** The `moodCounts` fold: one key per score that occurs, mapped to the
      number of its occurrences. */
  method CountMoods(moodScores: seq<int>) returns (counts: map<int, nat>)
    ensures forall v :: CountOf(counts, v) == multiset(moodScores)[v]
    ensures forall v :: v in counts <==> v in moodScores
  {
    counts := map[];
    for i := 0 to |moodScores|
      invariant forall v :: CountOf(counts, v) == multiset(moodScores[..i])[v]
      invariant forall v :: v in counts <==> v in moodScores[..i]
    {
      var mood := moodScores[i];
      counts := counts[mood := CountOf(counts, mood) + 1];
      assert moodScores[..i + 1] == moodScores[..i] + [mood];
    }
    assert moodScores[..|moodScores|] == moodScores;
  }

  /** The share of score `v` among `n` scores, in percent. */
  function Share(count: nat, n: nat): (r: real)
    requires 0 < n
    ensures 0.0 <= r
    ensures r == 0.0 <==> count == 0
    ensures count == n ==> r == 100.0
  {
    var q := count as real / n as real;
    assert count == n ==> q == n as real / n as real;
    assert n as real / n as real == 1.0;
    q * 100.0
  }

  /** High, medium and low shares of the scores: a share is zero exactly
      when its score does not occur. */
  function PercentagesOf(scores: seq<int>): (p: Percentages)
    requires 0 < |scores|
    ensures 0.0 <= p.high && 0.0 <= p.medium && 0.0 <= p.low
    ensures p.high == 0.0 <==> 3 !in scores
    ensures p.medium == 0.0 <==> 2 !in scores
    ensures p.low == 0.0 <==> 1 !in scores
  {
    var counts := multiset(scores);
    Percentages(Share(counts[3], |scores|), Share(counts[2], |scores|), Share(counts[1], |scores|))
  }

  /** `Math.max(1, Math.min(3, v))`. */
  function Clamp(v: real): (r: real)
    ensures 1.0 <= r <= 3.0
    ensures 1.0 <= v <= 3.0 ==> r == v
    ensures v < 1.0 ==> r == 1.0
    ensures 3.0 < v ==> r == 3.0
  {
    if 3.0 < v then 3.0 else if v < 1.0 then 1.0 else v
  }

  /** The result for no entries. */
  const NoDataAnalysis: TrendAnalysis :=
    TrendAnalysis(NoData,
                  TrendStats(0.0, 2.0, Percentages(0.0, 0.0, 0.0), 0.0, StreakResult(2, 0)),
                  2.0)

  /** The analysis of `moods`, `sqrt` standing for `Math.sqrt`: the fixed
      "no data" result for no entries, a classifier label otherwise, and a
      prediction on the mood scale either way. */
  function TrendAnalysisOf(moods: seq<MoodEntry>, sqrt: real -> real): (r: TrendAnalysis)
    ensures |moods| == 0 ==> r == NoDataAnalysis
    ensures 0 < |moods| ==> IsClassifierLabel(r.trend) && 1 <= r.stats.longestStreak.length <= |moods|
    ensures r.trend == NoData <==> |moods| == 0
    ensures 1.0 <= r.prediction <= 3.0
  {
    var scores := NormalizeScores(moods);
    if |scores| == 0 then NoDataAnalysis else AnalysisOfScores(scores, sqrt)
  }

  /** The analysis of a non-empty sequence of normalised scores. */
  function AnalysisOfScores(scores: seq<int>, sqrt: real -> real): (r: TrendAnalysis)
    requires 0 < |scores|
    ensures IsClassifierLabel(r.trend)
    ensures 1.0 <= r.prediction <= 3.0
    ensures 1 <= r.stats.longestStreak.length <= |scores|
  {
    var n := |scores|;
    var x := Indices(n);
    var meanY := SumInt(scores) as real / n as real;
    var regression := RegressionOf(x, scores, Sum(x) / n as real, meanY, n);
    AnalysisOf(regression, meanY, PercentagesOf(scores), VolatilityOf(scores, sqrt), NormalizedLongestStreak(scores), n)
  }

  /** Assembles the result from the measured quantities: the statistics are
      passed through, the trend is a classifier label and the prediction is
      on the mood scale. */
  function AnalysisOf(regression: RegressionResult, meanY: real, percentages: Percentages,
                      volatility: real, longestStreak: StreakResult, n: nat): (r: TrendAnalysis)
    ensures IsClassifierLabel(r.trend) && r.trend != NoData
    ensures 1.0 <= r.prediction <= 3.0
    ensures r.stats == TrendStats(regression.slope, meanY, percentages, volatility, longestStreak)
  {
    TrendAnalysis(
      AnalyzeTrend(TrendFactors(regression.slope, regression.rSquared, volatility, percentages)),
      TrendStats(regression.slope, meanY, percentages, volatility, longestStreak),
      Prediction(meanY, regression.slope, n))
  }

  /** The fitted line evaluated `n + 1` steps past its mean, clamped to the
      mood scale. */
  function Prediction(meanY: real, slope: real, n: nat): (p: real)
    ensures 1.0 <= p <= 3.0
  {
    Clamp(meanY + slope * (n + 1) as real)
  }

  method MoodTrendAnalysis(moods: seq<MoodEntry>, sqrt: real -> real) returns (analysis: TrendAnalysis)
    ensures analysis == TrendAnalysisOf(moods, sqrt)
  {
    var moodScores := NormalizeScores(moods);
    var n := |moodScores|;
    if n == 0 {
      return NoDataAnalysis;
    }
    var x := Indices(n);
    var moodCounts := CountMoods(moodScores);
    var percentages := Percentages(Share(CountOf(moodCounts, 3), n),
                                   Share(CountOf(moodCounts, 2), n),
                                   Share(CountOf(moodCounts, 1), n));
    assert percentages == PercentagesOf(moodScores);
    var meanX := Sum(x) / n as real;
    var meanY := SumInt(moodScores) as real / n as real;
    var regression := CalculateRegression(x, moodScores, meanX, meanY, n);
    var volatility := CalculateVolatility(moodScores, sqrt);
    var longestStreak := FindLongestStreak(moodScores);
    NormalizeIdempotent(moods);
    NormalizedStreakAgrees(moodScores);
    var prediction := Prediction(meanY, regression.slope, n);
    analysis := TrendAnalysis(
      AnalyzeTrend(TrendFactors(regression.slope, regression.rSquared, volatility, percentages)),
      TrendStats(regression.slope, meanY, percentages, volatility, longestStreak),
      prediction);
    assert analysis == AnalysisOf(regression, meanY, percentages, volatility, longestStreak, n);
  }
}
