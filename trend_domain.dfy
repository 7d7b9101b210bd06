/** The result of the mood-trend analysis, src/domain/trend.ts. */
module TrendDomain {

  /** The sixteen trend labels the result type admits. */
  datatype TrendDescription =
    | ImprovingSignificantly
    | ImprovingSlightly
    | RelativelyStable
    | DecliningSlightly
    | DecliningSignificantly
    | MostlyPositive
    | ConsistentlyPositive
    | LeaningPositive
    | MostlyNegative
    | ConsistentlyNegative
    | LeaningNegative
    | HighlyVariable
    | ModeratelyVariable
    | MixedExtremes
    | GenerallyNeutral
    | NoData

  /** The string each label stands for in the result record: never empty,
      and "no data" only for `NoData`. */
  function Label(t: TrendDescription): (s: string)
    ensures |s| > 0
    ensures s == "no data" <==> t == NoData
  {
    match t
    case ImprovingSignificantly => "improving significantly"
    case ImprovingSlightly => "improving slightly"
    case RelativelyStable => "relatively stable"
    case DecliningSlightly => "declining slightly"
    case DecliningSignificantly => "declining significantly"
    case MostlyPositive => "mostly positive"
    case ConsistentlyPositive => "consistently positive"
    case LeaningPositive => "leaning positive"
    case MostlyNegative => "mostly negative"
    case ConsistentlyNegative => "consistently negative"
    case LeaningNegative => "leaning negative"
    case HighlyVariable => "highly variable"
    case ModeratelyVariable => "moderately variable"
    case MixedExtremes => "mixed extremes"
    case GenerallyNeutral => "generally neutral"
    case NoData => "no data"
  }

  /** Distinct labels are distinct strings, so the datatype loses nothing. */
  lemma LabelInjective(a: TrendDescription, b: TrendDescription)
    requires Label(a) == Label(b)
    ensures a == b
  {
  }

  /** Share of high (3), medium (2) and low (1) scores, in percent. */
  datatype Percentages = Percentages(high: real, medium: real, low: real)

  /** The mood and length of the longest run of equal scores. */
  datatype StreakResult = StreakResult(mood: int, length: nat)

  /** What the classifier reads. */
  datatype TrendFactors = TrendFactors(slope: real, rSquared: real, volatility: real, percentages: Percentages)

  datatype TrendStats = TrendStats(
    slope: real,
    averageMood: real,
    percentages: Percentages,
    volatility: real,
    longestStreak: StreakResult)

  /** The analysis always sets `prediction`, so it is not optional here. */
  datatype TrendAnalysis = TrendAnalysis(trend: TrendDescription, stats: TrendStats, prediction: real)
}
