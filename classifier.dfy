/**
 * `analyzeTrend` of src/features/mood-tracker/useMoodAnalisys.ts: a fixed
 * cascade of threshold tests on the trend factors.
 */
module Classifier {
  import opened TrendDomain

  const SignificantSlope: real := 0.05
  const HighVolatility: real := 0.8
  const HighRSquared: real := 0.7
  const DominantPercentage: real := 50.0

  /** The labels the classifier can produce; "no data" and the other eight
      labels of the result type are never returned by it. */
  predicate IsClassifierLabel(t: TrendDescription) {
    t in {HighlyVariable, ImprovingSignificantly, DecliningSignificantly, ImprovingSlightly,
          DecliningSlightly, MostlyPositive, MostlyNegative, RelativelyStable}
  }

  /** The cascade, first match wins. Each `ensures` gives the exact condition
      under which a label comes out, with the earlier tests it survived. */
  function AnalyzeTrend(f: TrendFactors): (t: TrendDescription)
    ensures IsClassifierLabel(t)
    ensures t == HighlyVariable <==> f.volatility > HighVolatility
    ensures t == ImprovingSignificantly <==>
              f.volatility <= HighVolatility && f.rSquared > HighRSquared && f.slope > SignificantSlope
    ensures t == DecliningSignificantly <==>
              f.volatility <= HighVolatility && f.rSquared > HighRSquared && f.slope < -SignificantSlope
    ensures t == ImprovingSlightly <==>
              f.volatility <= HighVolatility && f.slope > SignificantSlope / 2.0
              && !(f.rSquared > HighRSquared && f.slope > SignificantSlope)
    ensures t == DecliningSlightly <==>
              f.volatility <= HighVolatility && f.slope < -SignificantSlope / 2.0
              && !(f.rSquared > HighRSquared && f.slope < -SignificantSlope)
    ensures t == MostlyPositive <==>
              f.volatility <= HighVolatility && -SignificantSlope / 2.0 <= f.slope <= SignificantSlope / 2.0
              && f.percentages.high > DominantPercentage
    ensures t == MostlyNegative <==>
              f.volatility <= HighVolatility && -SignificantSlope / 2.0 <= f.slope <= SignificantSlope / 2.0
              && f.percentages.high <= DominantPercentage && f.percentages.low > DominantPercentage
    ensures t == RelativelyStable <==>
              f.volatility <= HighVolatility && -SignificantSlope / 2.0 <= f.slope <= SignificantSlope / 2.0
              && f.percentages.high <= DominantPercentage && f.percentages.low <= DominantPercentage
  {
    if f.volatility > HighVolatility then HighlyVariable
    else if f.rSquared > HighRSquared && f.slope > SignificantSlope then ImprovingSignificantly
    else if f.rSquared > HighRSquared && f.slope < -SignificantSlope then DecliningSignificantly
    else if f.slope > SignificantSlope / 2.0 then ImprovingSlightly
    else if f.slope < -SignificantSlope / 2.0 then DecliningSlightly
    else if f.percentages.high > DominantPercentage then MostlyPositive
    else if f.percentages.low > DominantPercentage then MostlyNegative
    else RelativelyStable
  }

  /** The factors of the opposite history: slope negated, high and low
      shares swapped. */
  function Mirror(f: TrendFactors): TrendFactors {
    f.(slope := -f.slope,
       percentages := Percentages(f.percentages.low, f.percentages.medium, f.percentages.high))
  }

  /** The label of the opposite history. */
  function Opposite(t: TrendDescription): TrendDescription {
    match t
    case ImprovingSignificantly => DecliningSignificantly
    case DecliningSignificantly => ImprovingSignificantly
    case ImprovingSlightly => DecliningSlightly
    case DecliningSlightly => ImprovingSlightly
    case MostlyPositive => MostlyNegative
    case MostlyNegative => MostlyPositive
    case _ => t
  }

  /** The classifier treats improvement and decline alike: mirroring the
      factors mirrors the label, as long as high and low shares are not both
      dominant (they cannot be when the shares add up to 100). */
  lemma MirrorSymmetry(f: TrendFactors)
    requires !(f.percentages.high > DominantPercentage && f.percentages.low > DominantPercentage)
    ensures AnalyzeTrend(Mirror(f)) == Opposite(AnalyzeTrend(f))
  {
  }

  /** A steeper rise never makes the label worse: raising the slope alone
      cannot turn an improving label into a non-improving one. */
  lemma SteeperSlopeStaysImproving(f: TrendFactors, slope: real)
    requires f.slope <= slope
    requires AnalyzeTrend(f) in {ImprovingSignificantly, ImprovingSlightly}
    ensures AnalyzeTrend(f.(slope := slope)) in {ImprovingSignificantly, ImprovingSlightly}
  {
  }

  lemma HighlyVariableExample()
    ensures AnalyzeTrend(TrendFactors(0.0, 0.0, 0.9, Percentages(30.0, 30.0, 40.0))) == HighlyVariable
  {
  }

  lemma SignificantExamples()
    ensures AnalyzeTrend(TrendFactors(0.06, 0.8, 0.3, Percentages(40.0, 30.0, 30.0))) == ImprovingSignificantly
    ensures AnalyzeTrend(TrendFactors(-0.06, 0.8, 0.3, Percentages(30.0, 30.0, 40.0))) == DecliningSignificantly
  {
  }

  lemma SlightExamples()
    ensures AnalyzeTrend(TrendFactors(0.03, 0.5, 0.3, Percentages(35.0, 35.0, 30.0))) == ImprovingSlightly
    ensures AnalyzeTrend(TrendFactors(-0.03, 0.5, 0.3, Percentages(30.0, 35.0, 35.0))) == DecliningSlightly
  {
  }

  lemma DominanceExamples()
    ensures AnalyzeTrend(TrendFactors(0.01, 0.1, 0.3, Percentages(60.0, 20.0, 20.0))) == MostlyPositive
    ensures AnalyzeTrend(TrendFactors(-0.01, 0.1, 0.3, Percentages(20.0, 20.0, 60.0))) == MostlyNegative
    ensures AnalyzeTrend(TrendFactors(0.01, 0.1, 0.3, Percentages(30.0, 40.0, 30.0))) == RelativelyStable
  {
  }
}
