# Mood tracker: verified model of the trend analysis and the state updates

This project models, in Dafny, the algorithmic core of the mood tracker
(mastrobardo/mood-tracker). It has three parts:

- **The mood-trend engine, `useMoodTrendAnalysis`.** It reads a history of
  daily mood entries (1 low, 2 medium, 3 high) and computes:
  - a least-squares slope over the day positions 0..n-1, with a
    goodness-of-fit R²;
  - the volatility of the day-to-day changes;
  - the share of each mood;
  - the longest run of equal moods;
  - a trend label from a fixed cascade of thresholds;
  - a prediction clamped to the mood scale.
- **The task-list reducer, `taskReducer`.** It sets, adds, deletes and
  toggles tasks.
- **The dashboard-data update, `updateLocalMoodData`.** It appends a new
  entry to the loaded dashboard data.

Each loop of the source is a method proved equal to a specification
function:
- `CalculateRegression` and `AccumulatePair` model the regression loop;
- `CalculateVolatility` models the changes loop;
- `FindLongestStreak` models the streak scan;
- `CountMoods` models the mood-count fold;
- `MoodTrendAnalysis` models the hook itself.

The properties are lemmas about those functions. The code computes and
reports mood values as numbers, but here they are integers. The
statistics are exact reals. `Math.sqrt` is a parameter `sqrt` that any
proof about its result requires to be a square root (`IsSquareRoot`).

Main results:
- **R² stays in range.** The code scores each point against the slope
  estimated from the points seen so far, not the final slope. R² is still
  always in [0, 1]. The loop keeps an invariant, `WithinTotal`:
  "squared residuals + slope × numerator ≤ total squared deviation".
- **R² never undershoots.** This running R² is never below the textbook
  coefficient of determination Sxy² / (Sxx · Syy).
- **The streak is fully characterised.** It is the first longest run of the
  scores as the scan compares them, and that characterisation determines
  it uniquely.
- **The classifier is stated exactly.** `AnalyzeTrend` has an
  if-and-only-if condition for each of its eight labels. It treats rising
  and falling histories symmetrically.
- **The tests' two nine-day histories are classified as the tests expect.**
  This is proved with exact fractions.
- **Reducer properties.** Adding a task gives it a fresh id above every
  existing one and keeps ids distinct. Deleting that id undoes the add.
  Deleting is idempotent. Toggling twice restores the list.

Two places where the repository's own files disagree with the code:
- **Labels.** src/domain/trend.ts:22-38 declares sixteen trend labels,
  but `analyzeTrend` (src/features/mood-tracker/useMoodAnalisys.ts:115-157)
  returns only eight of them, and the hook adds "no data". The model keeps
  all sixteen in `TrendDescription`. `Classifier.IsClassifierLabel` names
  the eight the classifier returns.
- **Volatility.** The volatility tests at
  src/features/mood-tracker/useMoodAnalisys.spec.ts:103-110 expect the mean
  absolute deviation of the scores themselves: 0.5 for `[1, 2, 1, 2]` and
  about 0.75 for `[1, 2, 3, 1]`. The code instead takes the population
  standard deviation of the absolute day-to-day changes. That gives 0 for
  the first and the square root of 2/9 for the second. The model follows
  the code. `AnalysisExamples.AlternatingVolatility` and
  `AnalysisExamples.UnevenVolatility` state what the code computes.

## Model

| member | source | states |
|---|---|---|
| TrendDomain.Label | src/domain/trend.ts:22-38 | each category has a non-empty label, and "no data" belongs to `NoData` alone |
| TrendDomain.LabelInjective | src/domain/trend.ts:22-38 | distinct trend categories have distinct label strings, so a label determines its category |
| MoodScores.Normalize | src/features/mood-tracker/useMoodAnalisys.ts:188-190 | the score is always 1, 2 or 3; it equals the mood exactly when the mood is one of those, and is 2 otherwise |
| MoodScores.Moods | src/features/mood-tracker/useMoodAnalisys.ts:188 | one mood per entry, in entry order |
| MoodScores.NormalizeEach | src/features/mood-tracker/useMoodAnalisys.ts:96-98 | every score normalised, in order and with the same length, all of them mood values; this is both the map at lines 188-190 and the test at lines 96-98 |
| MoodScores.NormalizeScores | src/features/mood-tracker/useMoodAnalisys.ts:188-191 | one score per entry, in entry order, each the normalised mood of its entry |
| MoodScores.NormalizeIdempotent | src/features/mood-tracker/useMoodAnalisys.ts:188-190 | all normalised scores are mood values, and normalising entries that were already normalised gives the same scores |
| Regression.RegressionOf | src/features/mood-tracker/useMoodAnalisys.ts:25-56 | no pairs give slope 0 and R² 0; no x-variation gives slope 0; no y-variation gives R² 0; R² always lies in [0, 1] |
| Regression.SumXY | src/features/mood-tracker/useMoodAnalisys.ts:42 | the cross sum is 0 when every x equals the x mean |
| Regression.SumResiduals | src/features/mood-tracker/useMoodAnalisys.ts:47 | the squared residuals add up to a non-negative total |
| Regression.ResultOf | src/features/mood-tracker/useMoodAnalisys.ts:51-53 | slope 0 for a zero denominator, otherwise slope × denominator = numerator; R² 0 for zero total variation, otherwise R² ≤ 1 exactly when the squared residuals are non-negative |
| Regression.CalculateRegression | src/features/mood-tracker/useMoodAnalisys.ts:25-56 | the loop returns exactly the regression of the first n pairs, whose properties `RegressionOf` states |
| Regression.AccumulatePair | src/features/mood-tracker/useMoodAnalisys.ts:39-49 | one pass of the loop body turns the four running sums over i pairs into the sums over i + 1 pairs |
| Regression.PairFoldsIn | src/features/mood-tracker/useMoodAnalisys.ts:40-48 | the numerator, denominator, residual and deviation the body computes for pair i are the terms the sums over i + 1 pairs add |
| Regression.CrossTermsAgree | src/features/mood-tracker/useMoodAnalisys.ts:40-43 | proof step: the body's products xDiff·yDiff and xDiff·xDiff for pair i are the terms the sums add for that pair |
| Regression.ResidualAgrees | src/features/mood-tracker/useMoodAnalisys.ts:46-47 | the body's residual for pair i is the residual against the slope estimated from the first i + 1 pairs |
| Regression.ResidualForward | src/features/mood-tracker/useMoodAnalisys.ts:46-47 | proof step: the residual of pair i is y[i] minus the prediction from the slope over the first i + 1 pairs |
| Regression.SumsStep | src/features/mood-tracker/useMoodAnalisys.ts:39-49 | proof step: the sums over i pairs are the sums over i - 1 pairs with pair i - 1 folded in as the loop body folds it |
| Regression.SumsStepForward | src/features/mood-tracker/useMoodAnalisys.ts:39-49 | proof step: each of the four sums over i + 1 pairs is the sum over i pairs plus the term for pair i |
| Regression.SlopeSpansNumerator | src/features/mood-tracker/useMoodAnalisys.ts:46 | dividing by the denominator, or by 1 when it is 0, the slope estimate × denominator gives back the numerator whenever a zero denominator comes with a zero numerator |
| Regression.ExplainedNonNegative | src/features/mood-tracker/useMoodAnalisys.ts:46 | the part of the variation the slope estimate explains, slope × numerator, is never negative |
| Regression.ResidualStep | src/features/mood-tracker/useMoodAnalisys.ts:42-47 | folding one pair adds at most its squared deviation to squared residual plus explained part |
| Regression.FoldExplainsNoMore | src/features/mood-tracker/useMoodAnalisys.ts:42-48 | one loop pass adds no more to squared residuals plus explained part than the pair's squared deviation |
| Regression.StepKeepsWithinTotal | src/features/mood-tracker/useMoodAnalisys.ts:39-49 | the loop body preserves the invariant: denominator non-negative, residuals non-negative, residuals + explained part ≤ total |
| Regression.SumsWithinTotal | src/features/mood-tracker/useMoodAnalisys.ts:39-49 | the invariant holds after any number of pairs, for every input |
| Regression.RSquaredInRange | src/features/mood-tracker/useMoodAnalisys.ts:51-53 | sums within the invariant give an R² between 0 and 1 |
| Regression.RSquaredAtLeastDetermination | src/features/mood-tracker/useMoodAnalisys.ts:51-53 | sums within the invariant give an R² at least numerator² / (denominator · total) |
| Regression.ExplainedByFit | src/features/mood-tracker/useMoodAnalisys.ts:51 | with a non-zero denominator the explained part is numerator² / denominator |
| Regression.RSquaredBound | src/features/mood-tracker/useMoodAnalisys.ts:52-53 | 1 - residuals / total is at least explained / total when residuals + explained ≤ total |
| Regression.RSquaredAtLeastTextbook | src/features/mood-tracker/useMoodAnalisys.ts:25-56 | once x and y both vary, the running R² is at least the textbook Sxy² / (Sxx · Syy) |
| Regression.SumsVanishAtMean | src/features/mood-tracker/useMoodAnalisys.ts:39-48 | when every y equals the y mean, the cross sum and the y sum of squares are 0 |
| Regression.ConstantAtMean | src/features/mood-tracker/useMoodAnalisys.spec.ts:76-83 | y constant at its mean gives slope 0 and R² 0, for any x |
| Regression.Indices | src/features/mood-tracker/useMoodAnalisys.ts:207 | the position sequence has n elements, position i holding i |
| Regression.SumXXAtLeastFirst | src/features/mood-tracker/useMoodAnalisys.ts:43 | the x sum of squares is at least its first term |
| Regression.IndexDenominatorPositive | src/features/mood-tracker/useMoodAnalisys.ts:207-229 | over positions 0..n-1 about their mean, the slope's denominator is 0 exactly when n ≤ 1 |
| Regression.PerfectLine | src/features/mood-tracker/useMoodAnalisys.spec.ts:85-91 | y = x + 1 over x = 0, 1, 2 gives slope 1 and R² exactly 1 |
| Volatility.Changes | src/features/mood-tracker/useMoodAnalisys.ts:62-65 | no changes below two scores, otherwise one per consecutive pair, each non-negative |
| Volatility.CalculateVolatility | src/features/mood-tracker/useMoodAnalisys.ts:58-80 | the loop and folds return exactly the standard deviation of the changes (0 below two scores) |
| Volatility.Mean | src/features/mood-tracker/useMoodAnalisys.ts:67-70 | no values have mean 0; otherwise mean × count is the sum |
| Volatility.Variance | src/features/mood-tracker/useMoodAnalisys.ts:71-77 | the variance of any values is non-negative |
| Volatility.VolatilityOf | src/features/mood-tracker/useMoodAnalisys.ts:58-80 | below two scores the volatility is 0; with a square root for `sqrt` it is never negative |
| Volatility.VarianceOfUniform | src/features/mood-tracker/useMoodAnalisys.ts:67-77 | equal values have variance 0 |
| Volatility.VarianceOfNonUniform | src/features/mood-tracker/useMoodAnalisys.ts:67-77 | two different values give a positive variance |
| Volatility.VolatilityZeroIffEvenChanges | src/features/mood-tracker/useMoodAnalisys.ts:58-80 | the volatility is 0 exactly when all day-to-day changes have the same size |
| Volatility.ConstantHasZeroVolatility | src/features/mood-tracker/useMoodAnalisys.spec.ts:95-101 | a constant score sequence, including a single score, has volatility 0 |
| Streak.Compared | src/features/mood-tracker/useMoodAnalisys.ts:90-98 | the scan compares the first score as given and every later score normalised |
| Streak.Step | src/features/mood-tracker/useMoodAnalisys.ts:100-109 | the current mood becomes the compared score; from a state whose current run is at most its best run, the best run never shrinks and stays at least the current run; when the best run changes it becomes the current run of the compared score |
| Streak.Scan | src/features/mood-tracker/useMoodAnalisys.ts:95-110 | after i compared scores the current mood is the last one, and 1 ≤ current run ≤ best run ≤ i |
| Streak.LongestStreakOf | src/features/mood-tracker/useMoodAnalisys.ts:82-113 | the length is 0 exactly for no scores and never exceeds the number of scores |
| Streak.FindLongestStreak | src/features/mood-tracker/useMoodAnalisys.ts:82-113 | the loop returns exactly the scan's result, whose meaning `LongestStreakIsFirstLongestRun` states |
| Streak.RunEndingAt | src/features/mood-tracker/useMoodAnalisys.ts:100-109 | a run ending at the next score extends the current run when the score repeats and has length 1 otherwise |
| Streak.StepKeepsInvariant | src/features/mood-tracker/useMoodAnalisys.ts:95-110 | one iteration keeps the scan invariant: current run maximal, best run the first longest so far |
| Streak.InitialInvariant | src/features/mood-tracker/useMoodAnalisys.ts:90-93 | the initial values satisfy the scan invariant after one score |
| Streak.ScanKeepsInvariant | src/features/mood-tracker/useMoodAnalisys.ts:95-110 | the scan invariant holds after every prefix |
| Streak.LongestStreakIsFirstLongestRun | src/features/mood-tracker/useMoodAnalisys.ts:82-113 | the result is empty-input (2, 0) or the mood and length of the first longest run of equal compared scores |
| Streak.LongestStreakUnique | src/features/mood-tracker/useMoodAnalisys.ts:82-113 | that characterisation determines the result uniquely |
| Streak.IsLongestStreak | src/features/mood-tracker/useMoodAnalisys.ts:82-113 | a longest streak of a non-empty sequence has a length between 1 and the sequence length and a mood that occurs in it |
| Streak.ComparedOfMoodValues | src/features/mood-tracker/useMoodAnalisys.ts:90-98 | scores already in {1, 2, 3} are compared as they are |
| Streak.StreakOfNone | src/features/mood-tracker/useMoodAnalisys.spec.ts:114-116 | no scores give mood 2, length 0 |
| Streak.StreakOfOne | src/features/mood-tracker/useMoodAnalisys.spec.ts:118-120 | [2] gives mood 2, length 1 |
| Streak.StreakOfMixed | src/features/mood-tracker/useMoodAnalisys.spec.ts:122-127 | [1, 1, 1, 2, 2] gives mood 1, length 3 |
| Streak.StreakOfInvalid | src/features/mood-tracker/useMoodAnalisys.spec.ts:129-132 | [1, 4, 4, 1] gives mood 2, length 2 |
| Streak.UnnormalizedFirstScore | src/features/mood-tracker/useMoodAnalisys.ts:90-100 | as written, [4, 4] gives mood 4, length 1: a mood that is not a mood value |
| Streak.NormalizedStreakIsLongestRun | src/features/mood-tracker/useMoodAnalisys.ts:82-113 | the corrected streak is the first longest run of the normalised scores and its mood is always 1, 2 or 3 |
| Streak.NormalizedStreakAgrees | src/features/mood-tracker/useMoodAnalisys.ts:231 | on already normalised scores, as the hook passes them, the corrected streak equals the source's |
| Classifier.AnalyzeTrend | src/features/mood-tracker/useMoodAnalisys.ts:115-157 | one of the eight cascade labels; for each, the exact condition on slope, R², volatility and shares under which it is returned (first match wins) |
| Classifier.MirrorSymmetry | src/features/mood-tracker/useMoodAnalisys.ts:115-157 | negating the slope and swapping high and low shares turns each label into its opposite |
| Classifier.SteeperSlopeStaysImproving | src/features/mood-tracker/useMoodAnalisys.ts:127-144 | raising the slope never turns an improving label into a non-improving one |
| Classifier.HighlyVariableExample | src/features/mood-tracker/useMoodAnalisys.spec.ts:167-175 | volatility 0.9 is "highly variable" |
| Classifier.SignificantExamples | src/features/mood-tracker/useMoodAnalisys.spec.ts:177-195 | slope ±0.06 with R² 0.8 is improving/declining significantly |
| Classifier.SlightExamples | src/features/mood-tracker/useMoodAnalisys.spec.ts:197-215 | slope ±0.03 with R² 0.5 is improving/declining slightly |
| Classifier.DominanceExamples | src/features/mood-tracker/useMoodAnalisys.spec.ts:217-245 | flat slopes fall to the share rules: 60 % high, 60 % low, or neither |
| Descriptions.GetMoodDescription | src/features/mood-tracker/useMoodAnalisys.ts:159-166 | one of the three descriptions, the one for the normalised mood |
| Descriptions.MoodDescriptionInjective | src/features/mood-tracker/useMoodAnalisys.ts:159-166 | different mood values get different descriptions |
| Descriptions.NatToString | src/features/mood-tracker/useMoodAnalisys.ts:174 | the length renders as a non-empty digit string without leading zero |
| Descriptions.NatToStringRoundTrip | src/features/mood-tracker/useMoodAnalisys.ts:174 | reading the digit string back gives the length |
| Descriptions.ToLower | src/features/mood-tracker/useMoodAnalisys.ts:174-176 | same length, each character lower-cased |
| Descriptions.GetStreakDescription | src/features/mood-tracker/useMoodAnalisys.ts:168-177 | "No streak found" exactly for length 0, otherwise the sentence with the length and the lower-cased mood description |
| Descriptions.LoweredMoodDescriptionInjective | src/features/mood-tracker/useMoodAnalisys.ts:174-176 | lower-cased mood descriptions still tell the normalised moods apart |
| Descriptions.StreakDescriptionInjective | src/features/mood-tracker/useMoodAnalisys.ts:168-177 | two non-empty streaks with the same sentence have the same length and normalised mood |
| Descriptions.StreakDescriptionExamples | src/features/mood-tracker/useMoodAnalisys.spec.ts:143-150 | the two sentences the tests expect |
| Descriptions.GetVolatilityDescription | src/features/mood-tracker/useMoodAnalisys.ts:179-184 | each of the four descriptions exactly on its band: below 0.3, below 0.6, below 0.9, from 0.9 |
| Descriptions.VolatilityDescriptionMonotonic | src/features/mood-tracker/useMoodAnalisys.ts:179-184 | more volatility never gives a more stable description |
| Descriptions.DescriptionExamples | src/features/mood-tracker/useMoodAnalisys.spec.ts:136-163 | the mood and volatility descriptions the tests expect, mood 4 read as neutral |
| MoodAnalysis.CountMoods | src/features/mood-tracker/useMoodAnalisys.ts:209-212 | each score's count is its number of occurrences, and exactly the occurring scores are keys |
| MoodAnalysis.Share | src/features/mood-tracker/useMoodAnalisys.ts:215-217 | a share is non-negative, 0 exactly for a zero count, and 100 when the count is all n |
| MoodAnalysis.PercentagesOf | src/features/mood-tracker/useMoodAnalisys.ts:214-218 | each share is non-negative and is 0 exactly when its score does not occur |
| MoodAnalysis.Clamp | src/features/mood-tracker/useMoodAnalisys.ts:233 | the result is in [1, 3]; values inside are kept, values below give 1, values above give 3 |
| MoodAnalysis.Prediction | src/features/mood-tracker/useMoodAnalisys.ts:233 | the prediction lies in [1, 3] |
| MoodAnalysis.AnalysisOf | src/features/mood-tracker/useMoodAnalisys.ts:233-246 | the measured statistics are reported unchanged, the trend is one of the classifier's eight labels (never "no data") and the prediction lies in [1, 3] |
| MoodAnalysis.AnalysisOfScores | src/features/mood-tracker/useMoodAnalisys.ts:207-246 | for non-empty scores: a classifier label, a prediction in [1, 3] and a streak of length between 1 and the number of scores |
| MoodAnalysis.TrendAnalysisOf | src/features/mood-tracker/useMoodAnalisys.ts:186-247 | no entries give the fixed no-data result; the trend is "no data" exactly when there are no entries; otherwise a classifier label and a streak of 1 to n scores; the prediction always lies in [1, 3] |
| MoodAnalysis.MoodTrendAnalysis | src/features/mood-tracker/useMoodAnalisys.ts:186-247 | the hook's result is exactly the analysis function, whose properties the lemmas below state |
| AnalysisProperties.MoodCountsCover | src/features/mood-tracker/useMoodAnalisys.ts:209-218 | the counts of 1, 2 and 3 add up to the number of normalised scores |
| AnalysisProperties.ShareBounds | src/features/mood-tracker/useMoodAnalisys.ts:214-218 | a share of at most n out of n lies in [0, 100] |
| AnalysisProperties.SharesAddUp | src/features/mood-tracker/useMoodAnalisys.ts:214-218 | shares of counts adding up to n add up to 100 |
| AnalysisProperties.PercentagesAddUp | src/features/mood-tracker/useMoodAnalisys.ts:214-218 | the high, medium and low shares each lie in [0, 100] and add up to 100 |
| AnalysisProperties.AverageOnScale | src/features/mood-tracker/useMoodAnalisys.ts:221 | the average of normalised scores lies in [1, 3] |
| AnalysisProperties.SumOfIndices | src/features/mood-tracker/useMoodAnalisys.ts:220 | the positions 0..n-1 add up to n(n - 1)/2 |
| AnalysisProperties.MeanIndex | src/features/mood-tracker/useMoodAnalisys.ts:220 | the mean position is (n - 1)/2 |
| AnalysisProperties.NoEntries | src/features/mood-tracker/useMoodAnalisys.ts:193-205 | no entries give the canonical no-data result |
| AnalysisProperties.StatisticsInRange | src/features/mood-tracker/useMoodAnalisys.ts:186-247 | average and prediction in [1, 3], shares in [0, 100] adding to 100, volatility non-negative, streak the first longest run of the scores |
| AnalysisProperties.OnlyMoodsMatter | src/features/mood-tracker/useMoodAnalisys.ts:186-247 | entries with the same normalised moods give the same analysis, whatever their ids and days |
| AnalysisProperties.CountsOfConstant | src/features/mood-tracker/useMoodAnalisys.ts:209-212 | a constant sequence holds its value |n| times and nothing else |
| AnalysisProperties.ConstantShares | src/features/mood-tracker/useMoodAnalisys.ts:214-218 | a constant history puts 100 % in its own mood's share |
| AnalysisProperties.ConstantMean | src/features/mood-tracker/useMoodAnalisys.ts:221 | a constant history averages to its mood |
| AnalysisProperties.ConstantStreak | src/features/mood-tracker/useMoodAnalisys.ts:82-113 | a constant history is its own longest streak |
| AnalysisProperties.ConstantHistory | src/features/mood-tracker/useMoodAnalisys.ts:186-247 | a constant history gets slope 0, volatility 0, the whole history as streak, one full share, its mood as prediction and the share-rule label |
| AnalysisExamples.Entries | src/features/mood-tracker/useMoodAnalisys.spec.ts:17-23 | entries carrying the given moods, in order |
| AnalysisExamples.RisingFit | src/features/mood-tracker/useMoodAnalisys.spec.ts:249-258 | the rising history's sums: Sxy 17, Sxx 60, Syy 50/9 |
| AnalysisExamples.RisingResiduals | src/features/mood-tracker/useMoodAnalisys.spec.ts:249-258 | the rising history's running squared residuals, exactly |
| AnalysisExamples.FallingFit | src/features/mood-tracker/useMoodAnalisys.spec.ts:260-269 | the falling history's sums: Sxy -17, Sxx 60, Syy 50/9 |
| AnalysisExamples.FallingResiduals | src/features/mood-tracker/useMoodAnalisys.spec.ts:260-269 | the falling history's running squared residuals, exactly |
| AnalysisExamples.RisingChanges | src/features/mood-tracker/useMoodAnalisys.spec.ts:249-258 | the rising history changes mood twice, by 1 |
| AnalysisExamples.FallingChanges | src/features/mood-tracker/useMoodAnalisys.spec.ts:260-269 | the falling history changes mood twice, by 1 |
| AnalysisExamples.TwoStepVariance | src/features/mood-tracker/useMoodAnalisys.ts:67-77 | two unit changes among eight give variance 0.1875 |
| AnalysisExamples.TwoStepVolatility | src/features/mood-tracker/useMoodAnalisys.spec.ts:249-269 | both histories stay below the high-volatility threshold |
| AnalysisExamples.AlternatingVolatility | src/features/mood-tracker/useMoodAnalisys.spec.ts:103-105 | the code gives [1, 2, 1, 2] volatility 0 |
| AnalysisExamples.UnevenVolatility | src/features/mood-tracker/useMoodAnalisys.spec.ts:107-110 | the code gives [1, 2, 3, 1] variance 2/9 and a volatility whose square is 2/9 |
| AnalysisExamples.RisingHistory | src/features/mood-tracker/useMoodAnalisys.spec.ts:249-258 | [1, 1, 2, 2, 2, 3, 3, 3, 3] is "improving significantly", slope 17/60 > 0.05, prediction 3 |
| AnalysisExamples.FallingHistory | src/features/mood-tracker/useMoodAnalisys.spec.ts:260-269 | [3, 3, 3, 3, 2, 2, 2, 1, 1] is "declining significantly", slope -17/60 < -0.05, prediction 1 |
| AnalysisExamples.MeasuredStats | src/features/mood-tracker/useMoodAnalisys.ts:214-221 | the reported average and shares are those of the normalised scores |
| AnalysisExamples.InvalidMoodsAsMedium | src/features/mood-tracker/useMoodAnalisys.spec.ts:42-53 | moods 1, 4, 5, 2 average 1.75 with shares 0 / 75 / 25 |
| AnalysisExamples.ValidMoodShares | src/features/mood-tracker/useMoodAnalisys.spec.ts:55-65 | moods 1, 2, 2, 3, 3 give shares 40 / 40 / 20 |
| TasksContext.MaxId | src/features/tasks/tasks.context.tsx:22 | the maximum of 0 and all ids: at least 0, at least every id, and 0 or one of the ids |
| TasksContext.NextId | src/features/tasks/tasks.context.tsx:22 | the new id is at least 1 and larger than every id in the list |
| TasksContext.RemoveById | src/features/tasks/tasks.context.tsx:37 | the kept tasks are exactly those without the id, never more than before |
| TasksContext.ToggleById | src/features/tasks/tasks.context.tsx:43-48 | same length, each task toggled exactly when its id matches |
| TasksContext.TaskReducer | src/features/tasks/tasks.context.tsx:12-54 | every action leaves a defined list: SET_TASKS the payload, ADD_TASK one task more, DELETE_TASK none more, TOGGLE_TASK the same number |
| TasksContext.AddTaskPrepends | src/features/tasks/tasks.context.tsx:20-32 | ADD_TASK puts the payload first with an id above every existing id and at least 1, keeping the rest |
| TasksContext.AddTaskKeepsIdsDistinct | src/features/tasks/tasks.context.tsx:20-32 | ADD_TASK keeps ids distinct |
| TasksContext.RemoveKeepsIdsDistinct | src/features/tasks/tasks.context.tsx:37 | filtering keeps ids distinct |
| TasksContext.DeleteTaskRemoves | src/features/tasks/tasks.context.tsx:34-38 | DELETE_TASK keeps exactly the tasks without the id, and deleting twice is deleting once |
| TasksContext.DeleteUndoesAdd | src/features/tasks/tasks.context.tsx:20-38 | deleting the id ADD_TASK just assigned gives back the previous list |
| TasksContext.DeleteTaskKeepsIdsDistinct | src/features/tasks/tasks.context.tsx:34-38 | DELETE_TASK keeps ids distinct |
| TasksContext.RemoveByIdDistributes | src/features/tasks/tasks.context.tsx:37 | filtering a concatenation filters each part and keeps them in order, so the kept tasks keep their relative order |
| TasksContext.ToggleTaskFlips | src/features/tasks/tasks.context.tsx:40-49 | TOGGLE_TASK flips `completed` exactly on the tasks with the id and changes nothing else |
| TasksContext.ToggleTwiceRestores | src/features/tasks/tasks.context.tsx:40-49 | toggling the same id twice restores a loaded list |
| TasksContext.UndefinedListBecomesEmpty | src/features/tasks/tasks.context.tsx:34-49 | deleting or toggling on a list not yet loaded gives the empty list |
| TasksContext.FirstIds | src/features/tasks/tasks.context.tsx:20-32 | the first two tasks added to an unloaded list get ids 1 and 2 |
| MoodDataContext.UpdateLocalMoodData | src/features/mood-tracker/mood-data.context.tsx:18-28 | no data stays no data; loaded data gets the entry appended and keeps its stats |
| MoodDataContext.UpdateAppends | src/features/mood-tracker/mood-data.context.tsx:23-26 | the new list is the old one with the entry as its one extra, last element |
| MoodDataContext.UpdatesAppendInOrder | src/features/mood-tracker/mood-data.context.tsx:18-28 | a series of updates on loaded data appends the entries in order |
| MoodDataContext.UpdatesBeforeLoadAreLost | src/features/mood-tracker/mood-data.context.tsx:21 | updates before the data is loaded are all dropped |

## Findings

| source | as written | input that shows it | evidently intended | confidence | as-written member | corrected member |
|---|---|---|---|---|---|---|
| src/features/mood-tracker/useMoodAnalisys.ts:90 | the scan starts from the first score as given, while every later score is normalised before it is compared | `findLongestStreak([4, 4])` returns `{mood: 4, length: 1}` | every score read as 2, as the test at useMoodAnalisys.spec.ts:129-132 expects for later scores: `{mood: 2, length: 2}`, always a mood value | high; not executed | Streak.UnnormalizedFirstScore | Streak.NormalizedStreakIsLongestRun |

The hook passes only normalised scores, so in the analysis the corrected
streak and the source's streak coincide (`Streak.NormalizedStreakAgrees`).
`MoodAnalysis.TrendAnalysisOf` uses the corrected streak, and the
`FindLongestStreak` method as written is proved to return it there.

## Left out

- React plumbing is not modelled: `useMemo`, the context providers and
  hooks, `useReducer`, `useState`, and the errors `useTaskContext` and
  `useMoodDataContext` throw outside a provider. `setMoodData`'s functional
  update is modelled as the function from the previous to the next state.
- `console.log` in `updateLocalMoodData` is output only and is not modelled.
- The reducer's `default` branch is not modelled. It cannot be reached, since
  `TaskAction` is a closed datatype of the four actions.
- The object spread `...state` has no counterpart. `TaskState` has the one
  field `tasks`.
- IEEE floating point is not modelled. Slope, means, shares, R², variance
  and prediction are exact reals. Comparisons at the classifier's thresholds
  and the tests' `toBeCloseTo` tolerances are therefore exact.
- Mood values are integers. A non-integer stored mood, which JavaScript
  would also read as 2, is not represented.
- Volatility.VolatilityOf: `Math.sqrt` is the parameter `sqrt`, so results
  about the volatility hold for any `sqrt` satisfying `IsSquareRoot`.
- Descriptions.ToLower: lower-cases only A-Z. That covers every string the
  descriptions produce. Unicode case mapping is not modelled.
- Descriptions.NatToString: renders non-negative integers in decimal, which
  are the only lengths a streak has. JavaScript's number-to-string
  conversion for other numbers is not modelled.
- TasksContext.NextId: task ids are integers. The spread in
  `Math.max(0, ...ids)` fails with a RangeError beyond the engine's argument
  limit, and a non-numeric id makes the result NaN. Neither is modelled.
- TrendDomain.TrendAnalysis: `prediction` is a plain real, not optional,
  because the analysis always sets it.
- The callers are not part of this model: the dashboard pages, charts, forms
  and task list, and the HTTP modules `api.ts` and `useMoodData.ts`.
