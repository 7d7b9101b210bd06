/**
 * Score normalisation of src/features/mood-tracker/useMoodAnalisys.ts:
 * a mood outside {1, 2, 3} is read as 2 (medium).
 */
module MoodScores {
  import opened MoodDomain

  function Normalize(mood: int): (score: int)
    ensures IsMoodValue(score)
    ensures IsMoodValue(mood) <==> score == mood
    ensures !IsMoodValue(mood) ==> score == 2
  {
    if IsMoodValue(mood) then mood else 2
  }

  /** Every score normalised, the first one included. */
  function NormalizeEach(s: seq<int>): (c: seq<int>)
    ensures |c| == |s|
    ensures forall i :: 0 <= i < |s| ==> c[i] == Normalize(s[i])
    ensures AllMoodValues(c)
  {
    seq(|s|, i requires 0 <= i < |s| => Normalize(s[i]))
  }

  /** The mood of each entry, in order. */
  function Moods(moods: seq<MoodEntry>): (m: seq<int>)
    ensures |m| == |moods|
    ensures forall i :: 0 <= i < |moods| ==> m[i] == moods[i].mood
  {
    seq(|moods|, i requires 0 <= i < |moods| => moods[i].mood)
  }

  /** `moods.map(...)`: one score per entry, in the same order. */
  function NormalizeScores(moods: seq<MoodEntry>): (scores: seq<int>)
    ensures |scores| == |moods|
    ensures forall i :: 0 <= i < |scores| ==> scores[i] == Normalize(moods[i].mood)
  {
    NormalizeEach(Moods(moods))
  }

  predicate AllMoodValues(scores: seq<int>) {
    forall i :: 0 <= i < |scores| ==> IsMoodValue(scores[i])
  }

  /** Normalising is idempotent: entries already normalised keep their scores. */
  lemma NormalizeIdempotent(moods: seq<MoodEntry>)
    ensures AllMoodValues(NormalizeScores(moods))
    ensures var renormalised := seq(|moods|, i requires 0 <= i < |moods| =>
              moods[i].(mood := Normalize(moods[i].mood)));
            NormalizeScores(renormalised) == NormalizeScores(moods)
  {
  }
}
