/**
 * `findLongestStreak` of src/features/mood-tracker/useMoodAnalisys.ts: a
 * single left-to-right scan that remembers the first longest run of equal
 * moods. The first score is compared as given; every later score is
 * normalised before it is compared.
 */
module Streak {
  import opened MoodDomain
  import opened MoodScores
  import opened TrendDomain

  /** The scores as the scan compares them. */
  function Compared(s: seq<int>): (c: seq<int>)
    ensures |c| == |s|
    ensures 0 < |s| ==> c[0] == s[0]
    ensures forall i :: 0 < i < |s| ==> c[i] == Normalize(s[i])
  {
    if |s| == 0 then [] else [s[0]] + seq(|s| - 1, i requires 0 <= i < |s| - 1 => Normalize(s[i + 1]))
  }

  /** The scan's four variables. */
  datatype ScanState = ScanState(currentMood: int, currentStreak: nat, maxMood: int, maxStreak: nat)

  /** One iteration of the loop: extend the current run (recording it when it
      beats the best so far, strictly), or start a new one. */
  function Step(st: ScanState, m: int): (next: ScanState)
    ensures next.currentMood == m
    ensures 1 <= st.currentStreak <= st.maxStreak ==>
              next.currentStreak <= next.maxStreak && st.maxStreak <= next.maxStreak
    ensures next.maxStreak != st.maxStreak ==> next.maxMood == m && next.maxStreak == next.currentStreak
  {
    if m == st.currentMood then
      var streak := st.currentStreak + 1;
      if streak > st.maxStreak then ScanState(st.currentMood, streak, st.currentMood, streak)
      else st.(currentStreak := streak)
    else
      st.(currentMood := m, currentStreak := 1)
  }

  /** The state after the first `i` compared scores. */
  function Scan(c: seq<int>, i: nat): (st: ScanState)
    requires 1 <= i <= |c|
    ensures st.currentMood == c[i - 1]
    ensures 1 <= st.currentStreak <= st.maxStreak <= i
  {
    if i == 1 then ScanState(c[0], 1, c[0], 1) else Step(Scan(c, i - 1), c[i - 1])
  }

  /** One more compared score is one more step of the scan. */
  lemma ScanNext(c: seq<int>, i: nat)
    requires 1 <= i < |c|
    ensures Scan(c, i + 1) == Step(Scan(c, i), c[i])
  {
  }

  /** The streak the source reports: mood 2 of length 0 for no scores. */
  function LongestStreakOf(s: seq<int>): (r: StreakResult)
    ensures |s| == 0 <==> r.length == 0
    ensures r.length <= |s|
  {
    if |s| == 0 then StreakResult(2, 0)
    else
      var st := Scan(Compared(s), |s|);
      StreakResult(st.maxMood, st.maxStreak)
  }

  method FindLongestStreak(moodScores: seq<int>) returns (r: StreakResult)
    ensures r == LongestStreakOf(moodScores)
  {
    if |moodScores| == 0 {
      return StreakResult(2, 0);
    }
    var currentMood := moodScores[0];
    var currentStreak: nat := 1;
    var maxStreak: nat := 1;
    var maxMood := currentMood;
    ghost var c := Compared(moodScores);
    ghost var st := Scan(c, 1);
    for i := 1 to |moodScores|
      invariant st == Scan(c, i)
      invariant ScanState(currentMood, currentStreak, maxMood, maxStreak) == st
    {
      var validMood := Normalize(moodScores[i]);
      ScanNext(c, i);
      st := Step(st, validMood);
      if validMood == currentMood {
        currentStreak := currentStreak + 1;
        if currentStreak > maxStreak {
          maxStreak := currentStreak;
          maxMood := currentMood;
        }
      } else {
        currentMood := validMood;
        currentStreak := 1;
      }
    }
    r := StreakResult(maxMood, maxStreak);
  }

  /** `len` equal scores starting at `lo`. */
  predicate RunAt(c: seq<int>, lo: int, len: int) {
    1 <= len && 0 <= lo && lo + len <= |c| && forall k :: lo <= k < lo + len ==> c[k] == c[lo]
  }

  /** No run of length `len` starts before `lo`. */
  ghost predicate NoEarlierRun(c: seq<int>, lo: int, len: int) {
    forall lo' :: 0 <= lo' < lo ==> !RunAt(c, lo', len)
  }

  /** `r` is the first longest run of `c`, or mood 2 of length 0 when `c`
      is empty: every run is at most `r.length` long and the earliest run
      of that length has mood `r.mood`. */
  ghost predicate IsLongestStreak(c: seq<int>, r: StreakResult)
    ensures IsLongestStreak(c, r) && 0 < |c| ==> 1 <= r.length <= |c| && r.mood in c
  {
    if |c| == 0 then r == StreakResult(2, 0)
    else
      && (forall lo, len :: RunAt(c, lo, len) ==> len <= r.length)
      && exists lo :: RunAt(c, lo, r.length) && c[lo] == r.mood && NoEarlierRun(c, lo, r.length)
  }

  /** What the scan knows after `i` scores: the current run is the longest
      run ending at `i - 1`, and the best run is the first longest run among
      the first `i` scores. */
  ghost predicate ScanInvariant(c: seq<int>, i: nat, st: ScanState)
    requires 1 <= i <= |c|
  {
    && st.currentMood == c[i - 1]
    && 1 <= st.currentStreak <= i
    && RunAt(c, i - st.currentStreak, st.currentStreak)
    && (st.currentStreak == i || c[i - st.currentStreak - 1] != c[i - 1])
    && st.currentStreak <= st.maxStreak
    && (forall lo, len :: RunAt(c, lo, len) && lo + len <= i ==> len <= st.maxStreak)
    && exists lo :: RunAt(c, lo, st.maxStreak) && lo + st.maxStreak <= i && c[lo] == st.maxMood
                    && NoEarlierRun(c, lo, st.maxStreak)
  }

  /** A run ending at `i` is no longer than the current run extended by
      `c[i]`, when `c[i]` continues it, and has length 1 otherwise. */
  lemma RunEndingAt(c: seq<int>, i: nat, st: ScanState, lo: int, len: int)
    requires 1 <= i < |c| && ScanInvariant(c, i, st)
    requires RunAt(c, lo, len) && lo + len == i + 1
    ensures c[i] == c[i - 1] ==> len <= st.currentStreak + 1
    ensures c[i] != c[i - 1] ==> len == 1
  {
  }

  lemma StepKeepsInvariant(c: seq<int>, i: nat, st: ScanState)
    requires 1 <= i < |c| && ScanInvariant(c, i, st)
    ensures ScanInvariant(c, i + 1, Step(st, c[i]))
  {
    var next := Step(st, c[i]);
    var lo0 :| RunAt(c, lo0, st.maxStreak) && lo0 + st.maxStreak <= i && c[lo0] == st.maxMood
               && NoEarlierRun(c, lo0, st.maxStreak);
    forall lo, len | RunAt(c, lo, len) && lo + len <= i + 1
      ensures len <= next.maxStreak
    {
      if lo + len == i + 1 {
        RunEndingAt(c, i, st, lo, len);
      }
    }
    if c[i] == st.currentMood {
      var start := i - st.currentStreak;
      assert RunAt(c, start, st.currentStreak + 1);
      if st.currentStreak + 1 > st.maxStreak {
        forall lo' | 0 <= lo' < start
          ensures !RunAt(c, lo', next.maxStreak)
        {
          assert lo' + next.maxStreak <= i;
        }
        assert RunAt(c, start, next.maxStreak) && start + next.maxStreak <= i + 1;
      } else {
        assert RunAt(c, lo0, next.maxStreak) && lo0 + next.maxStreak <= i + 1;
      }
    } else {
      assert RunAt(c, i, 1);
      assert RunAt(c, lo0, next.maxStreak) && lo0 + next.maxStreak <= i + 1;
    }
  }

  lemma InitialInvariant(c: seq<int>)
    requires 1 <= |c|
    ensures ScanInvariant(c, 1, ScanState(c[0], 1, c[0], 1))
  {
    assert RunAt(c, 0, 1);
  }

  lemma {:induction false} ScanKeepsInvariant(c: seq<int>, i: nat)
    requires 1 <= i <= |c|
    ensures ScanInvariant(c, i, Scan(c, i))
  {
    if i == 1 {
      InitialInvariant(c);
    } else {
      ScanKeepsInvariant(c, i - 1);
      StepKeepsInvariant(c, i - 1, Scan(c, i - 1));
    }
  }

  /** The scan finds the first longest run of the compared scores. */
  lemma LongestStreakIsFirstLongestRun(s: seq<int>)
    ensures IsLongestStreak(Compared(s), LongestStreakOf(s))
  {
    var c := Compared(s);
    if |s| > 0 {
      ScanKeepsInvariant(c, |c|);
    }
  }

  /** The characterisation leaves no choice: it determines the streak. */
  lemma LongestStreakUnique(c: seq<int>, r1: StreakResult, r2: StreakResult)
    requires IsLongestStreak(c, r1) && IsLongestStreak(c, r2)
    ensures r1 == r2
  {
    if |c| > 0 {
      var lo1 :| RunAt(c, lo1, r1.length) && c[lo1] == r1.mood && NoEarlierRun(c, lo1, r1.length);
      var lo2 :| RunAt(c, lo2, r2.length) && c[lo2] == r2.mood && NoEarlierRun(c, lo2, r2.length);
      assert r1.length == r2.length;
    }
  }

  /** On scores already in {1, 2, 3}, as the hook passes them, nothing is
      renormalised, so the streak is a run of the scores themselves. */
  lemma ComparedOfMoodValues(s: seq<int>)
    requires AllMoodValues(s)
    ensures Compared(s) == s
  {
  }

  lemma StreakOfNone()
    ensures LongestStreakOf([]) == StreakResult(2, 0)
  {
  }

  lemma StreakOfOne()
    ensures LongestStreakOf([2]) == StreakResult(2, 1)
  {
  }

  lemma StreakOfMixed()
    ensures LongestStreakOf([1, 1, 1, 2, 2]) == StreakResult(1, 3)
  {
    var c := Compared([1, 1, 1, 2, 2]);
    assert c == [1, 1, 1, 2, 2];
    assert Scan(c, 2) == ScanState(1, 2, 1, 2);
    assert Scan(c, 3) == ScanState(1, 3, 1, 3);
    assert Scan(c, 4) == ScanState(2, 1, 1, 3);
    assert Scan(c, 5) == ScanState(2, 2, 1, 3);
  }

  /** Out-of-range scores after the first are read as 2 and form a run. */
  lemma StreakOfInvalid()
    ensures LongestStreakOf([1, 4, 4, 1]) == StreakResult(2, 2)
  {
    var c := Compared([1, 4, 4, 1]);
    assert c[1] == 2 && c[2] == 2 && c[3] == 1;
    assert c == [1, 2, 2, 1];
    assert Scan(c, 2) == ScanState(2, 1, 1, 1);
    assert Scan(c, 3) == ScanState(2, 2, 2, 2);
  }

  /** The first score is compared without normalisation: two out-of-range
      scores in a row give the raw first score as the streak's mood, with
      length 1, where reading both as 2 gives a run of two. */
  lemma UnnormalizedFirstScore()
    ensures LongestStreakOf([4, 4]) == StreakResult(4, 1)
    ensures !IsMoodValue(LongestStreakOf([4, 4]).mood)
  {
    var c := Compared([4, 4]);
    assert c == [4, 2];
  }

  /** The streak with the first score normalised like every other. */
  function NormalizedLongestStreak(s: seq<int>): StreakResult {
    LongestStreakOf(NormalizeEach(s))
  }

  /** The corrected streak is the first longest run of the normalised
      scores, and its mood is always a mood value. */
  lemma NormalizedStreakIsLongestRun(s: seq<int>)
    ensures IsLongestStreak(NormalizeEach(s), NormalizedLongestStreak(s))
    ensures IsMoodValue(NormalizedLongestStreak(s).mood)
  {
    var c := NormalizeEach(s);
    ComparedOfMoodValues(c);
    LongestStreakIsFirstLongestRun(c);
    if 0 < |c| {
      var r := NormalizedLongestStreak(s);
      var lo :| RunAt(c, lo, r.length) && c[lo] == r.mood && NoEarlierRun(c, lo, r.length);
    }
  }

  /** On scores already in {1, 2, 3} the correction changes nothing. */
  lemma NormalizedStreakAgrees(s: seq<int>)
    requires AllMoodValues(s)
    ensures NormalizedLongestStreak(s) == LongestStreakOf(s)
  {
    assert NormalizeEach(s) == s;
  }
}
