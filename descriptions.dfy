/**
 * The display strings of src/features/mood-tracker/useMoodAnalisys.ts:
 * `getMoodDescription`, `getStreakDescription` and
 * `getVolatilityDescription`.
 */
module Descriptions {
  import opened MoodDomain
  import opened MoodScores
  import opened TrendDomain

  /** The description of a mood value; any other value reads as neutral. */
  function GetMoodDescription(mood: int): (d: string)
    ensures d == MoodDescriptionOf(Normalize(mood))
    ensures d in {"Bad mood", "Neutral mood", "Good mood"}
  {
    if mood == 1 then "Bad mood"
    else if mood == 3 then "Good mood"
    else "Neutral mood"
  }

  /** The description table, indexed by mood value. */
  function MoodDescriptionOf(m: int): string
    requires IsMoodValue(m)
  {
    match m
    case 1 => "Bad mood"
    case 2 => "Neutral mood"
    case 3 => "Good mood"
  }

  /** Different mood values get different descriptions. */
  lemma MoodDescriptionInjective(a: int, b: int)
    requires IsMoodValue(a) && IsMoodValue(b)
    requires GetMoodDescription(a) == GetMoodDescription(b)
    ensures a == b
  {
  }

  /** The decimal digit for `d`. */
  function Digit(d: nat): (c: char)
    requires d < 10
    ensures IsDigit(c)
  {
    "0123456789"[d]
  }

  predicate IsDigit(c: char) {
    '0' <= c <= '9'
  }

  /** The decimal form of `n`, as a template literal renders an integer. */
  function NatToString(n: nat): (s: string)
    ensures 1 <= |s|
    ensures forall i :: 0 <= i < |s| ==> IsDigit(s[i])
    ensures |s| > 1 ==> s[0] != '0'
  {
    if n < 10 then [Digit(n)] else NatToString(n / 10) + [Digit(n % 10)]
  }

  /** The number a string of decimal digits denotes. */
  function DigitsValue(s: string): nat
    requires forall i :: 0 <= i < |s| ==> IsDigit(s[i])
  {
    if |s| == 0 then 0
    else
      assert IsDigit(s[|s| - 1]);
      10 * DigitsValue(s[..|s| - 1]) + (s[|s| - 1] as int - '0' as int)
  }

  lemma DigitValue(d: nat)
    requires d < 10
    ensures Digit(d) as int - '0' as int == d
  {
  }

  /** Reading the rendered number back gives the number. */
  lemma {:induction false} NatToStringRoundTrip(n: nat)
    ensures DigitsValue(NatToString(n)) == n
  {
    var s := NatToString(n);
    if n < 10 {
      DigitValue(n);
      assert s[..0] == [];
    } else {
      NatToStringRoundTrip(n / 10);
      DigitValue(n % 10);
      assert s[..|s| - 1] == NatToString(n / 10);
    }
  }

  /** `toLowerCase` on ASCII letters. */
  function ToLower(s: string): (r: string)
    ensures |r| == |s|
    ensures forall i :: 0 <= i < |s| ==> r[i] == LowerChar(s[i])
  {
    seq(|s|, i requires 0 <= i < |s| => LowerChar(s[i]))
  }

  function LowerChar(c: char): char {
    if 'A' <= c <= 'Z' then (c as int - 'A' as int + 'a' as int) as char else c
  }

  const StreakPrefix: string := "Longest streak: "
  const StreakMiddle: string := " days of "

  /** "No streak found" for an empty streak, otherwise its length and
      lower-cased mood description. */
  function GetStreakDescription(streak: StreakResult): (d: string)
    ensures streak.length == 0 <==> d == "No streak found"
    ensures streak.length > 0 ==>
              d == StreakPrefix + NatToString(streak.length) + StreakMiddle
                   + ToLower(GetMoodDescription(streak.mood))
  {
    if streak.length == 0 then "No streak found"
    else StreakPrefix + NatToString(streak.length) + StreakMiddle + ToLower(GetMoodDescription(streak.mood))
  }

  lemma FirstAfter(a: string, x: string)
    requires 0 < |x|
    ensures (a + x)[|a|] == x[0]
  {
  }

  /** Two strings that start with digit runs followed by a non-digit share
      the run only if the runs are equal. */
  lemma {:induction false} DigitRunsAgree(a: string, x: string, b: string, y: string)
    requires forall i :: 0 <= i < |a| ==> IsDigit(a[i])
    requires forall i :: 0 <= i < |b| ==> IsDigit(b[i])
    requires 0 < |x| && !IsDigit(x[0]) && 0 < |y| && !IsDigit(y[0])
    requires a + x == b + y
    ensures a == b
  {
    if |a| < |b| {
      FirstAfter(a, x);
    } else if |b| < |a| {
      FirstAfter(b, y);
    } else {
      assert a == (a + x)[..|a|] && b == (b + y)[..|b|];
    }
  }

  /** A fixed prefix, a digit run, then a part starting with a fixed
      non-digit separator: equal strings of that shape have equal digit runs
      and equal tails. */
  lemma SplitAtDigits(p: string, n1: string, n2: string, sep: string, t1: string, t2: string)
    requires forall i :: 0 <= i < |n1| ==> IsDigit(n1[i])
    requires forall i :: 0 <= i < |n2| ==> IsDigit(n2[i])
    requires 0 < |sep| && !IsDigit(sep[0])
    requires p + n1 + sep + t1 == p + n2 + sep + t2
    ensures n1 == n2 && t1 == t2
  {
    var whole1, whole2 := p + n1 + sep + t1, p + n2 + sep + t2;
    assert n1 + (sep + t1) == whole1[|p|..];
    assert n2 + (sep + t2) == whole2[|p|..];
    DigitRunsAgree(n1, sep + t1, n2, sep + t2);
    assert t1 == whole1[|p| + |n1| + |sep|..];
    assert t2 == whole2[|p| + |n2| + |sep|..];
  }

  /** The lower-cased descriptions still tell the mood values apart. */
  lemma LoweredMoodDescriptionInjective(a: int, b: int)
    requires ToLower(GetMoodDescription(a)) == ToLower(GetMoodDescription(b))
    ensures Normalize(a) == Normalize(b)
  {
  }

  /** The description of a non-empty streak gives back its length and the
      normalised mood: no two different streaks read alike. */
  lemma StreakDescriptionInjective(s1: StreakResult, s2: StreakResult)
    requires 0 < s1.length && 0 < s2.length
    requires GetStreakDescription(s1) == GetStreakDescription(s2)
    ensures s1.length == s2.length
    ensures Normalize(s1.mood) == Normalize(s2.mood)
  {
    SplitAtDigits(StreakPrefix, NatToString(s1.length), NatToString(s2.length), StreakMiddle,
                  ToLower(GetMoodDescription(s1.mood)), ToLower(GetMoodDescription(s2.mood)));
    NatToStringRoundTrip(s1.length);
    NatToStringRoundTrip(s2.length);
    LoweredMoodDescriptionInjective(s1.mood, s2.mood);
  }

  lemma StreakDescriptionExamples()
    ensures GetStreakDescription(StreakResult(3, 4)) == "Longest streak: 4 days of good mood"
    ensures GetStreakDescription(StreakResult(2, 0)) == "No streak found"
  {
    assert NatToString(4) == "4";
    assert ToLower("Good mood") == "good mood";
  }

  /** The volatility bands, by increasing volatility. */
  function GetVolatilityDescription(volatility: real): (d: string)
    ensures volatility < 0.3 <==> d == "Very stable mood pattern"
    ensures 0.3 <= volatility < 0.6 <==> d == "Moderately variable mood pattern"
    ensures 0.6 <= volatility < 0.9 <==> d == "Highly variable mood pattern"
    ensures 0.9 <= volatility <==> d == "Extremely variable mood pattern"
  {
    if volatility < 0.3 then "Very stable mood pattern"
    else if volatility < 0.6 then "Moderately variable mood pattern"
    else if volatility < 0.9 then "Highly variable mood pattern"
    else "Extremely variable mood pattern"
  }

  /** The band's rank, 0 for the most stable. */
  function VolatilityBand(d: string): nat {
    if d == "Very stable mood pattern" then 0
    else if d == "Moderately variable mood pattern" then 1
    else if d == "Highly variable mood pattern" then 2
    else 3
  }

  /** More volatility never reads as more stable. */
  lemma VolatilityDescriptionMonotonic(v1: real, v2: real)
    requires v1 <= v2
    ensures VolatilityBand(GetVolatilityDescription(v1)) <= VolatilityBand(GetVolatilityDescription(v2))
  {
  }

  lemma DescriptionExamples()
    ensures GetMoodDescription(1) == "Bad mood"
    ensures GetMoodDescription(2) == "Neutral mood"
    ensures GetMoodDescription(3) == "Good mood"
    ensures GetMoodDescription(4) == "Neutral mood"
    ensures GetVolatilityDescription(0.2) == "Very stable mood pattern"
    ensures GetVolatilityDescription(0.4) == "Moderately variable mood pattern"
    ensures GetVolatilityDescription(0.7) == "Highly variable mood pattern"
    ensures GetVolatilityDescription(1.0) == "Extremely variable mood pattern"
  {
  }
}
