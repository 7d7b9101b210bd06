/**
 * The mood entries of src/domain/mood.ts and the dashboard record of
 * src/domain/dashboard.ts.
 */
module MoodDomain {

  /** A mood value is 1 (low), 2 (medium) or 3 (high). Stored entries may
      hold any integer: the analysis normalises what it reads. */
  predicate IsMoodValue(m: int) {
    m == 1 || m == 2 || m == 3
  }

  datatype MoodEntry = MoodEntry(id: int, day: string, mood: int)

  datatype MoodStats = MoodStats(totalEntries: int, averageMood: real, mostFrequentMood: int)

  /** What the dashboard loader returns: the entries and their summary. */
  datatype DashboardData = DashboardData(moods: seq<MoodEntry>, stats: MoodStats)
}
