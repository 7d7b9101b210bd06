/**
 * The state updater `updateLocalMoodData` of
 * src/features/mood-tracker/mood-data.context.tsx: appends a new entry to
 * the loaded dashboard data, and does nothing before the data is loaded.
 */
module MoodDataContext {
  import opened Wrappers
  import opened MoodDomain

  /** The updater passed to `setMoodData`: `null` stays `null`; otherwise
      the entry goes after the existing ones and the stats are kept. */
  function UpdateLocalMoodData(prevData: Option<DashboardData>, newEntry: MoodEntry): (next: Option<DashboardData>)
    ensures prevData.None? <==> next.None?
    ensures prevData.Some? ==>
              && next.value.moods == prevData.value.moods + [newEntry]
              && next.value.stats == prevData.value.stats
  {
    match prevData
    case None => None
    case Some(data) => Some(data.(moods := data.moods + [newEntry]))
  }

  /** The old entries stay in front, in their order, and the list grows by
      exactly the new entry. */
  lemma UpdateAppends(prevData: Option<DashboardData>, newEntry: MoodEntry)
    requires prevData.Some?
    ensures var next := UpdateLocalMoodData(prevData, newEntry).value.moods;
            && |next| == |prevData.value.moods| + 1
            && next[..|prevData.value.moods|] == prevData.value.moods
            && next[|next| - 1] == newEntry
  {
  }

  /** Successive updates append their entries in the order they were made. */
  lemma {:induction false} UpdatesAppendInOrder(prevData: Option<DashboardData>, entries: seq<MoodEntry>)
    requires prevData.Some?
    ensures ApplyUpdates(prevData, entries) == Some(prevData.value.(moods := prevData.value.moods + entries))
  {
    if |entries| > 0 {
      var init := entries[..|entries| - 1];
      UpdatesAppendInOrder(prevData, init);
      assert prevData.value.moods + init + [entries[|entries| - 1]] == prevData.value.moods + entries;
    } else {
      assert prevData.value.moods + entries == prevData.value.moods;
    }
  }

  /** The updates for `entries`, applied in order. */
  function ApplyUpdates(prevData: Option<DashboardData>, entries: seq<MoodEntry>): Option<DashboardData> {
    if |entries| == 0 then prevData
    else UpdateLocalMoodData(ApplyUpdates(prevData, entries[..|entries| - 1]), entries[|entries| - 1])
  }

  /** Before the data is loaded no number of updates creates it. */
  lemma {:induction false} UpdatesBeforeLoadAreLost(entries: seq<MoodEntry>)
    ensures ApplyUpdates(None, entries) == None
  {
    if |entries| > 0 {
      UpdatesBeforeLoadAreLost(entries[..|entries| - 1]);
    }
  }
}
