/**
 * The simple sleep tracker: logging tonight's sleep replaces today's entry,
 * shows a success note, and extends the logging streak when yesterday was
 * logged too.
 */
module SimpleSleepTracker {
  import opened Wrappers
  import opened SleepLog

  /** The six sample nights before today. */
  function InitialSleepData(today: int): (s: seq<SleepEntry>)
    ensures |s| == 6 && StrictlyByDate(s)
  {
    [
      SleepEntry(today - 6, "23:30", "07:15", None, Some(465)),
      SleepEntry(today - 5, "00:15", "08:00", None, Some(465)),
      SleepEntry(today - 4, "23:00", "06:45", None, Some(465)),
      SleepEntry(today - 3, "23:45", "07:30", None, Some(465)),
      SleepEntry(today - 2, "22:30", "06:30", None, Some(480)),
      SleepEntry(today - 1, "01:00", "08:30", None, Some(450))
    ]
  }

  /** Every sample night lasts at least seven hours, so each is highlighted. */
  lemma InitialNightsHighlighted(today: int)
    ensures forall k :: 0 <= k < |InitialSleepData(today)| ==> RestfulNight(InitialSleepData(today)[k])
  {
  }

  /** The streak rule of a save on `today`: one more when the log had an entry for yesterday. */
  function NextStreak(streak: int, log: seq<SleepEntry>, today: int): (n: int)
    ensures HasEntryOn(log, today - 1) <==> n == streak + 1
    ensures !HasEntryOn(log, today - 1) <==> n == streak
  {
    if HasEntryOn(log, today - 1) then streak + 1 else streak
  }

  /**
   * The rule looks only at yesterday, so saving a second time on the same
   * day extends the streak again.
   */
  lemma SecondSaveSameDay(streak: int, log: seq<SleepEntry>, first: SleepEntry, today: int)
    requires HasEntryOn(log, today - 1) && first.date == today
    ensures NextStreak(NextStreak(streak, log, today), Upsert(log, first), today) == streak + 2
  {
    var saved := Upsert(log, first);
    UpsertCounts(log, first, today - 1);
    assert HasEntryOn(saved, today - 1);
  }

  /** The insight line: praise for a streak of more than three days, encouragement otherwise. */
  datatype StreakInsight = Praise(days: int) | Encourage

  function Insight(streak: int): (r: StreakInsight)
    ensures r.Praise? <==> streak > 3
    ensures r.Praise? ==> r.days == streak
  {
    if streak > 3 then Praise(streak) else Encourage
  }

  class SimpleSleepTracker {
    var bedtime: string
    var wakeTime: string
    var sleepData: seq<SleepEntry>
    var showSuccess: bool
    var streakCount: int

    /** The log is in date order with at most one entry per day. */
    ghost predicate Valid()
      reads this
    {
      SortedByDate(sleepData) && OnePerDay(sleepData)
    }

    constructor (today: int)
      ensures Valid()
      ensures bedtime == "23:00" && wakeTime == "07:00" && sleepData == InitialSleepData(today)
      ensures !showSuccess && streakCount == 6
    {
      bedtime := "23:00";
      wakeTime := "07:00";
      sleepData := InitialSleepData(today);
      showSuccess := false;
      streakCount := 6;
      new;
      forall day
        ensures CountOnDay(sleepData, day) <= 1
      {
        StrictHasOnePerDay(sleepData, day);
      }
    }

    method SetBedtime(value: string)
      modifies this
      ensures bedtime == value
      ensures wakeTime == old(wakeTime) && sleepData == old(sleepData)
      ensures showSuccess == old(showSuccess) && streakCount == old(streakCount)
    {
      bedtime := value;
    }

    method SetWakeTime(value: string)
      modifies this
      ensures wakeTime == value
      ensures bedtime == old(bedtime) && sleepData == old(sleepData)
      ensures showSuccess == old(showSuccess) && streakCount == old(streakCount)
    {
      wakeTime := value;
    }

    /**
     * handleSaveEntry on day `today`: today's entry replaces any earlier one,
     * the success note shows, and the streak grows by one exactly when the
     * log already held an entry for yesterday.
     */
    method HandleSaveEntry(today: int)
      requires Valid()
      modifies this
      ensures Valid()
      ensures sleepData == Upsert(old(sleepData),
        SleepEntry(today, bedtime, wakeTime, None, DurationMinutes(bedtime, wakeTime)))
      ensures CountOnDay(sleepData, today) == 1
      ensures forall e :: e in old(sleepData) && e.date != today ==> e in sleepData
      ensures showSuccess
      ensures streakCount == NextStreak(old(streakCount), old(sleepData), today)
      ensures bedtime == old(bedtime) && wakeTime == old(wakeTime)
    {
      var duration := DurationMinutes(bedtime, wakeTime);
      var newEntry := SleepEntry(today, bedtime, wakeTime, None, duration);
      var previous := sleepData;
      sleepData := Upsert(previous, newEntry);
      SaveFacts(previous, newEntry);
      showSuccess := true;
      var hasYesterdayEntry := HasEntryOn(previous, today - 1);
      if hasYesterdayEntry {
        streakCount := streakCount + 1;
      }
    }

    /** Three seconds after a save the success note hides again. */
    method HideSuccess()
      modifies this
      ensures !showSuccess
      ensures bedtime == old(bedtime) && wakeTime == old(wakeTime) && sleepData == old(sleepData)
      ensures streakCount == old(streakCount)
    {
      showSuccess := false;
    }
  }
}
