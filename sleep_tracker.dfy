/**
 * The full sleep tracker: a date, bedtime, wake time and quality form
 * whose save replaces that day's entry in the log and keeps it in date order.
 */
module SleepTracker {
  import opened Wrappers
  import opened JsString
  import opened SleepLog

  /** The past week of sample nights, ending today; durations in minutes. */
  function SampleSleepData(today: int): (s: seq<SleepEntry>)
    ensures |s| == 7 && StrictlyByDate(s)
  {
    [
      SleepEntry(today - 6, "23:30", "07:15", Some(4), Some(465)),
      SleepEntry(today - 5, "00:15", "08:00", Some(3), Some(465)),
      SleepEntry(today - 4, "23:00", "06:45", Some(5), Some(465)),
      SleepEntry(today - 3, "23:45", "07:30", Some(4), Some(465)),
      SleepEntry(today - 2, "22:30", "06:30", Some(5), Some(480)),
      SleepEntry(today - 1, "01:00", "08:30", Some(2), Some(450)),
      SleepEntry(today, "23:15", "07:00", Some(4), Some(465))
    ]
  }

  class SleepTracker {
    var date: int
    var bedtime: string
    var wakeTime: string
    var quality: seq<int>
    var sleepData: seq<SleepEntry>

    /** The log is in date order with at most one entry per day. */
    ghost predicate Valid()
      reads this
    {
      SortedByDate(sleepData) && OnePerDay(sleepData)
    }

    constructor (today: int)
      ensures Valid()
      ensures date == today && bedtime == "23:00" && wakeTime == "07:00" && quality == [4]
      ensures sleepData == SampleSleepData(today)
    {
      date := today;
      bedtime := "23:00";
      wakeTime := "07:00";
      quality := [4];
      sleepData := SampleSleepData(today);
      new;
      forall day
        ensures CountOnDay(sleepData, day) <= 1
      {
        StrictHasOnePerDay(sleepData, day);
      }
    }

    /** The calendar's onSelect: a picked day becomes the date; no selection changes nothing. */
    method SelectDate(picked: Option<int>)
      modifies this
      ensures picked.Some? ==> date == picked.value
      ensures picked.None? ==> date == old(date)
      ensures bedtime == old(bedtime) && wakeTime == old(wakeTime) && quality == old(quality)
      ensures sleepData == old(sleepData)
    {
      if picked.Some? {
        date := picked.value;
      }
    }

    method SetBedtime(value: string)
      modifies this
      ensures bedtime == value
      ensures date == old(date) && wakeTime == old(wakeTime) && quality == old(quality)
      ensures sleepData == old(sleepData)
    {
      bedtime := value;
    }

    method SetWakeTime(value: string)
      modifies this
      ensures wakeTime == value
      ensures date == old(date) && bedtime == old(bedtime) && quality == old(quality)
      ensures sleepData == old(sleepData)
    {
      wakeTime := value;
    }

    method SetQuality(value: seq<int>)
      modifies this
      ensures quality == value
      ensures date == old(date) && bedtime == old(bedtime) && wakeTime == old(wakeTime)
      ensures sleepData == old(sleepData)
    {
      quality := value;
    }

    /**
     * handleSaveEntry: the entry for the chosen date replaces any earlier
     * one, the log stays in date order, and every other day is kept.
     */
    method HandleSaveEntry()
      requires Valid()
      modifies this
      ensures Valid()
      ensures sleepData == Upsert(old(sleepData),
        SleepEntry(date, bedtime, wakeTime, At(quality, 0), DurationMinutes(bedtime, wakeTime)))
      ensures CountOnDay(sleepData, date) == 1
      ensures forall e :: e in old(sleepData) && e.date != date ==> e in sleepData
      ensures date == old(date) && bedtime == old(bedtime) && wakeTime == old(wakeTime)
      ensures quality == old(quality)
    {
      var duration := DurationMinutes(bedtime, wakeTime);
      var newEntry := SleepEntry(date, bedtime, wakeTime, At(quality, 0), duration);
      var previous := sleepData;
      sleepData := Upsert(previous, newEntry);
      SaveFacts(previous, newEntry);
    }

    /** The "Recent Sleep Log" list: the last five entries, newest first. */
    function RecentLog(): (r: seq<SleepEntry>)
      reads this
      requires Valid()
      ensures |r| <= 5
      ensures forall i, j :: 0 <= i < j < |r| ==> r[i].date >= r[j].date
    {
      RecentNewestFirst(sleepData);
      Recent(sleepData)
    }
  }
}
