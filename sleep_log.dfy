/**
 * The sleep log shared by the two sleep trackers: the duration of a night
 * from two "HH:MM" clock readings, and the save that replaces the entry for
 * a day and keeps the log in date order.
 *
 * A date is a day number (date-fns `isSameDay` is equality on it); a
 * duration is in whole minutes (the trackers show it in hours, minutes / 60),
 * and None where the clock does not parse and the trackers compute NaN.
 */
module SleepLog {
  import opened Wrappers
  import opened JsString

  const MinutesPerDay := 24 * 60

  datatype SleepEntry = SleepEntry(
    date: int,
    bedtime: string,
    wakeTime: string,
    quality: Option<int>,  // the star rating of the full tracker; the simple tracker has none
    duration: Option<int>)

  // ---- Duration ----

  /**
   * `Number.parseInt` of the parts before and after the first ':' of a clock
   * reading; a reading without a colon has no minute part, so it is NaN.
   */
  function ClockParts(clock: string): (r: Option<(int, int)>)
    ensures r.Some? ==> ':' in clock
  {
    var parts := Split(clock, ':');
    var hour := ParseInt(At(parts, 0));
    var minute := ParseInt(At(parts, 1));
    if hour.None? || minute.None? then None
    else
      ColonlessSplit(clock);
      Some((hour.value, minute.value))
  }

  lemma ColonlessSplit(clock: string)
    ensures ':' !in clock ==> Split(clock, ':') == [clock]
  {
    if ':' !in clock {
      SplitWithoutSeparator(clock, ':');
    }
  }

  /** A reading an `<input type="time">` produces: hours 0..23 and minutes 0..59. */
  predicate WellFormedClock(clock: string)
  {
    ClockParts(clock).Some? && 0 <= ClockParts(clock).value.0 < 24 && 0 <= ClockParts(clock).value.1 < 60
  }

  function MinuteOfDay(clock: string): int
    requires ClockParts(clock).Some?
  {
    60 * ClockParts(clock).value.0 + ClockParts(clock).value.1
  }

  /**
   * The duration from bedtime to wake time: their difference, plus a day
   * when it is negative (an overnight sleep); NaN when either reading fails
   * to parse.
   */
  function DurationMinutes(bedtime: string, wakeTime: string): (r: Option<int>)
    ensures r.Some? <==> ClockParts(bedtime).Some? && ClockParts(wakeTime).Some?
    ensures r.Some? ==> r.value == MinuteOfDay(wakeTime) - MinuteOfDay(bedtime)
                        || r.value == MinuteOfDay(wakeTime) - MinuteOfDay(bedtime) + MinutesPerDay
  {
    var bed := ClockParts(bedtime);
    var wake := ClockParts(wakeTime);
    if bed.None? || wake.None? then None
    else
      var duration := (wake.value.0 - bed.value.0) * 60 + (wake.value.1 - bed.value.1);
      Some(if duration < 0 then duration + MinutesPerDay else duration)
  }

  /**
   * For two well-formed readings the duration is less than a day, and
   * sleeping that long from the bedtime ends at the wake time of day.
   */
  lemma DurationWithinDay(bedtime: string, wakeTime: string)
    requires WellFormedClock(bedtime) && WellFormedClock(wakeTime)
    ensures DurationMinutes(bedtime, wakeTime).Some?
    ensures 0 <= DurationMinutes(bedtime, wakeTime).value < MinutesPerDay
    ensures (MinuteOfDay(bedtime) + DurationMinutes(bedtime, wakeTime).value) % MinutesPerDay == MinuteOfDay(wakeTime)
  {
    var bed, wake := ClockParts(bedtime).value, ClockParts(wakeTime).value;
    WrapWithinDay(60 * bed.0 + bed.1, 60 * wake.0 + wake.1);
  }

  lemma WrapWithinDay(b: int, w: int)
    requires 0 <= b < MinutesPerDay && 0 <= w < MinutesPerDay
    ensures var d := if w - b < 0 then w - b + MinutesPerDay else w - b;
      0 <= d < MinutesPerDay && (b + d) % MinutesPerDay == w
  {
    if w - b < 0 {
      assert b + (w - b + MinutesPerDay) == w + MinutesPerDay;
    }
  }

  /** Going to bed and waking at the same time is no sleep at all. */
  lemma SameTimeIsZero(clock: string)
    requires ClockParts(clock).Some?
    ensures DurationMinutes(clock, clock) == Some(0)
  {
  }

  /** A reading of two digits, a colon and two digits parses to its hours and minutes. */
  lemma ClockDigits(clock: string)
    requires |clock| == 5 && clock[2] == ':'
    requires IsDigit(clock[0]) && IsDigit(clock[1]) && IsDigit(clock[3]) && IsDigit(clock[4])
    ensures ClockParts(clock) == Some((10 * DigitValue(clock[0]) + DigitValue(clock[1]),
                                       10 * DigitValue(clock[3]) + DigitValue(clock[4])))
  {
    var hh, mm := clock[..2], clock[3..];
    ClockSplit(clock);
    TwoDigits(hh);
    TwoDigits(mm);
    ClockPartsOfPieces(clock, hh, mm, 10 * DigitValue(clock[0]) + DigitValue(clock[1]),
                       10 * DigitValue(clock[3]) + DigitValue(clock[4]));
  }

  lemma ClockPartsOfPieces(clock: string, hh: string, mm: string, hour: int, minute: int)
    requires Split(clock, ':') == [hh, mm]
    requires ParseInt(Some(hh)) == Some(hour) && ParseInt(Some(mm)) == Some(minute)
    ensures ClockParts(clock) == Some((hour, minute))
  {
    assert At(Split(clock, ':'), 0) == Some(hh) && At(Split(clock, ':'), 1) == Some(mm);
  }

  lemma ClockSplit(clock: string)
    requires |clock| == 5 && clock[2] == ':'
    requires IsDigit(clock[0]) && IsDigit(clock[1]) && IsDigit(clock[3]) && IsDigit(clock[4])
    ensures Split(clock, ':') == [clock[..2], clock[3..]]
  {
    var hh, mm := clock[..2], clock[3..];
    assert ':' !in hh && ':' !in mm;
    assert clock == hh + [':'] + mm;
    SplitConcat(hh, mm, ':');
    SplitWithoutSeparator(hh, ':');
    SplitWithoutSeparator(mm, ':');
  }

  lemma TwoDigits(s: string)
    requires |s| == 2 && IsDigit(s[0]) && IsDigit(s[1])
    ensures ParseInt(Some(s)) == Some(10 * DigitValue(s[0]) + DigitValue(s[1]))
  {
    ParseIntDecimal(s, []);
    assert s + [] == s;
    assert s[..1] == [s[0]] && s[..1][..0] == [] && s[..|s| - 1] == s[..1];
    assert RadixValue(s[..1], 10) == DigitValue(s[0]);
    assert RadixValue(s, 10) == RadixValue(s[..1], 10) * 10 + DigitValue(s[1]);
  }

  /** The first sample night, 23:30 to 07:15, is 7.75 hours long. */
  lemma OvernightSample(bedtime: string, wakeTime: string)
    requires bedtime == "23:30" && wakeTime == "07:15"
    ensures DurationMinutes(bedtime, wakeTime) == Some(465)
  {
    ClockDigits(bedtime);
    ClockDigits(wakeTime);
  }

  /** The sample night after midnight, 01:00 to 08:30, is 7.5 hours long. */
  lemma AfterMidnightSample(bedtime: string, wakeTime: string)
    requires bedtime == "01:00" && wakeTime == "08:30"
    ensures DurationMinutes(bedtime, wakeTime) == Some(450)
  {
    ClockDigits(bedtime);
    ClockDigits(wakeTime);
  }

  /** The simple tracker marks a night of at least seven hours; NaN never qualifies. */
  predicate RestfulNight(e: SleepEntry)
  {
    e.duration.Some? && e.duration.value >= 7 * 60
  }

  // ---- Date order ----

  predicate SortedByDate(s: seq<SleepEntry>)
  {
    forall i, j :: 0 <= i < j < |s| ==> s[i].date <= s[j].date
  }

  predicate StrictlyByDate(s: seq<SleepEntry>)
  {
    forall i, j :: 0 <= i < j < |s| ==> s[i].date < s[j].date
  }

  /** The number of entries for day `day`. */
  function CountOnDay(s: seq<SleepEntry>, day: int): nat
  {
    if s == [] then 0 else (if s[0].date == day then 1 else 0) + CountOnDay(s[1..], day)
  }

  ghost predicate OnePerDay(s: seq<SleepEntry>)
  {
    forall day :: CountOnDay(s, day) <= 1
  }

  /** `s.some(e => isSameDay(e.date, day))`, counted. */
  predicate HasEntryOn(s: seq<SleepEntry>, day: int)
  {
    CountOnDay(s, day) > 0
  }

  lemma {:induction false} HasEntryOnMeans(s: seq<SleepEntry>, day: int)
    ensures HasEntryOn(s, day) <==> exists e :: e in s && e.date == day
  {
    if s != [] {
      HasEntryOnMeans(s[1..], day);
      assert forall e :: e in s <==> e == s[0] || e in s[1..];
    }
  }

  lemma {:induction false} CountAppend(a: seq<SleepEntry>, b: seq<SleepEntry>, day: int)
    ensures CountOnDay(a + b, day) == CountOnDay(a, day) + CountOnDay(b, day)
  {
    if a != [] {
      assert (a + b)[1..] == a[1..] + b;
      CountAppend(a[1..], b, day);
    } else {
      assert a + b == b;
    }
  }

  lemma {:induction false} CountZeroWhenAbsent(s: seq<SleepEntry>, day: int)
    requires forall i :: 0 <= i < |s| ==> s[i].date != day
    ensures CountOnDay(s, day) == 0
  {
    if s != [] {
      CountZeroWhenAbsent(s[1..], day);
    }
  }

  /** A log in strictly increasing date order has at most one entry per day. */
  lemma {:induction false} StrictHasOnePerDay(s: seq<SleepEntry>, day: int)
    requires StrictlyByDate(s)
    ensures CountOnDay(s, day) <= 1
  {
    if s != [] {
      if s[0].date == day {
        CountZeroWhenAbsent(s[1..], day);
      } else {
        StrictHasOnePerDay(s[1..], day);
      }
    }
  }

  /** `s.filter(e => !isSameDay(e.date, day))`. */
  function OtherDays(s: seq<SleepEntry>, day: int): (r: seq<SleepEntry>)
    ensures |r| <= |s|
  {
    if s == [] then []
    else if s[0].date == day then OtherDays(s[1..], day)
    else [s[0]] + OtherDays(s[1..], day)
  }

  /** The filter keeps exactly the entries of the other days. */
  lemma {:induction false} OtherDaysMembers(s: seq<SleepEntry>, day: int)
    ensures forall e :: e in OtherDays(s, day) <==> e in s && e.date != day
  {
    if s != [] {
      OtherDaysMembers(s[1..], day);
      assert forall e :: e in s <==> e == s[0] || e in s[1..];
    }
  }

  lemma {:induction false} CountOtherDays(s: seq<SleepEntry>, day: int, d: int)
    ensures CountOnDay(OtherDays(s, day), d) == if d == day then 0 else CountOnDay(s, d)
  {
    if s != [] {
      CountOtherDays(s[1..], day, d);
      if s[0].date != day {
        assert ([s[0]] + OtherDays(s[1..], day))[1..] == OtherDays(s[1..], day);
      }
    }
  }

  /** One entry placed into a date-ordered log, before the first entry that is not earlier. */
  function Insert(x: SleepEntry, s: seq<SleepEntry>): (r: seq<SleepEntry>)
    ensures multiset(r) == multiset(s) + multiset{x}
  {
    if s == [] then [x]
    else if x.date <= s[0].date then [x] + s
    else
      assert s == [s[0]] + s[1..];
      [s[0]] + Insert(x, s[1..])
  }

  lemma {:induction false} InsertSorted(x: SleepEntry, s: seq<SleepEntry>)
    requires SortedByDate(s)
    ensures SortedByDate(Insert(x, s))
  {
    if s == [] {
    } else if x.date <= s[0].date {
      forall e | e in s
        ensures x.date <= e.date
      {
        var k :| 0 <= k < |s| && s[k] == e;
      }
      SortedCons(x, s);
    } else {
      var tail := Insert(x, s[1..]);
      InsertSorted(x, s[1..]);
      forall e | e in tail
        ensures s[0].date <= e.date
      {
        assert e in multiset(tail);
        if e != x {
          assert e in s[1..];
          var k :| 0 <= k < |s[1..]| && s[1..][k] == e;
          assert s[k + 1] == e;
        }
      }
      SortedCons(s[0], tail);
    }
  }

  lemma SortedCons(x: SleepEntry, s: seq<SleepEntry>)
    requires SortedByDate(s)
    requires forall e :: e in s ==> x.date <= e.date
    ensures SortedByDate([x] + s)
  {
    var r := [x] + s;
    forall i, j | 0 <= i < j < |r|
      ensures r[i].date <= r[j].date
    {
      assert r[j] == s[j - 1];
      if i > 0 {
        assert r[i] == s[i - 1];
      } else {
        assert s[j - 1] in s;
      }
    }
  }

  /**
   * The log ordered by ascending date, `sort((a, b) => a.date - b.date)`:
   * the same entries, in order.
   */
  function SortByDate(s: seq<SleepEntry>): (r: seq<SleepEntry>)
    ensures multiset(r) == multiset(s)
    ensures SortedByDate(r)
  {
    if s == [] then []
    else
      assert s == [s[0]] + s[1..];
      InsertSorted(s[0], SortByDate(s[1..]));
      Insert(s[0], SortByDate(s[1..]))
  }

  lemma {:induction false} CountInsert(x: SleepEntry, s: seq<SleepEntry>, day: int)
    ensures CountOnDay(Insert(x, s), day) == CountOnDay(s, day) + (if x.date == day then 1 else 0)
  {
    if s != [] && x.date > s[0].date {
      CountInsert(x, s[1..], day);
      assert ([s[0]] + Insert(x, s[1..]))[1..] == Insert(x, s[1..]);
    } else if s != [] {
      assert ([x] + s)[1..] == s;
    }
  }

  /** Sorting does not change how many entries any day has. */
  lemma {:induction false} CountSort(s: seq<SleepEntry>, day: int)
    ensures CountOnDay(SortByDate(s), day) == CountOnDay(s, day)
  {
    if s != [] {
      CountSort(s[1..], day);
      CountInsert(s[0], SortByDate(s[1..]), day);
    }
  }

  /** handleSaveEntry's update: drop the entries for the new entry's day, add it, sort by date. */
  function Upsert(log: seq<SleepEntry>, entry: SleepEntry): (r: seq<SleepEntry>)
    ensures SortedByDate(r)
  {
    SortByDate(OtherDays(log, entry.date) + [entry])
  }

  /** After saving, the new entry's day has exactly one entry and every other day keeps its count. */
  lemma UpsertCounts(log: seq<SleepEntry>, entry: SleepEntry, day: int)
    ensures CountOnDay(Upsert(log, entry), day) == if day == entry.date then 1 else CountOnDay(log, day)
  {
    var others := OtherDays(log, entry.date);
    CountSort(others + [entry], day);
    CountAppend(others, [entry], day);
    CountOtherDays(log, entry.date, day);
  }

  /**
   * After saving, the log holds the new entry, every entry of another day,
   * and nothing else.
   */
  lemma UpsertMembers(log: seq<SleepEntry>, entry: SleepEntry)
    ensures entry in Upsert(log, entry)
    ensures forall e :: e in Upsert(log, entry) <==> e == entry || (e in log && e.date != entry.date)
  {
    var others := OtherDays(log, entry.date);
    var r := Upsert(log, entry);
    assert multiset(r) == multiset(others + [entry]);
    OtherDaysMembers(log, entry.date);
    forall e
      ensures e in r <==> e == entry || (e in log && e.date != entry.date)
    {
      assert e in r <==> e in multiset(r);
      assert e in others + [entry] <==> e in multiset(others + [entry]);
    }
  }

  /** Saving keeps a log dated in order with at most one entry per day. */
  lemma UpsertKeepsOnePerDay(log: seq<SleepEntry>, entry: SleepEntry)
    requires OnePerDay(log)
    ensures SortedByDate(Upsert(log, entry)) && OnePerDay(Upsert(log, entry))
  {
    forall day
      ensures CountOnDay(Upsert(log, entry), day) <= 1
    {
      UpsertCounts(log, entry, day);
    }
  }

  /** What a save promises about the log, in one place for the trackers. */
  lemma SaveFacts(log: seq<SleepEntry>, entry: SleepEntry)
    requires OnePerDay(log)
    ensures SortedByDate(Upsert(log, entry)) && OnePerDay(Upsert(log, entry))
    ensures CountOnDay(Upsert(log, entry), entry.date) == 1
    ensures forall e :: e in log && e.date != entry.date ==> e in Upsert(log, entry)
  {
    UpsertKeepsOnePerDay(log, entry);
    UpsertCounts(log, entry, entry.date);
    UpsertMembers(log, entry);
  }

  /** The "Recent Sleep Log": `log.slice(-5).reverse()`. */
  function Recent(log: seq<SleepEntry>): (r: seq<SleepEntry>)
    ensures |r| == if |log| < 5 then |log| else 5
    ensures forall i :: 0 <= i < |r| ==> r[i] == log[|log| - 1 - i]
  {
    var start := if |log| < 5 then 0 else |log| - 5;
    Reverse(log[start..])
  }

  /** On a date-ordered log the recent view runs newest first. */
  lemma RecentNewestFirst(log: seq<SleepEntry>)
    requires SortedByDate(log)
    ensures forall i, j :: 0 <= i < j < |Recent(log)| ==> Recent(log)[i].date >= Recent(log)[j].date
  {
  }
}
