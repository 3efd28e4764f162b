/**
 * Calendar fields of a completion instant.  An instant is an integer count
 * of seconds since 1970-01-01T00:00:00 UTC; a date is the number of whole
 * days since that same instant.  The analytics read `.date()`, `.hour` and
 * `.weekday()` straight off the stored instant, so no time zone is applied
 * here either.
 */
module Calendar {

  const SecondsPerDay: int := 86400
  const SecondsPerHour: int := 3600

  /** An hour of the day, as Python's `datetime.hour`. */
  type Hour = h: int | 0 <= h < 24

  /** A weekday as Python's `date.weekday()`: Monday is 0, Sunday is 6. */
  type Weekday = w: int | 0 <= w < 7

  /** The seven weekday names, indexed by `Weekday`. */
  const DayNames: seq<string> :=
    ["Monday", "Tuesday", "Wednesday", "Thursday", "Friday", "Saturday", "Sunday"]

  /** The date (day number) on which the instant `ts` falls. */
  function DateOf(ts: int): (d: int)
    ensures d * SecondsPerDay <= ts < (d + 1) * SecondsPerDay
  {
    ts / SecondsPerDay
  }

  /** The hour of the day of the instant `ts`. */
  function HourOf(ts: int): (h: Hour)
    ensures DateOf(ts) * SecondsPerDay + h * SecondsPerHour <= ts
    ensures ts < DateOf(ts) * SecondsPerDay + (h + 1) * SecondsPerHour
  {
    (ts % SecondsPerDay) / SecondsPerHour
  }

  /** The weekday of date `d`; day 0 (1970-01-01) was a Thursday. */
  function WeekdayOf(d: int): (w: Weekday)
    ensures d == 0 ==> w == 3
  {
    (d + 3) % 7
  }

  /** Consecutive dates fall on consecutive weekdays, Sunday wrapping to Monday. */
  lemma NextDayWeekday(d: int)
    ensures WeekdayOf(d + 1) == (WeekdayOf(d) + 1) % 7
  {
  }

  /** No two weekdays share a name (their first two letters already differ). */
  lemma DayNamesDistinct()
    ensures forall i, j :: 0 <= i < j < 7 ==> DayNames[i] != DayNames[j]
  {
    assert |DayNames[0]| == 6 && DayNames[0][0] == 'M';
    assert |DayNames[1]| == 7;
    assert |DayNames[2]| == 9;
    assert |DayNames[3]| == 8 && DayNames[3][0] == 'T';
    assert |DayNames[4]| == 6 && DayNames[4][0] == 'F';
    assert |DayNames[5]| == 8 && DayNames[5][0] == 'S';
    assert |DayNames[6]| == 6 && DayNames[6][0] == 'S';
  }
}
