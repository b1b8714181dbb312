/**
 * Calendar arithmetic on millisecond timestamps.
 *
 * Time is counted in UTC milliseconds since 1970-01-01 (a Thursday); the
 * browser's local time zone and daylight-saving shifts are not modelled.
 * Day boundaries are those of dayjs/date-fns `startOf("day")` and
 * `endOf("day")`: the first and the last millisecond of the day.
 */
module Calendar {

  const DayMs: int := 86_400_000

  /** The day number of a timestamp (days since the epoch, rounding down). */
  function DayOf(t: int): int { t / DayMs }

  function StartOfDay(t: int): (r: int)
    ensures r <= t < r + DayMs
    ensures DayOf(r) == DayOf(t)
  {
    DayOf(t) * DayMs
  }

  function EndOfDay(t: int): (r: int)
    ensures t <= r < t + DayMs
    ensures r == StartOfDay(t) + DayMs - 1
  {
    StartOfDay(t) + DayMs - 1
  }

  /** Two instants fall on the same calendar day (`isSame(..., "day")`). */
  predicate SameDay(a: int, b: int) { DayOf(a) == DayOf(b) }

  /** The day of `t` is the day of `d` or an earlier one (`isSameOrBefore(..., "day")`). */
  predicate SameDayOrBefore(t: int, d: int) { DayOf(t) <= DayOf(d) }

  /** `isBetween(startOf(start), endOf(end), null, "[]")`: both bounds inclusive. */
  predicate InDayRange(t: int, start: int, end: int)
  {
    StartOfDay(start) <= t <= EndOfDay(end)
  }

  /** Comparing with a start of day is comparing day numbers. */
  lemma AtOrAfterStartOfDay(t: int, d: int)
    ensures StartOfDay(d) <= t <==> DayOf(d) <= DayOf(t)
  {
    var k := DayOf(d);
    if StartOfDay(d) <= t {
      assert k * DayMs <= t;
      assert k <= t / DayMs;
    } else {
      assert t < k * DayMs;
      assert t / DayMs < k;
    }
  }

  /** Comparing with an end of day is comparing day numbers. */
  lemma AtOrBeforeEndOfDay(t: int, d: int)
    ensures t <= EndOfDay(d) <==> DayOf(t) <= DayOf(d)
  {
    var k := DayOf(d);
    if t <= EndOfDay(d) {
      assert t < (k + 1) * DayMs;
      assert t / DayMs <= k;
    } else {
      assert (k + 1) * DayMs <= t;
      assert k + 1 <= t / DayMs;
    }
  }

  /** An inclusive day range is a range of day numbers. */
  lemma InDayRangeByDays(t: int, start: int, end: int)
    ensures InDayRange(t, start, end) <==> DayOf(start) <= DayOf(t) <= DayOf(end)
  {
    AtOrAfterStartOfDay(t, start);
    AtOrBeforeEndOfDay(t, end);
  }

  /** A day is exactly the millisecond window from its start to its end. */
  lemma SameDayIsDayWindow(t: int, d: int)
    ensures SameDay(t, d) <==> StartOfDay(d) <= t <= EndOfDay(d)
  {
    var k := DayOf(d);
    if StartOfDay(d) <= t <= EndOfDay(d) {
      assert k * DayMs <= t < k * DayMs + DayMs;
      assert t / DayMs == k;
    }
  }

  /** A one-day range selects exactly the instants on that day. */
  lemma InDayRangeSingleDay(t: int, d: int)
    ensures InDayRange(t, d, d) <==> SameDay(t, d)
  {
    SameDayIsDayWindow(t, d);
  }

  /** JavaScript `getDay()`: 0 is Sunday, 1 Monday, ..., 6 Saturday. */
  function Weekday(t: int): (r: int)
    ensures 0 <= r < 7
  {
    (DayOf(t) + 4) % 7
  }

  datatype Interval = Interval(start: int, end: int) {
    predicate Contains(t: int) { start <= t <= end }
  }

  /**
   * The Monday-to-Sunday week holding `now`: Monday 00:00:00.000 to Sunday
   * 23:59:59.999.  A Sunday belongs to the week that began six days
   * earlier.
   */
  function CurrentWeek(now: int): (w: Interval)
    ensures Weekday(w.start) == 1
    ensures w.start == StartOfDay(w.start)
    ensures w.end == w.start + 7 * DayMs - 1
    ensures w.Contains(now)
  {
    var day := Weekday(now);
    var diffToMonday := (if day == 0 then -6 else 1) - day;
    var monday := StartOfDay(now) + diffToMonday * DayMs;
    assert DayOf(monday) == DayOf(now) + diffToMonday;
    Interval(monday, monday + 6 * DayMs + DayMs - 1)
  }
}
