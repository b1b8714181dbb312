/**
 * The staff attendance calendar: each check-in classified as on time or
 * late, one status per date (the last row of a date wins), and the month
 * filled out with "absent" for the days without a row.
 *
 * A date (`yyyy-MM-dd`) is a day number; `format` and the date column are
 * taken to name days one-to-one.
 */
module Attendance {
  import opened Common
  import opened Calendar

  datatype Status = Present | Late | Absent | DayOff

  /** A fetched row: its `date` and the `check_in_time` instant. */
  datatype CheckIn = CheckIn(date: int, check_in_time: int)

  datatype DayRecord = DayRecord(date: int, status: Status)

  /** 6:10 in minutes after midnight. */
  const LateAfter: int := 370

  /** `getHours() * 60 + getMinutes()`: the whole minutes since the start of the check-in's day. */
  function MinuteOfDay(t: int): (m: int)
    ensures 0 <= m < 24 * 60
    ensures StartOfDay(t) + m * 60_000 <= t < StartOfDay(t) + (m + 1) * 60_000
  {
    (t - StartOfDay(t)) / 60_000
  }

  /** A check-in after minute 370 (6:10) is late; one at 6:10 or earlier is on time. */
  function Classify(c: CheckIn): (s: Status)
    ensures s == Late <==> MinuteOfDay(c.check_in_time) > LateAfter
    ensures s == Present <==> MinuteOfDay(c.check_in_time) <= LateAfter
  {
    if MinuteOfDay(c.check_in_time) > LateAfter then Late else Present
  }

  /** The first late minute is 6:11: a check-in during minute 6:10 is still on time. */
  lemma LateBoundary(day: int)
    ensures Classify(CheckIn(day, day * DayMs + 370 * 60_000 + 59_999)) == Present
    ensures Classify(CheckIn(day, day * DayMs + 371 * 60_000)) == Late
  {
    var t1 := day * DayMs + 370 * 60_000 + 59_999;
    var t2 := day * DayMs + 371 * 60_000;
    assert DayOf(t1) == day && DayOf(t2) == day;
  }

  function DateOf(c: CheckIn): int { c.date }

  /** recordsMap: the status of the last row of each date. */
  function StatusByDate(rows: seq<CheckIn>): map<int, Status>
  {
    IndexWith(rows, DateOf, Classify)
  }

  /** The `forEach` that sets `recordsMap`. */
  method BuildStatusMap(rows: seq<CheckIn>) returns (m: map<int, Status>)
    ensures m == StatusByDate(rows)
    ensures forall i :: LastWithKey(rows, DateOf, i) ==> m[rows[i].date] == Classify(rows[i])
    ensures forall d :: d in m <==> exists i :: 0 <= i < |rows| && rows[i].date == d
  {
    m := BuildIndexWith(rows, DateOf, Classify);
  }

  /** fullRecords: one record per day from the first to the last day of the month, in order. */
  function MonthRecords(statuses: map<int, Status>, first: int, last: int): (r: seq<DayRecord>)
    requires first <= last
    ensures |r| == last - first + 1
    ensures forall i :: 0 <= i < |r| ==> r[i] == DayRecord(first + i, StatusOn(statuses, first + i))
  {
    seq(last - first + 1, i => DayRecord(first + i, StatusOn(statuses, first + i)))
  }

  /** `recordsMap.get(dateStr) || "absent"`. */
  function StatusOn(statuses: map<int, Status>, d: int): Status
  {
    if d in statuses then statuses[d] else Absent
  }

  /**
   * The calendar has exactly one record per day of the month, in day order;
   * a day is "absent" exactly when no row has that date, and otherwise
   * carries the classification of the last row of that date; no day is
   * ever "dayoff".
   */
  lemma {:induction false} MonthRecordsMeaning(rows: seq<CheckIn>, first: int, last: int)
    requires first <= last
    ensures |MonthRecords(StatusByDate(rows), first, last)| == last - first + 1
    ensures forall i :: 0 <= i <= last - first ==> MonthRecords(StatusByDate(rows), first, last)[i].date == first + i
    ensures forall i :: 0 <= i <= last - first ==> MonthRecords(StatusByDate(rows), first, last)[i].status != DayOff
    ensures forall i :: 0 <= i <= last - first ==>
              (MonthRecords(StatusByDate(rows), first, last)[i].status == Absent
               <==> forall j :: 0 <= j < |rows| ==> rows[j].date != first + i)
    ensures forall i, j :: 0 <= i <= last - first && LastWithKey(rows, DateOf, j) && rows[j].date == first + i ==>
              MonthRecords(StatusByDate(rows), first, last)[i].status == Classify(rows[j])
  {
    var r := MonthRecords(StatusByDate(rows), first, last);
    forall i | 0 <= i <= last - first
      ensures r[i].status != DayOff
      ensures r[i].status == Absent <==> forall j :: 0 <= j < |rows| ==> rows[j].date != first + i
    {
      DayStatus(rows, first + i);
    }
    forall i, j | 0 <= i <= last - first && LastWithKey(rows, DateOf, j) && rows[j].date == first + i
      ensures r[i].status == Classify(rows[j])
    {
      IndexWithLastWins(rows, DateOf, Classify, j);
    }
  }

  /** One day's status: "absent" exactly when no row has the date, and never "dayoff". */
  lemma DayStatus(rows: seq<CheckIn>, d: int)
    ensures var s := StatusOn(StatusByDate(rows), d);
            s != DayOff && (s == Absent <==> forall j :: 0 <= j < |rows| ==> rows[j].date != d)
  {
    var m := StatusByDate(rows);
    if d in m {
      IndexWithKeys(rows, DateOf, Classify);
      LastRowExists(rows, DateOf, d);
      var j :| LastWithKey(rows, DateOf, j) && DateOf(rows[j]) == d;
      IndexWithLastWins(rows, DateOf, Classify, j);
      assert m[d] == Classify(rows[j]);
    } else {
      assert forall j :: 0 <= j < |rows| ==> DateOf(rows[j]) in m;
    }
  }

  /** Rows dated outside the month leave the calendar as it is. */
  lemma OutsideRowsIgnored(rows: seq<CheckIn>, c: CheckIn, first: int, last: int)
    requires first <= last && (c.date < first || c.date > last)
    ensures MonthRecords(StatusByDate(rows + [c]), first, last) == MonthRecords(StatusByDate(rows), first, last)
  {
    assert (rows + [c])[..|rows|] == rows;
  }
}
