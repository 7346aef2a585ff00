/**
 * The part of the JavaScript `Date` object that the routes rely on: civil
 * (local) dates with a time of day, the proleptic Gregorian calendar, and the
 * constructor `new Date(year, monthIndex, day, h, min, s, ms)` with its
 * normalisation of two-digit years, of month indexes outside 0..11 and of day
 * numbers outside the month.
 */
module Calendar {

  /** A local civil date and time. `month` is 1-based (January is 1). */
  datatype DateTime = DateTime(year: int, month: int, day: int,
                               hour: int, minute: int, second: int, millisecond: int)

  predicate IsLeapYear(y: int) {
    y % 4 == 0 && (y % 100 != 0 || y % 400 == 0)
  }

  /** Number of days of month `m` (1-based) in year `y`. */
  function DaysInMonth(y: int, m: int): (n: int)
    requires 1 <= m <= 12
    ensures 28 <= n <= 31
    ensures n == 29 <==> (m == 2 && IsLeapYear(y))
    ensures n == 28 <==> (m == 2 && !IsLeapYear(y))
    ensures n == 30 <==> (m == 4 || m == 6 || m == 9 || m == 11)
  {
    if m == 2 then (if IsLeapYear(y) then 29 else 28)
    else if m == 4 || m == 6 || m == 9 || m == 11 then 30
    else 31
  }

  predicate ValidTime(h: int, mi: int, s: int, ms: int) {
    0 <= h < 24 && 0 <= mi < 60 && 0 <= s < 60 && 0 <= ms < 1000
  }

  /** A date that names an existing calendar day and time of day. */
  predicate Valid(d: DateTime) {
    1 <= d.month <= 12 && 1 <= d.day <= DaysInMonth(d.year, d.month) &&
    ValidTime(d.hour, d.minute, d.second, d.millisecond)
  }

  /** Chronological order of two dates, the order in which `Date` values compare. */
  predicate AtOrBefore(a: DateTime, b: DateTime) {
    if a.year != b.year then a.year < b.year
    else if a.month != b.month then a.month < b.month
    else if a.day != b.day then a.day < b.day
    else if a.hour != b.hour then a.hour < b.hour
    else if a.minute != b.minute then a.minute < b.minute
    else if a.second != b.second then a.second < b.second
    else a.millisecond <= b.millisecond
  }

  /**
   * The first and last instants a `Date` can hold: 8.64e15 milliseconds
   * (100,000,000 days) before and after 1970-01-01T00:00:00.000, with local
   * time taken as UTC. Outside this range the constructor gives an Invalid Date.
   */
  const EarliestDate: DateTime := DateTime(-271821, 4, 20, 0, 0, 0, 0)
  const LatestDate: DateTime := DateTime(275760, 9, 13, 0, 0, 0, 0)

  predicate InTimeRange(d: DateTime) {
    AtOrBefore(EarliestDate, d) && AtOrBefore(d, LatestDate)
  }

  /** A date a `Date` object can hold: an existing day and time within the time range. */
  predicate Representable(d: DateTime) {
    Valid(d) && InTimeRange(d)
  }

  /** Chronological order is a total order: reflexive, antisymmetric, transitive and total. */
  lemma AtOrBeforeIsTotalOrder(a: DateTime, b: DateTime, c: DateTime)
    ensures AtOrBefore(a, a)
    ensures AtOrBefore(a, b) && AtOrBefore(b, a) ==> a == b
    ensures AtOrBefore(a, b) && AtOrBefore(b, c) ==> AtOrBefore(a, c)
    ensures AtOrBefore(a, b) || AtOrBefore(b, a)
  {
  }

  /** The `Date` constructor reads a year argument between 0 and 99 as 1900 + year. */
  function FullYear(year: int): int {
    if 0 <= year <= 99 then 1900 + year else year
  }

  /**
   * Day `d` of month `m` of year `y`, carried into the neighbouring months
   * when `d` is outside 1..DaysInMonth(y, m): day 0 is the last day of the
   * previous month, day DaysInMonth(y, m) + 1 the first of the next one.
   * The result is (year, month, day).
   */
  function NormalizeDay(y: int, m: int, d: int): (r: (int, int, int))
    requires 1 <= m <= 12
    ensures 1 <= r.1 <= 12 && 1 <= r.2 <= DaysInMonth(r.0, r.1)
    ensures 1 <= d <= DaysInMonth(y, m) ==> r == (y, m, d)
    decreases if d < 1 then 1 else 0, if d < 1 then -d else d
  {
    if d < 1 then
      var py := if m == 1 then y - 1 else y;
      var pm := if m == 1 then 12 else m - 1;
      NormalizeDay(py, pm, d + DaysInMonth(py, pm))
    else if d > DaysInMonth(y, m) then
      var ny := if m == 12 then y + 1 else y;
      var nm := if m == 12 then 1 else m + 1;
      NormalizeDay(ny, nm, d - DaysInMonth(y, m))
    else
      (y, m, d)
  }

  /**
   * `new Date(year, monthIndex, day, h, mi, s, ms)`: the month index is
   * 0-based and a value outside 0..11 rolls over into neighbouring years;
   * the day is normalised by NormalizeDay. The time arguments are taken as
   * they are (every caller passes values within range).
   */
  function MakeDate(year: int, monthIndex: int, day: int,
                    h: int, mi: int, s: int, ms: int): (r: DateTime)
    requires ValidTime(h, mi, s, ms)
    ensures Valid(r)
    ensures r.hour == h && r.minute == mi && r.second == s && r.millisecond == ms
  {
    var y := FullYear(year) + monthIndex / 12;
    var m := monthIndex % 12 + 1;
    var ymd := NormalizeDay(y, m, day);
    DateTime(ymd.0, ymd.1, ymd.2, h, mi, s, ms)
  }

  /** Day 1 keeps the (rolled-over) month of the constructor's arguments. */
  lemma MakeDateFirstDay(year: int, monthIndex: int, h: int, mi: int, s: int, ms: int)
    requires ValidTime(h, mi, s, ms)
    ensures MakeDate(year, monthIndex, 1, h, mi, s, ms)
         == DateTime(FullYear(year) + monthIndex / 12, monthIndex % 12 + 1, 1, h, mi, s, ms)
  {
  }

  /** Day 0 is the last day of the month before the (rolled-over) month index. */
  lemma {:induction false} MakeDateDayZero(year: int, monthIndex: int, h: int, mi: int, s: int, ms: int)
    requires ValidTime(h, mi, s, ms)
    ensures var r := MakeDate(year, monthIndex, 0, h, mi, s, ms);
            r.year == FullYear(year) + (monthIndex - 1) / 12 &&
            r.month == (monthIndex - 1) % 12 + 1 &&
            r.day == DaysInMonth(r.year, r.month)
  {
    var y := FullYear(year) + monthIndex / 12;
    var m := monthIndex % 12 + 1;
    var py := if m == 1 then y - 1 else y;
    var pm := if m == 1 then 12 else m - 1;
    assert NormalizeDay(y, m, 0) == (py, pm, DaysInMonth(py, pm));
    PreviousMonthIndex(monthIndex);
  }

  /** Stepping a month index back by one, in (year offset, month) terms. */
  lemma PreviousMonthIndex(monthIndex: int)
    ensures monthIndex % 12 == 0 ==>
              (monthIndex - 1) / 12 == monthIndex / 12 - 1 && (monthIndex - 1) % 12 == 11
    ensures monthIndex % 12 != 0 ==>
              (monthIndex - 1) / 12 == monthIndex / 12 && (monthIndex - 1) % 12 == monthIndex % 12 - 1
  {
    var q, r := monthIndex / 12, monthIndex % 12;
    assert monthIndex == 12 * q + r;
    if r == 0 {
      assert monthIndex - 1 == 12 * (q - 1) + 11;
    } else {
      assert monthIndex - 1 == 12 * q + (r - 1);
    }
  }
}
