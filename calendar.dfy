/**
 * The Gregorian calendar as the code sees it through JavaScript `Date`
 * objects: civil dates, timestamps with a millisecond-of-day, the
 * start-of-day / end-of-day bounds that `setHours(0,0,0,0)` and
 * `setHours(23,59,59,999)` produce, and `getDaysInMonth` of Alerts.jsx.
 * All times are in one local zone.
 */
module Calendar {

  datatype Date = Date(year: int, month: int, day: int)  // month is 1-based

  predicate IsLeapYear(y: int)
  {
    y % 4 == 0 && (y % 100 != 0 || y % 400 == 0)
  }

  /** Number of days of a (1-based) month. */
  function MonthLength(year: int, month: int): (n: int)
    requires 1 <= month <= 12
    ensures 28 <= n <= 31
  {
    if month == 2 then (if IsLeapYear(year) then 29 else 28)
    else if month == 4 || month == 6 || month == 9 || month == 11 then 30
    else 31
  }

  predicate ValidDate(d: Date)
  {
    1 <= d.month <= 12 && 1 <= d.day <= MonthLength(d.year, d.month)
  }

  type CivilDate = d: Date | ValidDate(d) witness Date(1970, 1, 1)

  const MsPerDay: int := 86400000

  type MsOfDay = n: int | 0 <= n < 86400000

  /** A point in time: a civil date and the milliseconds elapsed since its midnight. */
  datatype Stamp = Stamp(date: CivilDate, ms: MsOfDay)

  /**
   * `getDaysInMonth(year, month)`: `new Date(year, month + 1, 0).getDate()`,
   * where `month` is 0-based and `Date` carries months outside 0..11 into the year.
   */
  function DaysInMonth(year: int, month0: int): (n: int)
    ensures 28 <= n <= 31
    ensures month0 % 12 == 1 ==> (n == 29 <==> IsLeapYear(year + month0 / 12)) && (n == 28 <==> !IsLeapYear(year + month0 / 12))
    ensures month0 % 12 == 3 || month0 % 12 == 5 || month0 % 12 == 8 || month0 % 12 == 10 ==> n == 30
    ensures month0 % 12 != 1 && month0 % 12 != 3 && month0 % 12 != 5 && month0 % 12 != 8 && month0 % 12 != 10 ==> n == 31
  {
    MonthLength(year + month0 / 12, month0 % 12 + 1)
  }

  function YearLengthFrom(year: int, month0: nat): int
    requires month0 <= 12
    decreases 12 - month0
  {
    if month0 == 12 then 0 else DaysInMonth(year, month0) + YearLengthFrom(year, month0 + 1)
  }

  /** The twelve month lengths add up to the length of the Gregorian year. */
  lemma YearLength(year: int)
    ensures YearLengthFrom(year, 0) == if IsLeapYear(year) then 366 else 365
  {
    assert YearLengthFrom(year, 12) == 0;
    assert YearLengthFrom(year, 11) == 31;
    assert YearLengthFrom(year, 10) == 61;
    assert YearLengthFrom(year, 9) == 92;
    assert YearLengthFrom(year, 8) == 122;
    assert YearLengthFrom(year, 7) == 153;
    assert YearLengthFrom(year, 6) == 184;
    assert YearLengthFrom(year, 5) == 214;
    assert YearLengthFrom(year, 4) == 245;
    assert YearLengthFrom(year, 3) == 275;
    assert YearLengthFrom(year, 2) == 306;
  }

  /** Order key of a date: lexicographic in (year, month, day) for valid dates. */
  function DayKey(d: Date): int
  {
    (d.year * 13 + d.month) * 32 + d.day
  }

  /** Order key of a timestamp, the order MongoDB compares dates in. */
  function Rank(s: Stamp): int
  {
    DayKey(s.date) * MsPerDay + s.ms
  }

  predicate DateLe(a: Date, b: Date)
  {
    a.year < b.year || (a.year == b.year && (a.month < b.month || (a.month == b.month && a.day <= b.day)))
  }

  lemma DayKeyOrder(a: CivilDate, b: CivilDate)
    ensures DayKey(a) <= DayKey(b) <==> DateLe(a, b)
  {
  }

  /** `new Date(d)` followed by `setHours(0, 0, 0, 0)`. */
  function StartOfDay(d: CivilDate): Stamp
  {
    Stamp(d, 0)
  }

  /** `new Date(d)` followed by `setHours(23, 59, 59, 999)`. */
  function EndOfDay(d: CivilDate): Stamp
  {
    Stamp(d, MsPerDay - 1)
  }

  /** `date: { $gte: lo, $lte: hi }`. */
  predicate InWindow(s: Stamp, lo: Stamp, hi: Stamp)
  {
    Rank(lo) <= Rank(s) <= Rank(hi)
  }

  /** The inclusive day-bounded window from the start of `first` to the end of `last`. */
  predicate InDays(s: Stamp, first: CivilDate, last: CivilDate)
  {
    InWindow(s, StartOfDay(first), EndOfDay(last))
  }

  /** A day-bounded window holds exactly the timestamps whose date lies between the two dates. */
  lemma InDaysByDate(s: Stamp, first: CivilDate, last: CivilDate)
    ensures InDays(s, first, last) <==> DateLe(first, s.date) && DateLe(s.date, last)
  {
    DayKeyOrder(first, s.date);
    DayKeyOrder(s.date, last);
  }

  function FirstOfMonth(year: int, month: int): CivilDate
    requires 1 <= month <= 12
  {
    Date(year, month, 1)
  }

  function LastOfMonth(year: int, month: int): CivilDate
    requires 1 <= month <= 12
  {
    Date(year, month, MonthLength(year, month))
  }

  /** The month window `[first day 00:00, last day 23:59:59.999]` holds exactly that month's timestamps. */
  lemma InMonthWindow(s: Stamp, year: int, month: int)
    requires 1 <= month <= 12
    ensures InDays(s, FirstOfMonth(year, month), LastOfMonth(year, month))
            <==> s.date.year == year && s.date.month == month
  {
    InDaysByDate(s, FirstOfMonth(year, month), LastOfMonth(year, month));
  }

  /** The year window `[Jan 1 00:00, Dec 31 23:59:59.999]` holds exactly that year's timestamps. */
  lemma InYearWindow(s: Stamp, year: int)
    ensures InDays(s, FirstOfMonth(year, 1), LastOfMonth(year, 12)) <==> s.date.year == year
  {
    InDaysByDate(s, FirstOfMonth(year, 1), LastOfMonth(year, 12));
  }

  /** `new Date(year, ...)` reads a year from 0 to 99 as 1900 to 1999. */
  function JsYear(year: int): (y: int)
    ensures 0 <= year <= 99 ==> y == 1900 + year
    ensures (year < 0 || year > 99) ==> y == year
  {
    if 0 <= year <= 99 then 1900 + year else year
  }

  /** Days since 1970-01-01 of a civil date (proleptic Gregorian). */
  function EpochDay(d: Date): int
  {
    var y := if d.month <= 2 then d.year - 1 else d.year;
    var era := y / 400;
    var yoe := y - era * 400;
    var mp := if d.month > 2 then d.month - 3 else d.month + 9;
    var doy := (153 * mp + 2) / 5 + d.day - 1;
    var doe := yoe * 365 + yoe / 4 - yoe / 100 + doy;
    era * 146097 + doe - 719468
  }

  /** `later - earlier` on two `Date` objects, in milliseconds. */
  function ElapsedMs(earlier: Stamp, later: Stamp): int
  {
    (EpochDay(later.date) - EpochDay(earlier.date)) * MsPerDay + later.ms - earlier.ms
  }
}
