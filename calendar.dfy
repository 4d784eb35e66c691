/**
 * Gregorian calendar dates and the ordinal date (day of the year) of
 * section 4.1.3 of ISO 8601:2004, as Python's `datetime` and pandas'
 * `Timestamp` compute them.
 */
module Calendar {

  /** A calendar date, month and day counted from 1. */
  datatype Date = Date(year: int, month: int, day: int)

  /** Leap years of the proleptic Gregorian calendar. */
  predicate IsLeapYear(y: int) {
    y % 4 == 0 && (y % 100 != 0 || y % 400 == 0)
  }

  function DaysInYear(y: int): (n: int)
    ensures n == 365 || n == 366
    ensures n == 366 <==> IsLeapYear(y)
  {
    if IsLeapYear(y) then 366 else 365
  }

  function DaysInMonth(y: int, m: int): (n: int)
    requires 1 <= m <= 12
    ensures 28 <= n <= 31
    ensures n == 29 <==> m == 2 && IsLeapYear(y)
  {
    if m == 2 then (if IsLeapYear(y) then 29 else 28)
    else if m == 4 || m == 6 || m == 9 || m == 11 then 30
    else 31
  }

  /** The dates `datetime` accepts: years 1 to 9999, a real month, a day within it. */
  predicate IsValid(d: Date) {
    && 1 <= d.year <= 9999
    && 1 <= d.month <= 12
    && 1 <= d.day <= DaysInMonth(d.year, d.month)
  }

  /** Every parsed date in the model is a valid one. */
  type CalendarDate = d: Date | IsValid(d) witness Date(2000, 1, 1)

  /** Days in the months of year `y` before month `m` (`m` = 13 gives the whole year). */
  function DaysBeforeMonth(y: int, m: int): int
    requires 1 <= m <= 13
  {
    [0, 31, 59, 90, 120, 151, 181, 212, 243, 273, 304, 334, 365][m - 1]
      + (if m > 2 && IsLeapYear(y) then 1 else 0)
  }

  /** The table of month offsets is the running total of the month lengths. */
  lemma DaysBeforeMonthIsPrefixSum(y: int, m: int)
    requires 1 <= m <= 12
    ensures DaysBeforeMonth(y, 1) == 0
    ensures DaysBeforeMonth(y, m + 1) == DaysBeforeMonth(y, m) + DaysInMonth(y, m)
    ensures DaysBeforeMonth(y, 13) == DaysInYear(y)
  {
  }

  /** Ordinal date: the 1-based position of `d` within its year (`tm_yday`, `dayofyear`). */
  function DayOfYear(d: CalendarDate): (n: int)
    ensures 1 <= n <= DaysInYear(d.year)
    ensures DaysBeforeMonth(d.year, d.month) < n <= DaysBeforeMonth(d.year, d.month + 1)
  {
    DaysBeforeMonthIsPrefixSum(d.year, d.month);
    DaysBeforeMonth(d.year, d.month) + d.day
  }

  /** Month offsets grow strictly: an earlier month's days all come first. */
  lemma {:induction false} DaysBeforeMonthMonotone(y: int, m1: int, m2: int)
    requires 1 <= m1 < m2 <= 13
    ensures DaysBeforeMonth(y, m1 + 1) <= DaysBeforeMonth(y, m2)
    decreases m2 - m1
  {
    if m1 + 1 < m2 {
      DaysBeforeMonthMonotone(y, m1 + 1, m2);
      DaysBeforeMonthIsPrefixSum(y, m1 + 1);
    }
  }

  /**
   * Within one year the ordinal date determines the calendar date; more
   * generally two dates in years of the same kind (both leap or both not)
   * with equal ordinals have the same month and day.
   */
  lemma DayOfYearDeterminesDate(a: CalendarDate, b: CalendarDate)
    requires IsLeapYear(a.year) == IsLeapYear(b.year)
    requires DayOfYear(a) == DayOfYear(b)
    ensures a.month == b.month && a.day == b.day
  {
    if a.month < b.month {
      DaysBeforeMonthMonotone(a.year, a.month, b.month);
      assert false;
    } else if b.month < a.month {
      DaysBeforeMonthMonotone(b.year, b.month, a.month);
      assert false;
    }
  }

  /**
   * Ordinal 366 belongs to 31 December of a leap year and to nothing else,
   * so its group never merges with ordinal 365.
   */
  lemma DayOfYear366(d: CalendarDate)
    ensures DayOfYear(d) == 366 <==> IsLeapYear(d.year) && d.month == 12 && d.day == 31
  {
    if DayOfYear(d) == 366 && d.month < 12 {
      DaysBeforeMonthMonotone(d.year, d.month, 12);
    }
  }

  /**
   * Ordinals are positions, not calendar days: from March on, the same
   * calendar day is one ordinal later in a leap year than in a common year.
   */
  lemma OrdinalShiftsAfterFebruary(d: CalendarDate, e: CalendarDate)
    requires d.month == e.month && d.day == e.day && d.month >= 3
    requires IsLeapYear(d.year) && !IsLeapYear(e.year)
    ensures DayOfYear(d) == DayOfYear(e) + 1
  {
  }

  /** 1 March 2020 shares its ordinal with 2 March 2019, not with 1 March 2019. */
  lemma FirstOfMarchInLeapYear()
    ensures DayOfYear(Date(2020, 3, 1)) == DayOfYear(Date(2019, 3, 2)) == 61
    ensures DayOfYear(Date(2019, 3, 1)) == 60
  {
  }

  /** Chronological order: `a` falls on or before `b`. */
  predicate NotAfter(a: Date, b: Date) {
    a.year < b.year
    || (a.year == b.year && a.month < b.month)
    || (a.year == b.year && a.month == b.month && a.day <= b.day)
  }

  /** `NotAfter` is a total order on dates. */
  lemma NotAfterIsTotalOrder(a: Date, b: Date, c: Date)
    ensures NotAfter(a, a)
    ensures NotAfter(a, b) && NotAfter(b, a) ==> a == b
    ensures NotAfter(a, b) && NotAfter(b, c) ==> NotAfter(a, c)
    ensures NotAfter(a, b) || NotAfter(b, a)
  {
  }
}
