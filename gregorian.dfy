/** The calendar arithmetic the booking calendar obtains from JavaScript's Date:
    month lengths, the weekday of a date, and month overflow normalisation.
    A date is a day number in the proleptic Gregorian calendar counted so that
    0001-01-01 is day 1 (a Monday); months are numbered 1..12 here, where Date
    numbers them 0..11. */
module Gregorian {

  /** A calendar date as the local clock reports it. */
  datatype CivilDate = CivilDate(year: int, month: int, day: int)

  predicate IsLeapYear(y: int) {
    y % 4 == 0 && (y % 100 != 0 || y % 400 == 0)
  }

  /** `new Date(y, m, 0).getDate()` with Date's 0-based month `m`: the last day of month m. */
  function DaysInMonth(y: int, m: int): (n: int)
    requires 1 <= m <= 12
    ensures 28 <= n <= 31
    ensures m == 2 ==> (n == 29 <==> IsLeapYear(y))
    ensures m != 2 ==> n >= 30
  {
    if m == 2 then (if IsLeapYear(y) then 29 else 28)
    else if m == 4 || m == 6 || m == 9 || m == 11 then 30
    else 31
  }

  predicate IsValidDate(d: CivilDate) {
    1 <= d.month <= 12 && 1 <= d.day <= DaysInMonth(d.year, d.month)
  }

  function DaysInYear(y: int): int {
    if IsLeapYear(y) then 366 else 365
  }

  /** Days in the months of year y that come before month m. */
  function DaysBeforeMonth(y: int, m: int): int
    requires 1 <= m <= 13
    decreases m
  {
    if m == 1 then 0 else DaysBeforeMonth(y, m - 1) + DaysInMonth(y, m - 1)
  }

  /** Days in the years before year y, counted from year 1 (floor division
      makes the count hold for years before 1 as well). */
  function DaysBeforeYear(y: int): int {
    365 * (y - 1) + (y - 1) / 4 - (y - 1) / 100 + (y - 1) / 400
  }

  /** The day number of y-m-d. */
  function DayNumber(y: int, m: int, d: int): int
    requires 1 <= m <= 12
  {
    DaysBeforeYear(y) + DaysBeforeMonth(y, m) + d
  }

  /** `getDay()`: 0 is Sunday, 6 is Saturday. */
  function Weekday(n: int): (w: int)
    ensures 0 <= w < 7
  {
    n % 7
  }

  /** `new Date(y, m + offset, 1)`: Date carries an out-of-range month into the year. */
  function AddMonths(y: int, m: int, offset: int): (ym: (int, int))
    requires 1 <= m <= 12
    ensures 1 <= ym.1 <= 12
    ensures ym.0 * 12 + ym.1 == y * 12 + m + offset
  {
    var t := y * 12 + (m - 1) + offset;
    (t / 12, t % 12 + 1)
  }

  /** The month after (y, m) is (y, m + 1), or January of the next year after December. */
  lemma NextMonth(y: int, m: int)
    requires 1 <= m <= 12
    ensures AddMonths(y, m, 1) == if m == 12 then (y + 1, 1) else (y, m + 1)
    ensures AddMonths(y, m, 0) == (y, m)
  {
    var ym := AddMonths(y, m, 1);
    assert ym.0 * 12 + ym.1 == y * 12 + m + 1;
    if m == 12 {
      assert (ym.0 - y - 1) * 12 == 1 - ym.1;
    } else {
      assert (ym.0 - y) * 12 == m + 1 - ym.1;
    }
    var ym0 := AddMonths(y, m, 0);
    assert (ym0.0 - y) * 12 == m - ym0.1;
  }

  /** The twelve months of a year add up to the year's length. */
  lemma MonthsFillYear(y: int)
    ensures DaysBeforeMonth(y, 13) == DaysInYear(y)
  {
  }

  /** One more day adds one to the count of multiples of 4, 100 or 400 exactly
      when the new day count is such a multiple. */
  lemma QuotientStep(x: int)
    ensures (x + 1) / 4 == x / 4 + (if (x + 1) % 4 == 0 then 1 else 0)
    ensures (x + 1) / 100 == x / 100 + (if (x + 1) % 100 == 0 then 1 else 0)
    ensures (x + 1) / 400 == x / 400 + (if (x + 1) % 400 == 0 then 1 else 0)
  {
  }

  /** A year adds DaysInYear(y) days: the leap-year rule and DaysBeforeYear agree. */
  lemma YearLength(y: int)
    ensures DaysBeforeYear(y + 1) == DaysBeforeYear(y) + DaysInYear(y)
  {
    QuotientStep(y - 1);
    LeapDivisibility(y);
    var d4 := if y % 4 == 0 then 1 else 0;
    var d100 := if y % 100 == 0 then 1 else 0;
    var d400 := if y % 400 == 0 then 1 else 0;
    assert DaysBeforeYear(y + 1) == DaysBeforeYear(y) + 365 + d4 - d100 + d400;
    assert IsLeapYear(y) <==> d4 - d100 + d400 == 1;
  }

  /** A multiple of 400 is a multiple of 100, and a multiple of 100 one of 4. */
  lemma LeapDivisibility(y: int)
    ensures y % 100 == 0 ==> y % 4 == 0
    ensures y % 400 == 0 ==> y % 100 == 0
  {
    if y % 100 == 0 {
      var q := y / 100;
      assert y == 4 * (25 * q);
    }
    if y % 400 == 0 {
      var q := y / 400;
      assert y == 100 * (4 * q);
    }
  }

  /** The first day of the following month is the day after the last day of this one. */
  lemma MonthsAreContiguous(y: int, m: int)
    requires 1 <= m <= 12
    ensures var (ny, nm) := AddMonths(y, m, 1);
            DayNumber(ny, nm, 1) == DayNumber(y, m, DaysInMonth(y, m)) + 1
  {
    NextMonth(y, m);
    if m == 12 {
      MonthsFillYear(y);
      YearLength(y);
    } else {
      assert DaysBeforeMonth(y, m + 1) == DaysBeforeMonth(y, m) + DaysInMonth(y, m);
    }
  }
}
