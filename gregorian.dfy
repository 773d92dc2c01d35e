/** The proleptic Gregorian calendar arithmetic that the client obtains from
    JavaScript's `Date`: month lengths (`new Date(y, m + 1, 0).getDate()`),
    the day of the week (`getDay()`, 0 = Sunday) and the month carry of
    `new Date(y, m +/- 1, 1)`. Months are 0-based, as in `Date`. */
module Gregorian {

  predicate IsLeapYear(y: int)
  {
    y % 4 == 0 && (y % 100 != 0 || y % 400 == 0)
  }

  function DaysInMonth(y: int, m: int): (n: int)
    requires 0 <= m < 12
    ensures 28 <= n <= 31
    ensures n == 29 <==> m == 1 && IsLeapYear(y)
  {
    if m == 1 then (if IsLeapYear(y) then 29 else 28)
    else if m == 3 || m == 5 || m == 8 || m == 10 then 30
    else 31
  }

  /** Days of year `y` before the first of month `m`. */
  function DaysBeforeMonth(y: int, m: int): int
    requires 0 <= m <= 12
  {
    if m == 0 then 0 else DaysBeforeMonth(y, m - 1) + DaysInMonth(y, m - 1)
  }

  /** Days from 1 January of year 1 to 1 January of year `y`. */
  function DaysBeforeYear(y: int): int
  {
    365 * (y - 1) + (y - 1) / 4 - (y - 1) / 100 + (y - 1) / 400
  }

  /** Days from 1 January of year 1 to the given day (which is day 0). */
  function DayNumber(y: int, m: int, d: int): int
    requires 0 <= m < 12
  {
    DaysBeforeYear(y) + DaysBeforeMonth(y, m) + (d - 1)
  }

  /** `new Date(y, m, d).getDay()`: 0 = Sunday, 1 = Monday, ... 6 = Saturday.
      1 January of year 1 was a Monday. */
  function Weekday(y: int, m: int, d: int): (w: int)
    requires 0 <= m < 12
    ensures 0 <= w < 7
  {
    (DayNumber(y, m, d) + 1) % 7
  }

  /** The count is anchored: 1 January 1970 was a Thursday, 1 January 2024
      a Monday, and 29 February 2000 a Tuesday. */
  lemma WeekdayAnchors()
    ensures Weekday(1970, 0, 1) == 4
    ensures Weekday(2024, 0, 1) == 1
    ensures Weekday(2000, 1, 29) == 2
  {
    assert DaysBeforeMonth(2000, 1) == 31;
  }

  /** The next day of the month falls on the next weekday. */
  lemma NextDayWeekday(y: int, m: int, d: int)
    requires 0 <= m < 12
    ensures Weekday(y, m, d + 1) == (Weekday(y, m, d) + 1) % 7
  {
  }

  /** `new Date(y, m - 1, 1)`: the month before, as (year, month). */
  function PreviousMonth(y: int, m: int): (r: (int, int))
    requires 0 <= m < 12
    ensures 0 <= r.1 < 12
    ensures r.0 * 12 + r.1 == y * 12 + m - 1
  {
    if m == 0 then (y - 1, 11) else (y, m - 1)
  }

  /** `new Date(y, m + 1, 1)`: the month after, as (year, month). */
  function NextMonth(y: int, m: int): (r: (int, int))
    requires 0 <= m < 12
    ensures 0 <= r.1 < 12
    ensures r.0 * 12 + r.1 == y * 12 + m + 1
  {
    if m == 11 then (y + 1, 0) else (y, m + 1)
  }

  /** Stepping back a month and forward again returns to the same month,
      and the other way round. */
  lemma MonthStepsInvert(y: int, m: int)
    requires 0 <= m < 12
    ensures var p := PreviousMonth(y, m); NextMonth(p.0, p.1) == (y, m)
    ensures var n := NextMonth(y, m); PreviousMonth(n.0, n.1) == (y, m)
  {
  }

  lemma YearLength(y: int)
    ensures DaysBeforeMonth(y, 12) == if IsLeapYear(y) then 366 else 365
  {
    var leap := if IsLeapYear(y) then 1 else 0;
    assert DaysBeforeMonth(y, 1) == 31;
    assert DaysBeforeMonth(y, 2) == 59 + leap;
    assert DaysBeforeMonth(y, 3) == 90 + leap;
    assert DaysBeforeMonth(y, 4) == 120 + leap;
    assert DaysBeforeMonth(y, 5) == 151 + leap;
    assert DaysBeforeMonth(y, 6) == 181 + leap;
    assert DaysBeforeMonth(y, 7) == 212 + leap;
    assert DaysBeforeMonth(y, 8) == 243 + leap;
    assert DaysBeforeMonth(y, 9) == 273 + leap;
    assert DaysBeforeMonth(y, 10) == 304 + leap;
    assert DaysBeforeMonth(y, 11) == 334 + leap;
  }

  lemma DaysBeforeNextYear(y: int)
    ensures DaysBeforeYear(y + 1) == DaysBeforeYear(y) + DaysBeforeMonth(y, 12)
  {
    YearLength(y);
    var q4, q100, q400 := (y - 1) / 4, (y - 1) / 100, (y - 1) / 400;
    assert y - 1 == 4 * q4 + (y - 1) % 4;
    assert y - 1 == 100 * q100 + (y - 1) % 100;
    assert y - 1 == 400 * q400 + (y - 1) % 400;
    assert y / 4 == if y % 4 == 0 then q4 + 1 else q4;
    assert y / 100 == if y % 100 == 0 then q100 + 1 else q100;
    assert y / 400 == if y % 400 == 0 then q400 + 1 else q400;
  }

  /** The first of the next month falls `DaysInMonth` days after the first
      of this month, so its weekday is shifted by that many days. */
  lemma FirstWeekdayOfNextMonth(y: int, m: int)
    requires 0 <= m < 12
    ensures var n := NextMonth(y, m);
      Weekday(n.0, n.1, 1) == (Weekday(y, m, 1) + DaysInMonth(y, m)) % 7
  {
    if m == 11 {
      DaysBeforeNextYear(y);
    }
  }
}
