/**
 * Calendar dates as the server receives and stores them: text of the form
 * `YYYY-MM-DD`.  A date is turned into a day number so that "days between
 * two dates" is a subtraction; the current day is always passed in.
 */
module Dates {
  import opened Common

  predicate IsDigit(c: char) {
    '0' <= c <= '9'
  }

  function Digit(c: char): (d: nat)
    requires IsDigit(c)
    ensures d <= 9
  {
    c as int - '0' as int
  }

  /** Ten characters: four digits, a dash, two digits, a dash, two digits. */
  predicate HasDateLayout(s: string) {
    && |s| == 10
    && s[4] == '-' && s[7] == '-'
    && IsDigit(s[0]) && IsDigit(s[1]) && IsDigit(s[2]) && IsDigit(s[3])
    && IsDigit(s[5]) && IsDigit(s[6])
    && IsDigit(s[8]) && IsDigit(s[9])
  }

  function Year(s: string): nat
    requires HasDateLayout(s)
  {
    1000 * Digit(s[0]) + 100 * Digit(s[1]) + 10 * Digit(s[2]) + Digit(s[3])
  }

  function Month(s: string): nat
    requires HasDateLayout(s)
  {
    10 * Digit(s[5]) + Digit(s[6])
  }

  function Day(s: string): nat
    requires HasDateLayout(s)
  {
    10 * Digit(s[8]) + Digit(s[9])
  }

  /** Gregorian leap years. */
  predicate IsLeapYear(y: int) {
    y % 4 == 0 && (y % 100 != 0 || y % 400 == 0)
  }

  function YearLength(y: int): int {
    if IsLeapYear(y) then 366 else 365
  }

  function DaysInMonth(y: int, m: int): int
    requires 1 <= m <= 12
  {
    if m == 2 then (if IsLeapYear(y) then 29 else 28)
    else if m == 4 || m == 6 || m == 9 || m == 11 then 30
    else 31
  }

  /** The date check of the create and replace routes: a strict `YYYY-MM-DD` that names a real day. */
  predicate IsStrictDate(s: string) {
    HasDateLayout(s) && 1 <= Month(s) <= 12 && 1 <= Day(s) <= DaysInMonth(Year(s), Month(s))
  }

  function DaysBeforeYear(y: nat): nat {
    if y == 0 then 0 else DaysBeforeYear(y - 1) + YearLength(y - 1)
  }

  function DaysBeforeMonth(y: int, m: int): nat
    requires 1 <= m <= 12
  {
    [0, 31, 59, 90, 120, 151, 181, 212, 243, 273, 304, 334][m - 1]
      + (if m > 2 && IsLeapYear(y) then 1 else 0)
  }

  /** Days elapsed from 0000-01-01 to the given day. */
  function DayNumber(y: nat, m: int, d: int): int
    requires 1 <= m <= 12
  {
    DaysBeforeYear(y) + DaysBeforeMonth(y, m) + d - 1
  }

  /** Reads a stored date as a day number; text that is not a strict date has none. */
  function ParseDate(s: string): (day: Option<int>)
    ensures day.Some? <==> IsStrictDate(s)
    ensures day.Some? ==> DaysBeforeYear(Year(s)) <= day.value < DaysBeforeYear(Year(s) + 1)
  {
    if IsStrictDate(s) then
      MonthsAdjoin(Year(s), Month(s));
      Some(DayNumber(Year(s), Month(s), Day(s)))
    else None
  }

  /** Each month starts where the previous one ends, and December ends where the year ends. */
  lemma MonthsAdjoin(y: int, m: int)
    requires 1 <= m <= 12
    ensures m < 12 ==> DaysBeforeMonth(y, m) + DaysInMonth(y, m) == DaysBeforeMonth(y, m + 1)
    ensures m == 12 ==> DaysBeforeMonth(y, m) + DaysInMonth(y, m) == YearLength(y)
  {
  }

  lemma {:induction false} MonthsIncrease(y: int, m1: int, m2: int)
    requires 1 <= m1 < m2 <= 12
    ensures DaysBeforeMonth(y, m1) + DaysInMonth(y, m1) <= DaysBeforeMonth(y, m2)
    decreases m2 - m1
  {
    MonthsAdjoin(y, m1);
    if m1 + 1 < m2 {
      MonthsIncrease(y, m1 + 1, m2);
      MonthsAdjoin(y, m1 + 1);
    }
  }

  lemma {:induction false} YearsIncrease(y1: nat, y2: nat)
    requires y1 < y2
    ensures DaysBeforeYear(y1) + YearLength(y1) <= DaysBeforeYear(y2)
    decreases y2 - y1
  {
    if y1 + 1 < y2 {
      YearsIncrease(y1 + 1, y2);
    }
  }

  /**
   * Day numbers follow the calendar: a strictly later date has a strictly
   * larger day number.
   */
  lemma {:induction false} LaterDateLargerDay(s: string, t: string)
    requires IsStrictDate(s) && IsStrictDate(t)
    requires || Year(s) < Year(t)
             || (Year(s) == Year(t) && Month(s) < Month(t))
             || (Year(s) == Year(t) && Month(s) == Month(t) && Day(s) < Day(t))
    ensures ParseDate(s).value < ParseDate(t).value
  {
    var ys, ms, ds := Year(s), Month(s), Day(s);
    var yt, mt, dt := Year(t), Month(t), Day(t);
    MonthsAdjoin(ys, ms);
    if ys < yt {
      if ms < 12 {
        MonthsIncrease(ys, ms, 12);
        MonthsAdjoin(ys, 12);
      }
      YearsIncrease(ys, yt);
    } else if ms < mt {
      MonthsIncrease(ys, ms, mt);
    }
  }

  // ---------------------------------------------------------------------------
  // Consecutive calendar days have consecutive day numbers, so a difference of
  // day numbers is a count of calendar days.
  // ---------------------------------------------------------------------------

  /** From day d to day d + 1 of the same month. */
  lemma NextDayInMonth(s: string, t: string)
    requires IsStrictDate(s) && IsStrictDate(t)
    requires Year(t) == Year(s) && Month(t) == Month(s) && Day(t) == Day(s) + 1
    ensures ParseDate(t).value == ParseDate(s).value + 1
  {
  }

  /** From the last day of a month to the first day of the next month of the same year. */
  lemma NextDayAcrossMonth(s: string, t: string)
    requires IsStrictDate(s) && IsStrictDate(t)
    requires Year(t) == Year(s) && Month(s) < 12 && Month(t) == Month(s) + 1
    requires Day(s) == DaysInMonth(Year(s), Month(s)) && Day(t) == 1
    ensures ParseDate(t).value == ParseDate(s).value + 1
  {
    MonthsAdjoin(Year(s), Month(s));
  }

  /** From 31 December to 1 January of the next year. */
  lemma NextDayAcrossYear(s: string, t: string)
    requires IsStrictDate(s) && IsStrictDate(t)
    requires Year(t) == Year(s) + 1 && Month(s) == 12 && Day(s) == 31 && Month(t) == 1 && Day(t) == 1
    ensures ParseDate(t).value == ParseDate(s).value + 1
  {
    MonthsAdjoin(Year(s), 12);
  }
}
