/**
  * A small proleptic-Gregorian calendar: the part of the date library that the
  * calendar generator relies on (valid year/month/day triples, the successor
  * of a date, day counts and the day of the week).
  */
module Gregorian {

  /** A raw year/month/day triple; `Date` below keeps only the real calendar dates. */
  datatype YearMonthDay = YearMonthDay(year: nat, month: int, day: int)

  predicate IsLeapYear(y: nat) {
    y % 4 == 0 && (y % 100 != 0 || y % 400 == 0)
  }

  function DaysInMonth(y: nat, m: int): int
    requires 1 <= m <= 12
  {
    if m == 2 then (if IsLeapYear(y) then 29 else 28)
    else if m == 4 || m == 6 || m == 9 || m == 11 then 30
    else 31
  }

  predicate IsValid(d: YearMonthDay) {
    1 <= d.month <= 12 && 1 <= d.day <= DaysInMonth(d.year, d.month)
  }

  /** A calendar date that exists: the month is 1..12 and the day fits the month. */
  type Date = d: YearMonthDay | IsValid(d) witness YearMonthDay(2000, 1, 1)

  function YearLength(y: nat): int {
    if IsLeapYear(y) then 366 else 365
  }

  /** Days from 0000-01-01 to the first day of year `y` (leap years before `y` counted in closed form). */
  function DaysBeforeYear(y: nat): nat {
    365 * y + (y + 3) / 4 - (y + 99) / 100 + (y + 399) / 400
  }

  /** Days from the first of January of year `y` to the first day of month `m`. */
  function DaysBeforeMonth(y: nat, m: int): nat
    requires 1 <= m <= 12
  {
    var cumulative := [0, 31, 59, 90, 120, 151, 181, 212, 243, 273, 304, 334];
    cumulative[m - 1] + (if m > 2 && IsLeapYear(y) then 1 else 0)
  }

  /** The number of days from 0000-01-01 to `d`. */
  function DayNumber(d: Date): nat {
    DaysBeforeYear(d.year) + DaysBeforeMonth(d.year, d.month) + d.day - 1
  }

  /** The next calendar date. */
  function Succ(d: Date): Date {
    if d.day < DaysInMonth(d.year, d.month) then YearMonthDay(d.year, d.month, d.day + 1)
    else if d.month < 12 then YearMonthDay(d.year, d.month + 1, 1)
    else YearMonthDay(d.year + 1, 1, 1)
  }

  /** The date `n` days after `d`. */
  function NthSucc(d: Date, n: nat): Date {
    if n == 0 then d else Succ(NthSucc(d, n - 1))
  }

  /** Chronological order: lexicographic on (year, month, day). */
  predicate Before(a: Date, b: Date) {
    a.year < b.year
    || (a.year == b.year && a.month < b.month)
    || (a.year == b.year && a.month == b.month && a.day < b.day)
  }

  lemma Quotient4(y: nat)
    ensures (y + 1 + 3) / 4 == (y + 3) / 4 + (if y % 4 == 0 then 1 else 0)
  {
    var q := y / 4;
    assert y == 4 * q + y % 4;
  }

  lemma Quotient100(y: nat)
    ensures (y + 1 + 99) / 100 == (y + 99) / 100 + (if y % 100 == 0 then 1 else 0)
  {
    var q := y / 100;
    assert y == 100 * q + y % 100;
  }

  lemma Quotient400(y: nat)
    ensures (y + 1 + 399) / 400 == (y + 399) / 400 + (if y % 400 == 0 then 1 else 0)
  {
    var q := y / 400;
    assert y == 400 * q + y % 400;
  }

  lemma Century4(y: nat)
    requires y % 100 == 0
    ensures y % 4 == 0
  {
    var m := 25 * (y / 100);
    assert y == 4 * m;
  }

  lemma Quadricentury100(y: nat)
    requires y % 400 == 0
    ensures y % 100 == 0
  {
    var m := 4 * (y / 400);
    assert y == 100 * m;
  }

  lemma YearStep(y: nat)
    ensures DaysBeforeYear(y + 1) == DaysBeforeYear(y) + YearLength(y)
  {
    if y % 100 == 0 {
      Century4(y);
    }
    if y % 400 == 0 {
      Quadricentury100(y);
    }
    Quotient4(y);
    Quotient100(y);
    Quotient400(y);
  }

  lemma MonthStep(y: nat, m: int)
    requires 1 <= m < 12
    ensures DaysBeforeMonth(y, m + 1) == DaysBeforeMonth(y, m) + DaysInMonth(y, m)
  {
  }

  /** The day number is one more for the successor: the calendar has no gaps. */
  lemma SuccDayNumber(d: Date)
    ensures DayNumber(Succ(d)) == DayNumber(d) + 1
  {
    if d.day == DaysInMonth(d.year, d.month) {
      if d.month < 12 {
        MonthStep(d.year, d.month);
      } else {
        YearStep(d.year);
      }
    }
  }

  lemma {:induction false} NthSuccDayNumber(d: Date, n: nat)
    ensures DayNumber(NthSucc(d, n)) == DayNumber(d) + n
  {
    if n > 0 {
      NthSuccDayNumber(d, n - 1);
      SuccDayNumber(NthSucc(d, n - 1));
    }
  }

  lemma {:induction false} DaysBeforeYearIncreasing(a: nat, b: nat)
    requires a < b
    ensures DaysBeforeYear(a) + YearLength(a) <= DaysBeforeYear(b)
    decreases b - a
  {
    YearStep(a);
    if a + 1 < b {
      DaysBeforeYearIncreasing(a + 1, b);
    }
  }

  lemma DaysBeforeMonthIncreasing(y: nat, a: int, b: int)
    requires 1 <= a < b <= 12
    ensures DaysBeforeMonth(y, a) + DaysInMonth(y, a) <= DaysBeforeMonth(y, b)
  {
  }

  lemma DayOfYearBound(d: Date)
    ensures DaysBeforeMonth(d.year, d.month) + d.day - 1 < YearLength(d.year)
  {
  }

  /** Chronological order is exactly the order of day numbers. */
  lemma BeforeIffDayNumberLess(a: Date, b: Date)
    ensures Before(a, b) <==> DayNumber(a) < DayNumber(b)
  {
    if a.year < b.year {
      DayOfYearBound(a);
      DaysBeforeYearIncreasing(a.year, b.year);
    } else if b.year < a.year {
      DayOfYearBound(b);
      DaysBeforeYearIncreasing(b.year, a.year);
    } else if a.month < b.month {
      DaysBeforeMonthIncreasing(a.year, a.month, b.month);
    } else if b.month < a.month {
      DaysBeforeMonthIncreasing(a.year, b.month, a.month);
    }
  }

  /** Two dates with the same day number are the same date. */
  lemma DayNumberInjective(a: Date, b: Date)
    requires DayNumber(a) == DayNumber(b)
    ensures a == b
  {
    BeforeIffDayNumberLess(a, b);
    BeforeIffDayNumberLess(b, a);
  }

  /** The successor comes strictly after the date and nothing lies between them. */
  lemma SuccIsNext(d: Date, e: Date)
    ensures Before(d, Succ(d))
    ensures !(Before(d, e) && Before(e, Succ(d)))
  {
    SuccDayNumber(d);
    BeforeIffDayNumberLess(d, Succ(d));
    BeforeIffDayNumberLess(d, e);
    BeforeIffDayNumberLess(e, Succ(d));
  }

  datatype Weekday = Mon | Tue | Wed | Thu | Fri | Sat | Sun

  function WeekdayFromIndex(i: int): Weekday
    requires 0 <= i < 7
  {
    match i
    case 0 => Mon
    case 1 => Tue
    case 2 => Wed
    case 3 => Thu
    case 4 => Fri
    case 5 => Sat
    case _ => Sun
  }

  function NextWeekday(w: Weekday): Weekday {
    match w
    case Mon => Tue
    case Tue => Wed
    case Wed => Thu
    case Thu => Fri
    case Fri => Sat
    case Sat => Sun
    case Sun => Mon
  }

  /** The ISO day of the week; 0000-01-01 of the proleptic Gregorian calendar is a Saturday. */
  function WeekdayOf(d: Date): Weekday {
    WeekdayFromIndex((DayNumber(d) + 5) % 7)
  }

  lemma IndexStep(n: nat)
    ensures WeekdayFromIndex((n + 1 + 5) % 7) == NextWeekday(WeekdayFromIndex((n + 5) % 7))
  {
    var i := (n + 5) % 7;
    assert (n + 1 + 5) % 7 == (i + 1) % 7;
  }

  /** The day after a Monday is a Tuesday, ..., the day after a Sunday is a Monday. */
  lemma WeekdayOfSucc(d: Date)
    ensures WeekdayOf(Succ(d)) == NextWeekday(WeekdayOf(d))
  {
    SuccDayNumber(d);
    IndexStep(DayNumber(d));
  }

  /** The day of the week repeats every seven days. */
  lemma WeekdayPeriodic(d: Date, weeks: nat)
    ensures WeekdayOf(NthSucc(d, 7 * weeks)) == WeekdayOf(d)
  {
    NthSuccDayNumber(d, 7 * weeks);
    SameWeekIndex(DayNumber(d), weeks);
  }

  lemma SameWeekIndex(n: nat, weeks: nat)
    ensures (n + 7 * weeks + 5) % 7 == (n + 5) % 7
  {
    var q := (n + 5) / 7;
    assert n + 5 == 7 * q + (n + 5) % 7;
    assert n + 7 * weeks + 5 == 7 * (q + weeks) + (n + 5) % 7;
  }
}
