/** Names and classifications derived from one date (`DateUtils`). */
module DateUtils {
  import opened Wrappers
  import opened Gregorian

  datatype Month =
    January | February | March | April | May | June
    | July | August | September | October | November | December

  /** The month's number, 1 for January through 12 for December. */
  function MonthNumber(m: Month): int {
    match m
    case January => 1
    case February => 2
    case March => 3
    case April => 4
    case May => 5
    case June => 6
    case July => 7
    case August => 8
    case September => 9
    case October => 10
    case November => 11
    case December => 12
  }

  /** The month with number `n`, or `None` outside 1..12 (the library's `Month::try_from`). */
  function MonthFromNumber(n: int): (r: Option<Month>)
    ensures r.Some? <==> 1 <= n <= 12
    ensures r.Some? ==> MonthNumber(r.value) == n
  {
    if 1 <= n <= 12 then
      Some([January, February, March, April, May, June,
            July, August, September, October, November, December][n - 1])
    else None
  }

  /** The English name of a month. */
  function MonthName(m: Month): string {
    match m
    case January => "January"
    case February => "February"
    case March => "March"
    case April => "April"
    case May => "May"
    case June => "June"
    case July => "July"
    case August => "August"
    case September => "September"
    case October => "October"
    case November => "November"
    case December => "December"
  }

  /** The day of the week of a date. */
  function GetWeekDayShortName(date: Date): Weekday {
    WeekdayOf(date)
  }

  /** The month of a date; the lookup cannot fail for a valid date. */
  function GetMonthShortName(date: Date): (m: Month)
    ensures MonthNumber(m) == date.month
  {
    MonthFromNumber(date.month).value
  }

  function GetMonthFullName(date: Date): string {
    MonthName(GetMonthShortName(date))
  }

  /** The English name of the day of the week of a date. */
  function GetWeekDayFullName(day: Date): string {
    match GetWeekDayShortName(day)
    case Mon => "Monday"
    case Tue => "Tuesday"
    case Wed => "Wednesday"
    case Thu => "Thursday"
    case Fri => "Friday"
    case Sat => "Saturday"
    case Sun => "Sunday"
  }

  /** Saturdays and Sundays: the last two days of the ISO week. */
  function IsWeekend(input: Date): bool {
    var day := WeekdayOf(input);
    if day == Sat then true
    else if day == Sun then true
    else false
  }

  /** Different weekdays and different months have different names. */
  lemma NamesDistinct(d: Date, e: Date)
    ensures GetWeekDayFullName(d) == GetWeekDayFullName(e) <==> WeekdayOf(d) == WeekdayOf(e)
    ensures GetMonthFullName(d) == GetMonthFullName(e) <==> d.month == e.month
  {
  }

  /** A weekend is exactly a Saturday and the Sunday after it. */
  lemma WeekendPairs(d: Date)
    ensures IsWeekend(d) <==> WeekdayOf(d) == Sat || WeekdayOf(d) == Sun
    ensures IsWeekend(d) && IsWeekend(Succ(d)) <==> WeekdayOf(d) == Sat
  {
    WeekdayOfSucc(d);
  }

  /** Whether a day falls on a weekend repeats every seven days. */
  lemma WeekendPeriodic(d: Date, weeks: nat)
    ensures IsWeekend(NthSucc(d, 7 * weeks)) == IsWeekend(d)
  {
    NthSuccDayNumber(d, 7 * weeks);
    SameWeekIndex(DayNumber(d), weeks);
  }

  /** 2023-11-21 is a Tuesday in November. */
  lemma November21st2023()
    ensures GetWeekDayShortName(YearMonthDay(2023, 11, 21)) == Tue
    ensures GetWeekDayFullName(YearMonthDay(2023, 11, 21)) == "Tuesday"
    ensures GetMonthShortName(YearMonthDay(2023, 11, 21)) == November
    ensures GetMonthFullName(YearMonthDay(2023, 11, 21)) == "November"
  {
    assert DayNumber(YearMonthDay(2023, 11, 21)) == 739210;
  }

  /** 2023-11-24 is a Friday and the two days after it are the weekend. */
  lemma WeekendOfNovember25th2023()
    ensures !IsWeekend(YearMonthDay(2023, 11, 24))
    ensures IsWeekend(YearMonthDay(2023, 11, 25))
    ensures IsWeekend(YearMonthDay(2023, 11, 26))
  {
    assert DayNumber(YearMonthDay(2023, 11, 24)) == 739213;
  }
}
