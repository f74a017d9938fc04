/** The inclusive list of dates between two `YYYY-MM-DD` strings (`DateRange`). */
module Range {
  import opened Wrappers
  import opened Gregorian
  import opened IsoDate
  import opened Config

  /** Why a range could not be built; the source panics in each case. */
  datatype RangeError =
    | UnparsableFrom   // the first date does not parse
    | UnparsableTo     // the second date does not parse
    | NegativeLength   // the day count plus one is negative, so it is not a valid length

  datatype DateRange = DateRange(range: seq<Date>)

  /** The `n` dates starting at `d`, one day apart. */
  function DaysFrom(d: Date, n: nat): (r: seq<Date>)
    ensures |r| == n
  {
    if n == 0 then [] else DaysFrom(d, n - 1) + [NthSucc(d, n - 1)]
  }

  /** The number of days from `from` to `to`, plus one; it may be zero or negative. */
  function InclusiveLength(from: Date, to: Date): int {
    DayNumber(to) - DayNumber(from) + 1
  }

  /** What building a range from two strings yields. */
  function RangeOf(from: string, to: string): Result<DateRange, RangeError> {
    match ParseIsoDate(from)
    case None => Failure(UnparsableFrom)
    case Some(f) =>
      match ParseIsoDate(to)
      case None => Failure(UnparsableTo)
      case Some(t) =>
        Between(f, t)
  }

  /** The range between two parsed dates. */
  function Between(f: Date, t: Date): Result<DateRange, RangeError> {
    var diff := InclusiveLength(f, t);
    if diff < 0 then Failure(NegativeLength) else Success(DateRange(DaysFrom(f, diff)))
  }

  /** Parses both strings and lists every date from the first to the second. */
  method Init(from: string, to: string, config: CalendarConfig) returns (r: Result<DateRange, RangeError>)
    requires config.dateFormat == IsoFormat
    ensures r == RangeOf(from, to)
  {
    var fromDate: Date;
    match ParseIsoDate(from) {
      case None => return Failure(UnparsableFrom);
      case Some(v) => fromDate := v;
    }
    var toDate: Date;
    match ParseIsoDate(to) {
      case None => return Failure(UnparsableTo);
      case Some(v) => toDate := v;
    }
    r := Expand(fromDate, toDate);
  }

  /** The enumeration loop of `Init`, once both dates are parsed. */
  method Expand(fromDate: Date, toDate: Date) returns (r: Result<DateRange, RangeError>)
    ensures r == Between(fromDate, toDate)
  {
    var range: seq<Date> := [];
    var diff := InclusiveLength(fromDate, toDate);
    if diff < 0 {
      return Failure(NegativeLength);
    }
    var d := fromDate;
    var i := 0;
    while i < diff
      invariant 0 <= i <= diff
      invariant range == DaysFrom(fromDate, i)
      invariant d == NthSucc(fromDate, i)
    {
      range := range + [d];
      d := Succ(d);
      i := i + 1;
    }
    return Success(DateRange(range));
  }

  lemma {:induction false} DaysFromAt(d: Date, n: nat)
    ensures |DaysFrom(d, n)| == n
    ensures forall i :: 0 <= i < n ==> DaysFrom(d, n)[i] == NthSucc(d, i)
  {
    if n > 0 {
      DaysFromAt(d, n - 1);
    }
  }

  /** The `i`-th date of a range is `i` days after its first date. */
  lemma DaysFromDayNumbers(d: Date, n: nat)
    ensures |DaysFrom(d, n)| == n
    ensures forall i :: 0 <= i < n ==> DayNumber(DaysFrom(d, n)[i]) == DayNumber(d) + i
  {
    DaysFromAt(d, n);
    forall i | 0 <= i < n
      ensures DayNumber(DaysFrom(d, n)[i]) == DayNumber(d) + i
    {
      NthSuccDayNumber(d, i);
    }
  }

  /** Each date of a range is the successor of the one before: no gaps, no repeats. */
  lemma DaysFromConsecutive(d: Date, n: nat)
    ensures forall i :: 0 <= i < n - 1 ==> DaysFrom(d, n)[i + 1] == Succ(DaysFrom(d, n)[i])
  {
    DaysFromAt(d, n);
  }

  /** A range is strictly ascending. */
  lemma DaysFromAscending(d: Date, n: nat)
    ensures forall i, j :: 0 <= i < j < n ==> Before(DaysFrom(d, n)[i], DaysFrom(d, n)[j])
  {
    DaysFromDayNumbers(d, n);
    forall i, j | 0 <= i < j < n
      ensures Before(DaysFrom(d, n)[i], DaysFrom(d, n)[j])
    {
      BeforeIffDayNumberLess(DaysFrom(d, n)[i], DaysFrom(d, n)[j]);
    }
  }

  /**
    * For `f` not after `t`: the range starts with `f`, ends with `t` and has one
    * more element than the days between them.
    */
  lemma BetweenEndpoints(f: Date, t: Date)
    requires !Before(t, f)
    ensures DayNumber(f) <= DayNumber(t)
    ensures Between(f, t).Success?
    ensures var r := Between(f, t).value.range;
      |r| == DayNumber(t) - DayNumber(f) + 1 && r[0] == f && r[|r| - 1] == t
  {
    BeforeIffDayNumberLess(t, f);
    var n := InclusiveLength(f, t);
    assert n >= 1;
    var r := DaysFrom(f, n);
    DaysFromAt(f, n);
    assert r[0] == f;
    var last := r[n - 1];
    NthSuccDayNumber(f, n - 1);
    assert DayNumber(last) == DayNumber(t);
    DayNumberInjective(last, t);
  }

  /** The same for the two strings that name `f` and `t`. */
  lemma RangeEndpoints(from: string, to: string, f: Date, t: Date)
    requires ParseIsoDate(from) == Some(f) && ParseIsoDate(to) == Some(t)
    requires !Before(t, f)
    ensures DayNumber(f) <= DayNumber(t)
    ensures RangeOf(from, to).Success?
    ensures var r := RangeOf(from, to).value.range;
      |r| == DayNumber(t) - DayNumber(f) + 1 && r[0] == f && r[|r| - 1] == t
  {
    assert RangeOf(from, to) == Between(f, t);
    BetweenEndpoints(f, t);
  }

  /** A successful range holds exactly the dates from its first to its last string, inclusive. */
  lemma RangeMembers(from: string, to: string, f: Date, t: Date, e: Date)
    requires ParseIsoDate(from) == Some(f) && ParseIsoDate(to) == Some(t)
    requires RangeOf(from, to).Success?
    ensures e in RangeOf(from, to).value.range <==> !Before(e, f) && !Before(t, e)
  {
    var n := InclusiveLength(f, t);
    var r := DaysFrom(f, n);
    DaysFromDayNumbers(f, n);
    BeforeIffDayNumberLess(e, f);
    BeforeIffDayNumberLess(t, e);
    if !Before(e, f) && !Before(t, e) {
      var k := DayNumber(e) - DayNumber(f);
      DayNumberInjective(r[k], e);
    }
  }

  /** When they parse, the range fails exactly when `to` lies two or more days before `from`. */
  lemma RangeFailure(from: string, to: string)
    ensures RangeOf(from, to) == Failure(UnparsableFrom) <==> ParseIsoDate(from).None?
    ensures RangeOf(from, to) == Failure(UnparsableTo)
      <==> ParseIsoDate(from).Some? && ParseIsoDate(to).None?
    ensures RangeOf(from, to) == Failure(NegativeLength)
      <==> ParseIsoDate(from).Some? && ParseIsoDate(to).Some?
           && DayNumber(ParseIsoDate(to).value) < DayNumber(ParseIsoDate(from).value) - 1
  {
  }

  /** The day before `from` as `to` gives the empty range rather than a failure. */
  lemma RangeEmptyForPredecessor(from: string, to: string, f: Date, t: Date)
    requires ParseIsoDate(from) == Some(f) && ParseIsoDate(to) == Some(t)
    requires Succ(t) == f
    ensures RangeOf(from, to) == Success(DateRange([]))
  {
    SuccDayNumber(t);
  }

  lemma ParsesNovember11th2023()
    ensures ParseIsoDate("2023-11-11") == Some(YearMonthDay(2023, 11, 11))
  {
    var s := "2023-11-11";
    assert HasIsoShape(s);
    assert Value4(s[0], s[1], s[2], s[3]) == 2023;
    assert Value2(s[5], s[6]) == 11;
    assert Value2(s[8], s[9]) == 11;
  }

  lemma ParsesNovember20th2023()
    ensures ParseIsoDate("2023-11-20") == Some(YearMonthDay(2023, 11, 20))
  {
    var s := "2023-11-20";
    assert HasIsoShape(s);
    assert Value4(s[0], s[1], s[2], s[3]) == 2023;
    assert Value2(s[5], s[6]) == 11;
    assert Value2(s[8], s[9]) == 20;
  }

  lemma ParsesJanuary1st2024()
    ensures ParseIsoDate("2024-01-01") == Some(YearMonthDay(2024, 1, 1))
  {
    var s := "2024-01-01";
    assert HasIsoShape(s);
    assert Value4(s[0], s[1], s[2], s[3]) == 2024;
    assert Value2(s[5], s[6]) == 1;
    assert Value2(s[8], s[9]) == 1;
  }

  /** 2023-11-11 to 2023-11-20 gives ten dates holding both endpoints. */
  lemma TenDaysOfNovember2023()
    ensures RangeOf("2023-11-11", "2023-11-20").Success?
    ensures |RangeOf("2023-11-11", "2023-11-20").value.range| == 10
    ensures YearMonthDay(2023, 11, 11) in RangeOf("2023-11-11", "2023-11-20").value.range
    ensures YearMonthDay(2023, 11, 20) in RangeOf("2023-11-11", "2023-11-20").value.range
  {
    ParsesNovember11th2023();
    ParsesNovember20th2023();
    RangeEndpoints("2023-11-11", "2023-11-20", YearMonthDay(2023, 11, 11), YearMonthDay(2023, 11, 20));
  }

  lemma DemoDayNumbers()
    ensures DayNumber(YearMonthDay(2023, 11, 11)) == 739200
    ensures DayNumber(YearMonthDay(2024, 1, 1)) == 739251
  {
  }

  /** 2023-11-11 to 2024-01-01, the range the program lists, has 52 dates. */
  lemma DemoRangeLength()
    ensures RangeOf("2023-11-11", "2024-01-01").Success?
    ensures |RangeOf("2023-11-11", "2024-01-01").value.range| == 52
  {
    var f: Date := YearMonthDay(2023, 11, 11);
    var t: Date := YearMonthDay(2024, 1, 1);
    ParsesNovember11th2023();
    ParsesJanuary1st2024();
    DemoDayNumbers();
    RangeEndpoints("2023-11-11", "2024-01-01", f, t);
  }
}
