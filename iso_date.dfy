/**
  * Text forms of a date: the ISO 8601 extended calendar-date form `YYYY-MM-DD`
  * (section 4.1.2.2 of ISO 8601:2004, the `%Y-%m-%d` pattern) and its parser,
  * and the `DD.MM.YYYY` form (the `%d.%m.%Y` pattern) used in day lines.
  */
module IsoDate {
  import opened Wrappers
  import opened Gregorian

  /** The date pattern the configuration carries and the parser below reads. */
  const IsoFormat: string := "%Y-%m-%d"

  predicate IsDigit(c: char) {
    '0' <= c <= '9'
  }

  function DigitValue(c: char): nat
    requires IsDigit(c)
  {
    c as int - '0' as int
  }

  function DigitChar(n: nat): char
    requires n < 10
  {
    ('0' as int + n) as char
  }

  /** `n` in two decimal digits, zero-padded. */
  function Pad2(n: nat): string
    requires n < 100
  {
    [DigitChar(n / 10), DigitChar(n % 10)]
  }

  /** `n` in four decimal digits, zero-padded. */
  function Pad4(n: nat): string
    requires n < 10000
  {
    [DigitChar(n / 1000), DigitChar(n / 100 % 10), DigitChar(n / 10 % 10), DigitChar(n % 10)]
  }

  /** `n` in decimal without padding. */
  function Decimal(n: nat): string {
    if n < 10 then [DigitChar(n)] else Decimal(n / 10) + [DigitChar(n % 10)]
  }

  /** The `%Y` field: four digits, or a `+` and all digits beyond year 9999. */
  function YearText(y: nat): string {
    if y <= 9999 then Pad4(y) else "+" + Decimal(y)
  }

  /** `d` in the `%Y-%m-%d` pattern. */
  function FormatIso(d: Date): string {
    YearText(d.year) + "-" + Pad2(d.month) + "-" + Pad2(d.day)
  }

  /** `d` in the `%d.%m.%Y` pattern. */
  function FormatDayMonthYear(d: Date): string {
    Pad2(d.day) + "." + Pad2(d.month) + "." + YearText(d.year)
  }

  /** The ten characters are four digits, a dash, two digits, a dash and two digits. */
  predicate HasIsoShape(s: string) {
    |s| == 10
    && IsDigit(s[0]) && IsDigit(s[1]) && IsDigit(s[2]) && IsDigit(s[3])
    && s[4] == '-'
    && IsDigit(s[5]) && IsDigit(s[6])
    && s[7] == '-'
    && IsDigit(s[8]) && IsDigit(s[9])
  }

  function Value2(a: char, b: char): nat
    requires IsDigit(a) && IsDigit(b)
  {
    10 * DigitValue(a) + DigitValue(b)
  }

  function Value4(a: char, b: char, c: char, d: char): nat
    requires IsDigit(a) && IsDigit(b) && IsDigit(c) && IsDigit(d)
  {
    1000 * DigitValue(a) + 100 * DigitValue(b) + 10 * DigitValue(c) + DigitValue(d)
  }

  lemma Pad2Value(a: char, b: char)
    requires IsDigit(a) && IsDigit(b)
    ensures Value2(a, b) < 100 && Pad2(Value2(a, b)) == [a, b]
  {
    var n := Value2(a, b);
    assert n / 10 == DigitValue(a) && n % 10 == DigitValue(b);
  }

  lemma FourDigits(a: int, b: int, c: int, d: int)
    requires 0 <= a < 10 && 0 <= b < 10 && 0 <= c < 10 && 0 <= d < 10
    ensures var n := 1000 * a + 100 * b + 10 * c + d;
      n / 1000 == a && n / 100 % 10 == b && n / 10 % 10 == c && n % 10 == d
  {
    var n := 1000 * a + 100 * b + 10 * c + d;
    assert n / 10 == 100 * a + 10 * b + c;
    assert n / 100 == 10 * a + b;
  }

  lemma Pad4Value(a: char, b: char, c: char, d: char)
    requires IsDigit(a) && IsDigit(b) && IsDigit(c) && IsDigit(d)
    ensures Value4(a, b, c, d) < 10000 && Pad4(Value4(a, b, c, d)) == [a, b, c, d]
  {
    FourDigits(DigitValue(a), DigitValue(b), DigitValue(c), DigitValue(d));
  }

  /**
    * Reads a date in the `%Y-%m-%d` pattern; `None` when the text is not in that
    * form or names a date that does not exist (a 31st in a 30-day month, a 29th
    * of February outside a leap year, month 00 or 13, day 00).
    */
  function ParseIsoDate(s: string): (r: Option<Date>)
    ensures r.Some? ==> r.value.year <= 9999 && FormatIso(r.value) == s
  {
    if !HasIsoShape(s) then None
    else
      var y := Value4(s[0], s[1], s[2], s[3]);
      var m := Value2(s[5], s[6]);
      var d := Value2(s[8], s[9]);
      if 1 <= m <= 12 && 1 <= d <= DaysInMonth(y, m) then
        Pad4Value(s[0], s[1], s[2], s[3]);
        Pad2Value(s[5], s[6]);
        Pad2Value(s[8], s[9]);
        Some(YearMonthDay(y, m, d))
      else None
  }

  lemma DigitRoundTrip(n: nat)
    requires n < 10
    ensures IsDigit(DigitChar(n)) && DigitValue(DigitChar(n)) == n
  {
  }

  lemma SplitFourDigits(y: nat)
    requires y < 10000
    ensures 1000 * (y / 1000) + 100 * (y / 100 % 10) + 10 * (y / 10 % 10) + y % 10 == y
  {
    var t, h := y / 10, y / 100;
    assert y == 10 * t + y % 10;
    assert h == t / 10;
    assert t == 10 * h + t % 10;
    assert h == 10 * (y / 1000) + h % 10;
  }

  /** Every date of years 0000..9999 is read back from its own `%Y-%m-%d` text. */
  lemma ParseFormatIso(d: Date)
    requires d.year <= 9999
    ensures HasIsoShape(FormatIso(d))
    ensures ParseIsoDate(FormatIso(d)) == Some(d)
  {
    var s := FormatIso(d);
    var y := d.year;
    SplitFourDigits(y);
    DigitRoundTrip(y / 1000);
    DigitRoundTrip(y / 100 % 10);
    DigitRoundTrip(y / 10 % 10);
    DigitRoundTrip(y % 10);
    DigitRoundTrip(d.month / 10);
    DigitRoundTrip(d.month % 10);
    DigitRoundTrip(d.day / 10);
    DigitRoundTrip(d.day % 10);
    assert Value4(s[0], s[1], s[2], s[3]) == y;
    assert Value2(s[5], s[6]) == d.month;
    assert Value2(s[8], s[9]) == d.day;
  }

  /** The `%d.%m.%Y` text of a date of years 0000..9999 has ten characters. */
  lemma DayMonthYearLength(d: Date)
    requires d.year <= 9999
    ensures |FormatDayMonthYear(d)| == 10
  {
  }

  /**
    * For years 0000..9999 the `%d.%m.%Y` text holds the day, the month and the
    * year in its digit fields, so the date can be read back from it.
    */
  lemma DayMonthYearFields(d: Date)
    requires d.year <= 9999
    ensures var s := FormatDayMonthYear(d);
      && |s| == 10 && s[2] == '.' && s[5] == '.'
      && IsDigit(s[0]) && IsDigit(s[1]) && IsDigit(s[3]) && IsDigit(s[4])
      && IsDigit(s[6]) && IsDigit(s[7]) && IsDigit(s[8]) && IsDigit(s[9])
      && Value2(s[0], s[1]) == d.day
      && Value2(s[3], s[4]) == d.month
      && Value4(s[6], s[7], s[8], s[9]) == d.year
  {
    var s := FormatDayMonthYear(d);
    var y := d.year;
    SplitFourDigits(y);
    DigitRoundTrip(y / 1000);
    DigitRoundTrip(y / 100 % 10);
    DigitRoundTrip(y / 10 % 10);
    DigitRoundTrip(y % 10);
    DigitRoundTrip(d.month / 10);
    DigitRoundTrip(d.month % 10);
    DigitRoundTrip(d.day / 10);
    DigitRoundTrip(d.day % 10);
    assert Value2(s[0], s[1]) == d.day;
    assert Value2(s[3], s[4]) == d.month;
    assert Value4(s[6], s[7], s[8], s[9]) == y;
  }

  /** The `%d.%m.%Y` text holds only digits, dots and a sign. */
  lemma {:induction false} DecimalDigits(n: nat)
    ensures forall k :: 0 <= k < |Decimal(n)| ==> IsDigit(Decimal(n)[k])
  {
    if n >= 10 {
      DecimalDigits(n / 10);
    }
  }

  lemma DayMonthYearChars(d: Date)
    ensures forall k :: 0 <= k < |FormatDayMonthYear(d)| ==>
      IsDigit(FormatDayMonthYear(d)[k]) || FormatDayMonthYear(d)[k] == '.' || FormatDayMonthYear(d)[k] == '+'
  {
    DecimalDigits(d.year);
  }
}
