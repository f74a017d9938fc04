/** The line formatter (`Results`): two text lines per date of a range. */
module Formatter {
  import opened Wrappers
  import opened Gregorian
  import opened IsoDate
  import opened Text
  import opened Config
  import opened DateUtils
  import opened Range

  /** The date as `DD.MM.YYYY`, a space and the weekday's full name. */
  function DayText(date: Date): string {
    FormatDayMonthYear(date) + " " + GetWeekDayFullName(date)
  }

  /** The day text padded with `lineLength` spaces and cut to `lineLength` characters. */
  function CutDayLine(date: Date, cfg: CalendarConfig): string {
    Take(DayText(date) + Repeat(' ', cfg.lineLength), cfg.lineLength)
  }

  /** The substring test that picks the week separator. */
  predicate MarksWeekBoundary(line: string) {
    Contains(line, "Sunday") || Contains(line, "Saturday") || Contains(line, "Monday")
  }

  /** On the first of a month the month's full name, otherwise nothing. */
  function MonthSuffix(date: Date): string {
    if date.day == 1 then GetMonthFullName(date) else ""
  }

  /** The separator line emitted before the day line of `date`. */
  function SeparatorLine(date: Date, cfg: CalendarConfig): string {
    (if MarksWeekBoundary(CutDayLine(date, cfg)) then cfg.weekLineSep else cfg.dayLineSep) + MonthSuffix(date)
  }

  /** The day line of `date`: the cut line, with the weekend marker after it on weekends. */
  function DayLine(date: Date, cfg: CalendarConfig): string {
    CutDayLine(date, cfg) + (if IsWeekend(date) then cfg.weekendLineMarker else "")
  }

  datatype Results = Results(preFormatted: seq<string>)

  /** The separator line and the day line of each date of `range`, in order. */
  function Lines(range: seq<Date>, cfg: CalendarConfig): seq<string> {
    Interleave(range, |range|, d => SeparatorLine(d, cfg), d => DayLine(d, cfg))
  }

  /**
    * Formats a range: for each date in order, its separator line and then its
    * day line.
    */
  method Init(dateRange: Range.DateRange, calendarConfig: CalendarConfig) returns (r: Results)
    ensures r.preFormatted == Lines(dateRange.range, calendarConfig)
  {
    var results: seq<string> := [];
    for k := 0 to |dateRange.range|
      invariant results == Interleave(dateRange.range, k, d => SeparatorLine(d, calendarConfig), d => DayLine(d, calendarConfig))
    {
      var separator, lineWithPadding := FormatDate(dateRange.range[k], calendarConfig);
      results := results + [separator];
      results := results + [lineWithPadding];
    }
    r := Results(results);
  }

  /** Line `2 * i` is the separator line and line `2 * i + 1` the day line of the `i`-th date. */
  lemma LinesAt(range: seq<Date>, cfg: CalendarConfig, i: nat)
    requires i < |range|
    ensures |Lines(range, cfg)| == 2 * |range|
    ensures Lines(range, cfg)[2 * i] == SeparatorLine(range[i], cfg)
    ensures Lines(range, cfg)[2 * i + 1] == DayLine(range[i], cfg)
  {
    InterleaveAt(range, |range|, d => SeparatorLine(d, cfg), d => DayLine(d, cfg), i);
  }

  /**
    * Formatting the range of two strings: two lines per date, and the lines at
    * `2 * i` and `2 * i + 1` belong to the date `i` days after the first one.
    */
  lemma FormattedRangeInOrder(from: string, to: string, f: Date, t: Date, cfg: CalendarConfig, i: nat)
    requires ParseIsoDate(from) == Some(f) && ParseIsoDate(to) == Some(t)
    requires RangeOf(from, to).Success?
    requires i < InclusiveLength(f, t)
    ensures |Lines(RangeOf(from, to).value.range, cfg)| == 2 * InclusiveLength(f, t)
    ensures Lines(RangeOf(from, to).value.range, cfg)[2 * i] == SeparatorLine(NthSucc(f, i), cfg)
    ensures Lines(RangeOf(from, to).value.range, cfg)[2 * i + 1] == DayLine(NthSucc(f, i), cfg)
  {
    var n := InclusiveLength(f, t);
    var range := RangeOf(from, to).value.range;
    assert range == DaysFrom(f, n);
    DaysFromAt(f, n);
    assert range[i] == NthSucc(f, i);
    LinesAt(range, cfg, i);
  }

  /** The two lines of one date, built step by step as the loop body of `Init` does. */
  method FormatDate(date: Date, calendarConfig: CalendarConfig) returns (separator: string, lineWithPadding: string)
    ensures separator == SeparatorLine(date, calendarConfig)
    ensures lineWithPadding == DayLine(date, calendarConfig)
  {
    var weekFullName := GetWeekDayFullName(date);
    var monthFullName := GetMonthFullName(date);
    var isWeekend := IsWeekend(date);

    var daySeparator := calendarConfig.dayLineSep;
    var weekSep := calendarConfig.weekLineSep;
    if date.day == 1 {
      weekSep := weekSep + monthFullName;
      daySeparator := daySeparator + monthFullName;
    }

    var dayStr := "";
    var padding := Repeat(' ', calendarConfig.lineLength);
    dayStr := dayStr + FormatDayMonthYear(date);
    dayStr := dayStr + " ";
    dayStr := dayStr + weekFullName;
    dayStr := dayStr + padding;
    assert dayStr == DayText(date) + padding;

    lineWithPadding := Take(dayStr, calendarConfig.lineLength);
    var shouldAddWeekendSep := Contains(lineWithPadding, "Sunday")
      || Contains(lineWithPadding, "Saturday")
      || Contains(lineWithPadding, "Monday");

    if isWeekend {
      lineWithPadding := lineWithPadding + calendarConfig.weekendLineMarker;
    }

    if shouldAddWeekendSep {
      separator := weekSep;
    } else {
      separator := daySeparator;
    }
  }

  /** The cut line has exactly `lineLength` characters: the day text, then spaces. */
  lemma CutDayLineShape(date: Date, cfg: CalendarConfig)
    ensures |CutDayLine(date, cfg)| == cfg.lineLength
    ensures forall k :: 0 <= k < cfg.lineLength ==>
      CutDayLine(date, cfg)[k] == if k < |DayText(date)| then DayText(date)[k] else ' '
  {
    var padded := DayText(date) + Repeat(' ', cfg.lineLength);
    assert CutDayLine(date, cfg) == padded[..cfg.lineLength];
  }

  /**
    * A day line is the cut line, `lineLength` characters long, followed on
    * weekends by the four-character marker and on other days by nothing.
    */
  lemma DayLineShape(date: Date, cfg: CalendarConfig)
    requires WellFormed(cfg)
    ensures |DayLine(date, cfg)| == cfg.lineLength + (if IsWeekend(date) then WeekendMarkerWidth else 0)
    ensures DayLine(date, cfg)[..cfg.lineLength] == CutDayLine(date, cfg)
    ensures IsWeekend(date) ==> DayLine(date, cfg)[cfg.lineLength..] == cfg.weekendLineMarker
    ensures !IsWeekend(date) ==> DayLine(date, cfg) == CutDayLine(date, cfg)
  {
    CutDayLineShape(date, cfg);
  }

  /**
    * A separator line is the week or the day separator, `lineLength` characters,
    * followed by the month's full name on the first of a month and by nothing
    * on other days.
    */
  lemma SeparatorShape(date: Date, cfg: CalendarConfig)
    requires WellFormed(cfg)
    ensures |SeparatorLine(date, cfg)| == cfg.lineLength + |MonthSuffix(date)|
    ensures SeparatorLine(date, cfg)[..cfg.lineLength]
      == if MarksWeekBoundary(CutDayLine(date, cfg)) then cfg.weekLineSep else cfg.dayLineSep
    ensures date.day == 1 ==> SeparatorLine(date, cfg)[cfg.lineLength..] == GetMonthFullName(date)
    ensures date.day != 1 ==> SeparatorLine(date, cfg) == cfg.dayLineSep || SeparatorLine(date, cfg) == cfg.weekLineSep
  {
  }

  predicate IsBoundaryDay(date: Date) {
    WeekdayOf(date) == Mon || WeekdayOf(date) == Sat || WeekdayOf(date) == Sun
  }

  /** The names of Tuesday to Friday contain no `S` and no `M`. */
  lemma NameHasNoBoundaryInitials(date: Date)
    requires !IsBoundaryDay(date)
    ensures forall k :: 0 <= k < |GetWeekDayFullName(date)| ==>
      GetWeekDayFullName(date)[k] != 'S' && GetWeekDayFullName(date)[k] != 'M'
  {
  }

  /** On a Tuesday to Friday the day text contains no `S` and no `M`. */
  lemma DayTextHasNoBoundaryInitials(date: Date)
    requires !IsBoundaryDay(date)
    ensures forall k :: 0 <= k < |DayText(date)| ==> DayText(date)[k] != 'S' && DayText(date)[k] != 'M'
  {
    var dmy := FormatDayMonthYear(date);
    var name := GetWeekDayFullName(date);
    var text := DayText(date);
    DayMonthYearChars(date);
    NameHasNoBoundaryInitials(date);
    assert text == dmy + " " + name;
    forall k | 0 <= k < |text|
      ensures text[k] != 'S' && text[k] != 'M'
    {
      if k < |dmy| {
        assert text[k] == dmy[k];
      } else if k > |dmy| {
        assert text[k] == name[k - |dmy| - 1];
      }
    }
  }

  /** On a Tuesday to Friday no character of the cut line is an `S` or an `M`. */
  lemma NoBoundaryInitials(date: Date, cfg: CalendarConfig)
    requires !IsBoundaryDay(date)
    ensures forall k :: 0 <= k < |CutDayLine(date, cfg)| ==>
      CutDayLine(date, cfg)[k] != 'S' && CutDayLine(date, cfg)[k] != 'M'
  {
    CutDayLineShape(date, cfg);
    DayTextHasNoBoundaryInitials(date);
  }

  /** Whatever the width, the week separator is only ever chosen for a Monday, Saturday or Sunday. */
  lemma WeekSeparatorOnlyOnBoundaryDays(date: Date, cfg: CalendarConfig)
    ensures MarksWeekBoundary(CutDayLine(date, cfg)) ==> IsBoundaryDay(date)
  {
    if !IsBoundaryDay(date) && MarksWeekBoundary(CutDayLine(date, cfg)) {
      var line := CutDayLine(date, cfg);
      NoBoundaryInitials(date, cfg);
      if Contains(line, "Sunday") {
        ContainsFirstChar(line, "Sunday");
      } else if Contains(line, "Saturday") {
        ContainsFirstChar(line, "Saturday");
      } else {
        ContainsFirstChar(line, "Monday");
      }
      assert false;
    }
  }

  /**
    * With lines of at least 19 characters (room for `DD.MM.YYYY Saturday`), the
    * week separator is chosen exactly for Mondays, Saturdays and Sundays.
    */
  lemma WeekSeparatorExactlyOnBoundaryDays(date: Date, cfg: CalendarConfig)
    requires cfg.lineLength >= 19 && date.year <= 9999
    ensures MarksWeekBoundary(CutDayLine(date, cfg)) <==> IsBoundaryDay(date)
  {
    WeekSeparatorOnlyOnBoundaryDays(date, cfg);
    if IsBoundaryDay(date) {
      var line := CutDayLine(date, cfg);
      var name := GetWeekDayFullName(date);
      var text := DayText(date);
      DayMonthYearLength(date);
      CutDayLineShape(date, cfg);
      assert |text| == 11 + |name| <= 19;
      assert line[11..11 + |name|] == name by {
        forall k | 0 <= k < |name|
          ensures line[11 + k] == name[k]
        {
          assert text[11 + k] == name[k];
        }
      }
      assert OccursAt(line, name, 11);
    }
  }

  /**
    * The range the program lists, 2023-11-11 to 2024-01-01, has 52 dates and
    * so, whatever the configuration, 104 lines.
    */
  lemma DemoListingLength(cfg: CalendarConfig)
    ensures RangeOf("2023-11-11", "2024-01-01").Success?
    ensures |RangeOf("2023-11-11", "2024-01-01").value.range| == 52
    ensures |Lines(RangeOf("2023-11-11", "2024-01-01").value.range, cfg)| == 104
  {
    DemoRangeLength();
    LinesAt(RangeOf("2023-11-11", "2024-01-01").value.range, cfg, 0);
  }

  /**
    * With the program's configuration every date within four-digit years is
    * preceded by a line of `=` exactly on Mondays, Saturdays and Sundays (and of
    * `-` otherwise), and its day line ends in `####` exactly on weekends.
    */
  lemma DemoConfigLines(date: Date)
    requires date.year <= 9999
    ensures var cfg := Config.Init(35, '-', '=', '#');
      && |SeparatorLine(date, cfg)| >= 35
      && (forall k :: 0 <= k < 35 ==> SeparatorLine(date, cfg)[k] == if IsBoundaryDay(date) then '=' else '-')
      && |DayLine(date, cfg)| == (if IsWeekend(date) then 39 else 35)
      && (IsWeekend(date) ==> DayLine(date, cfg)[35..] == "####")
  {
    var cfg := Config.Init(35, '-', '=', '#');
    WeekSeparatorExactlyOnBoundaryDays(date, cfg);
    SeparatorShape(date, cfg);
    DayLineShape(date, cfg);
    assert cfg.weekendLineMarker == "####";
  }
}
