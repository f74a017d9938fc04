# worklog_calendar in Dafny

A model of the calendar listing generator in `src/main.rs` of worklog_calendar.
The program reads an inclusive range of two `YYYY-MM-DD` dates and turns it into
fixed-width text lines. For every date it emits two lines:

- a separator line: the week separator or the day separator, and on the first
  of a month the month's English name after it;
- a day line: `DD.MM.YYYY`, a space and the weekday's English name, padded with
  spaces and cut to the configured width, with a four-character marker added
  on Saturdays and Sundays.

The chrono date library used by the source is replaced by a small proleptic
Gregorian calendar. The modules follow the parts of the program:

| file | module | models |
|---|---|---|
| `gregorian.dfy` | `Gregorian` | valid dates, leap years, day numbers (days since 0000-01-01), the successor date, days of the week |
| `iso_date.dfy` | `IsoDate` | reading `%Y-%m-%d` and rendering `%Y-%m-%d` and `%d.%m.%Y` |
| `text.dfy` | `Text` | `str::repeat`, `chars().take(n)`, `str::contains`, pushing lines in pairs |
| `config.dfy` | `Config` | `CalendarConfig` and `CalendarConfig::init` |
| `date_range.dfy` | `Range` | `DateRange` and `DateRange::init` |
| `date_utils.dfy` | `DateUtils` | the `DateUtils` name tables and the weekend test |
| `formatter.dfy` | `Formatter` | `Results` and `Results::init` |
| `wrappers.dfy` | `Wrappers` | `Option` and `Result` |

`CalendarConfig::init`, `DateUtils` and the calendar are pure, so they are
functions. `DateRange::init` and `Results::init` push into a vector in a loop,
so they are methods with loops. Each method is proved equal to a
specification function (`RangeOf`, `Lines`), and lemmas prove what those
functions promise.

A `to` before `from` is not simply an empty range. Only `to` one day before
`from` gives `diff == 0` and an empty range. Any earlier `to` makes
`diff` negative, and `try_into().unwrap()` panics. The model returns
`Failure(NegativeLength)` there. The other two panics of `DateRange::init`
become `Failure(UnparsableFrom)` and `Failure(UnparsableTo)`.

## Model

| member | source | states |
|---|---|---|
| `Config.Init` | src/main.rs:16-39 | the day and week separators are their characters repeated `line_length` times; the marker is its character repeated exactly 4 times whatever the width; the date pattern is `%Y-%m-%d`; the width is kept |
| `Text.Repeat` | src/main.rs:22-30 | `c` repeated `n` times has length `n` and every character is `c` |
| `Text.Take` | src/main.rs:148 | taking `n` characters gives a prefix of `s` of length `n`, or all of `s` when it is shorter |
| `IsoDate.ParseIsoDate` | src/main.rs:47-54 | a string parses only when it is the `%Y-%m-%d` rendering of the date it yields, with a four-digit year |
| `IsoDate.ParseFormatIso` | src/main.rs:47-54 | every date with a four-digit year renders to a well-shaped string that parses back to the same date |
| `IsoDate.DayMonthYearLength` | src/main.rs:143 | `%d.%m.%Y` is ten characters for four-digit years |
| `IsoDate.DayMonthYearFields` | src/main.rs:143 | for four-digit years `%d.%m.%Y` is two day digits, a dot, two month digits, a dot and four year digits, and these digit fields read back as the date's day, month and year |
| `IsoDate.DayMonthYearChars` | src/main.rs:143 | `%d.%m.%Y` holds only digits, dots and the sign of a long year |
| `Gregorian.SuccDayNumber` | src/main.rs:57 | the successor of a date has the next day number |
| `Gregorian.NthSuccDayNumber` | src/main.rs:56-57 | `n` successors later the day number is larger by exactly `n` |
| `Gregorian.BeforeIffDayNumberLess` | src/main.rs:56 | calendar order of dates is the order of their day numbers |
| `Gregorian.DayNumberInjective` | src/main.rs:56 | different dates have different day numbers |
| `Gregorian.SuccIsNext` | src/main.rs:57 | the successor comes after the date, with no date in between |
| `Gregorian.WeekdayOfSucc` | src/main.rs:67 | the day after a Monday is a Tuesday, and so on round to Sunday then Monday |
| `Gregorian.WeekdayPeriodic` | src/main.rs:67 | the day of the week repeats every seven days |
| `Range.Init` | src/main.rs:46-61 | building a range from two strings yields exactly `RangeOf(from, to)`: the first or second parse failure, a negative length, or the listed dates |
| `Range.Expand` | src/main.rs:55-60 | the loop lists `diff` dates from `from` on, one day apart, and fails on a negative `diff` |
| `Range.DaysFromAt` | src/main.rs:57 | the `i`-th listed date is `i` successors after the first |
| `Range.DaysFromDayNumbers` | src/main.rs:56-57 | the `i`-th listed date is `i` days after the first |
| `Range.DaysFromConsecutive` | src/main.rs:57-59 | each listed date is the calendar successor of the one before it |
| `Range.DaysFromAscending` | src/main.rs:57-59 | the listed dates are strictly ascending, so none repeats |
| `Range.BetweenEndpoints` | src/main.rs:55-60 | for `from` not after `to`, the range succeeds, has days between plus one dates, starts at `from` and ends at `to` |
| `Range.RangeEndpoints` | src/main.rs:46-60 | the same for the two strings that parse to `from` and `to` |
| `Range.RangeMembers` | src/main.rs:46-60 | a date is in a successful range exactly when it lies between `from` and `to` inclusive |
| `Range.RangeFailure` | src/main.rs:47-57 | each failure happens exactly in its case: `from` does not parse; `from` parses and `to` does not; both parse and `to` is two or more days before `from` |
| `Range.RangeEmptyForPredecessor` | src/main.rs:56-57 | `to` the day before `from` gives the empty range, not a failure |
| `Range.TenDaysOfNovember2023` | src/main.rs:192-205 | 2023-11-11 to 2023-11-20 gives ten dates and holds both endpoints |
| `Range.DemoRangeLength` | src/main.rs:173 | 2023-11-11 to 2024-01-01 gives 52 dates |
| `DateUtils.MonthFromNumber` | src/main.rs:70-73 | the month lookup succeeds exactly for 1 to 12 and returns the month with that number |
| `DateUtils.GetMonthShortName` | src/main.rs:69-74 | the month of a date is the month with the date's month number |
| `DateUtils.GetWeekDayShortName` | src/main.rs:66-68 | the date's day of the week; its contract is stated by `Gregorian.WeekdayOfSucc`, `Gregorian.WeekdayPeriodic` and the 2023-11-21 anchor in `DateUtils.November21st2023` |
| `DateUtils.GetMonthFullName` | src/main.rs:75-77 | the English name of the date's month; its contract is stated by `DateUtils.NamesDistinct` (same name exactly for the same month) and `DateUtils.November21st2023` |
| `DateUtils.GetWeekDayFullName` | src/main.rs:78-89 | the total table Monday..Sunday; its contract is stated by `DateUtils.NamesDistinct` (same name exactly for the same weekday), `Formatter.NameHasNoBoundaryInitials` and `DateUtils.November21st2023` |
| `DateUtils.IsWeekend` | src/main.rs:96-105 | the if/else chain on Saturday and Sunday; its contract is stated by `DateUtils.WeekendPairs` (true exactly on Saturday or Sunday) |
| `DateUtils.NamesDistinct` | src/main.rs:75-89 | two dates have the same weekday name exactly when they fall on the same weekday, and the same month name exactly when they are in the same month |
| `DateUtils.WeekendPairs` | src/main.rs:96-105 | a date is a weekend day exactly when it is a Saturday or a Sunday; two weekend days in a row start exactly on Saturday |
| `DateUtils.WeekendPeriodic` | src/main.rs:96-105 | whether a date is a weekend day repeats every seven days |
| `DateUtils.November21st2023` | src/main.rs:207-234 | 2023-11-21 is `Tue`, "Tuesday", `November` and "November" |
| `DateUtils.WeekendOfNovember25th2023` | src/main.rs:236-251 | 2023-11-24 is not a weekend day; 2023-11-25 and 2023-11-26 are |
| `Text.Contains` | src/main.rs:150-152 | `w` occurs somewhere in `s` as a contiguous substring; its contract is stated by `Text.ContainsFirstChar` and used in `Formatter.WeekSeparatorOnlyOnBoundaryDays` and `Formatter.WeekSeparatorExactlyOnBoundaryDays` |
| `Text.ContainsFirstChar` | src/main.rs:150-152 | a text containing a non-empty word contains the word's first character |
| `Text.Interleave` | src/main.rs:158-163 | pushing two lines for each of `k` items gives `2 * k` lines |
| `Text.InterleaveAt` | src/main.rs:158-163 | line `2 * i` is the first line and line `2 * i + 1` the second line of item `i` |
| `Formatter.Init` | src/main.rs:122-168 | the loop's output is exactly `Lines(range, config)`: for each date in order, its separator line and then its day line |
| `Formatter.FormatDate` | src/main.rs:125-163 | the loop body, built step by step, pushes exactly `SeparatorLine(date)` and `DayLine(date)` |
| `Formatter.LinesAt` | src/main.rs:123-167 | there are two lines per date; line `2 * i` is the separator line and line `2 * i + 1` the day line of the `i`-th date |
| `Formatter.FormattedRangeInOrder` | src/main.rs:122-168 | formatting the range `DateRange::init` builds (src/main.rs:46-60) from two parsed strings gives two lines per day between the endpoints, and lines `2 * i` and `2 * i + 1` belong to the date `i` days after `from` |
| `Formatter.CutDayLineShape` | src/main.rs:141-148 | the cut line has exactly `line_length` characters: the day text where it reaches, spaces after it |
| `Formatter.DayLineShape` | src/main.rs:148-156 | a day line is the cut line followed by the marker on weekends and by nothing otherwise, so it is `line_length + 4` or `line_length` long |
| `Formatter.SeparatorShape` | src/main.rs:130-162 | a separator line is the week separator if the cut line contains "Sunday", "Saturday" or "Monday", the day separator otherwise, then the month's name on the first of a month and nothing on other days |
| `Formatter.DayTextHasNoBoundaryInitials` | src/main.rs:143-145 | on Tuesday to Friday the date and weekday text has no `S` and no `M` |
| `Formatter.NoBoundaryInitials` | src/main.rs:148 | on Tuesday to Friday the cut line has no `S` and no `M` |
| `Formatter.WeekSeparatorOnlyOnBoundaryDays` | src/main.rs:150-161 | at any width, the week separator is chosen only for Mondays, Saturdays and Sundays |
| `Formatter.WeekSeparatorExactlyOnBoundaryDays` | src/main.rs:150-161 | with lines of at least 19 characters and four-digit years, the week separator is chosen exactly for Mondays, Saturdays and Sundays |
| `Formatter.DemoListingLength` | src/main.rs:172-174 | the program's listing, 2023-11-11 to 2024-01-01, has 104 lines at any configuration |
| `Formatter.DemoConfigLines` | src/main.rs:172-174 | with the program's configuration (35, `-`, `=`, `#`), a date's separator line starts with 35 `=` exactly on Mondays, Saturdays and Sundays and with 35 `-` otherwise; its day line is 39 characters ending in `####` on weekends and 35 characters otherwise |

## Left out

- `main` (src/main.rs:171-181) is left out: the file write, the console messages and the `join("\n")` of the lines. `Formatter.DemoListingLength` and `Formatter.DemoConfigLines` state what it would write.
- chrono's `parse_from_str` is more lenient than the model. It also accepts single-digit month and day fields, one- to three-digit years (so "23-11-11" is year 23), and signed years of any length. `IsoDate.ParseIsoDate` accepts only the ten-character, zero-padded form, so such inputs give `UnparsableFrom` or `UnparsableTo` here. An unsigned year of five or more digits is rejected by both.
- Range.Init: requires `config.dateFormat == "%Y-%m-%d"`, the only pattern `CalendarConfig::init` stores. chrono's general format-string engine is not modelled.
- Years before year 0 are not modelled, because the four-digit parser never yields one. chrono's upper year limit is not modelled either: years are unbounded.
- Panics are modelled as `Failure` results of `Range.Init`. The `Month::try_from` panic (src/main.rs:72) and the `usize::try_from(u8)` unwraps (src/main.rs:24, 28, 141) cannot happen. The `Date` subset type and the `U8` type rule them out.
- Ownership is not modelled: clones, borrows and `Results::init` consuming the range by value. Strings and vectors are values, and `push`/`push_str` are concatenation.
- `chars().take(n)` is a sequence prefix (`Text.Take`). This is exact because every character produced is ASCII.
- Commented-out code (src/main.rs:90-95, 108-116, 128) and the `Debug` derives are left out.
- The `#[test]` functions (src/main.rs:183-251) are not run. Their assertions are lemmas: `Range.TenDaysOfNovember2023`, `DateUtils.November21st2023`, `DateUtils.WeekendOfNovember25th2023`.
