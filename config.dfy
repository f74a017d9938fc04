/** The formatting parameters of the calendar listing (`CalendarConfig`). */
module Config {
  import opened Text
  import IsoDate

  /** The source stores the width as an unsigned byte. */
  type U8 = n: int | 0 <= n < 256

  /** The weekend marker is always this many copies of its character. */
  const WeekendMarkerWidth: nat := 4

  datatype CalendarConfig = CalendarConfig(
    dateFormat: string,
    lineLength: U8,
    weekendLineMarker: string,
    weekLineSep: string,
    dayLineSep: string)

  /** Each separator line is `c` repeated across the width. */
  predicate IsRun(s: string, c: char, n: nat) {
    |s| == n && forall i :: 0 <= i < |s| ==> s[i] == c
  }

  /** The shape every configuration built by `Init` has. */
  predicate WellFormed(cfg: CalendarConfig) {
    && cfg.dateFormat == IsoDate.IsoFormat
    && |cfg.dayLineSep| == cfg.lineLength
    && |cfg.weekLineSep| == cfg.lineLength
    && |cfg.weekendLineMarker| == WeekendMarkerWidth
  }

  /**
    * Builds the configuration: the two separator lines are their characters
    * repeated `lineLength` times, the weekend marker is its character repeated
    * four times whatever the width, and the date pattern is `%Y-%m-%d`.
    */
  function Init(lineLength: U8, daySepChar: char, weekSepChar: char, weekendMarker: char): (cfg: CalendarConfig)
    ensures cfg.lineLength == lineLength
    ensures cfg.dateFormat == IsoDate.IsoFormat
    ensures IsRun(cfg.dayLineSep, daySepChar, lineLength)
    ensures IsRun(cfg.weekLineSep, weekSepChar, lineLength)
    ensures IsRun(cfg.weekendLineMarker, weekendMarker, WeekendMarkerWidth)
    ensures WellFormed(cfg)
  {
    var daySepString := Repeat(daySepChar, lineLength);
    var weekSepString := Repeat(weekSepChar, lineLength);
    var weekendLineMarker := Repeat(weekendMarker, WeekendMarkerWidth);
    CalendarConfig(IsoDate.IsoFormat, lineLength, weekendLineMarker, weekSepString, daySepString)
  }
}
