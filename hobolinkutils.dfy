/** The HoboLINK time formatter: an ISO 8601 date-time rewritten as the
    wall clock "YYYY-MM-DD HH:MM:SS" that the HoboLINK and LI-COR APIs take. */
module HoboLinkUtils {
  import opened Common
  import opened Calendar
  import opened IsoTime

  /** `time_formatter_hobolink`: `fromisoformat` then
      `strftime("%Y-%m-%d %H:%M:%S")`; `None` where parsing raises. */
  function TimeFormatterHobolink(dtStr: string): (r: Option<string>)
    ensures r.Some? <==> ParseIso(dtStr).Some?
  {
    match ParseIso(dtStr)
    case None => None
    case Some(t) => Some(FormatWall(t))
  }

  /** The output is year-month-day hour:minute:second, zero-padded, with
      '-', ' ' and ':' between the fields. */
  lemma FormatterShape(dtStr: string)
    requires TimeFormatterHobolink(dtStr).Some?
    ensures var r := TimeFormatterHobolink(dtStr).value;
      && |r| == 19
      && r[4] == '-' && r[7] == '-' && r[10] == ' ' && r[13] == ':' && r[16] == ':'
      && AllDigits(r[..4]) && AllDigits(r[5..7]) && AllDigits(r[8..10])
      && AllDigits(r[11..13]) && AllDigits(r[14..16]) && AllDigits(r[17..])
  {
    WallShape(ParseIso(dtStr).value);
  }

  /** The layout of `FormatWall(t)`, for any valid date-time. */
  lemma WallShape(t: DateTime)
    requires ValidDateTime(t)
    ensures var r := FormatWall(t);
      && |r| == 19
      && r[4] == '-' && r[7] == '-' && r[10] == ' ' && r[13] == ':' && r[16] == ':'
      && AllDigits(r[..4]) && AllDigits(r[5..7]) && AllDigits(r[8..10])
      && AllDigits(r[11..13]) && AllDigits(r[14..16]) && AllDigits(r[17..])
  {
    var date, clock := DatePart(t.date), ClockPart(t);
    Fields(Pad(t.date.year, 4), '-', Pad(t.date.month, 2), '-', Pad(t.date.day, 2));
    Fields(Pad(t.hour, 2), ':', Pad(t.minute, 2), ':', Pad(t.second, 2));
    var r := date + " " + clock;
    assert r[..10] == date && r[10] == ' ' && r[11..] == clock;
    assert r[..4] == date[..4] && r[5..7] == date[5..7] && r[8..10] == date[8..];
    assert r[11..13] == clock[..2] && r[14..16] == clock[3..5] && r[17..] == clock[6..];
  }

  /** Re-parsing the output gives back the input's wall-clock date and time
      to the second: the fields are copied, not converted to UTC, and the
      offset and the fractional second are dropped. */
  lemma FormatterReparse(dtStr: string)
    requires TimeFormatterHobolink(dtStr).Some?
    ensures ParseIso(TimeFormatterHobolink(dtStr).value) == Some(NaiveSecond(ParseIso(dtStr).value))
  {
    ParseFormatWall(ParseIso(dtStr).value);
  }

  /** Inputs that differ only in their offset or fractional second give the
      same output. */
  lemma FormatterIgnoresOffset(a: string, b: string)
    requires ParseIso(a).Some? && ParseIso(b).Some?
    requires NaiveSecond(ParseIso(a).value) == NaiveSecond(ParseIso(b).value)
    ensures TimeFormatterHobolink(a) == TimeFormatterHobolink(b)
  {
    var ta, tb := ParseIso(a).value, ParseIso(b).value;
    assert ta.date == tb.date && ta.hour == tb.hour && ta.minute == tb.minute && ta.second == tb.second;
  }

  /** Reformatting an already reformatted time changes nothing. */
  lemma FormatterIdempotent(dtStr: string)
    requires TimeFormatterHobolink(dtStr).Some?
    ensures TimeFormatterHobolink(TimeFormatterHobolink(dtStr).value) == TimeFormatterHobolink(dtStr)
  {
    var t := ParseIso(dtStr).value;
    ParseFormatWall(t);
    assert FormatWall(NaiveSecond(t)) == FormatWall(t);
  }
}
