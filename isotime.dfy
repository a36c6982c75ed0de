/** Reading ISO 8601 combined date and time representations (section 4.3.2
    of ISO 8601:2004, in the extended format that Python's
    `datetime.fromisoformat` and `pd.to_datetime` accept) and writing a
    date-time the three ways the clients do: `strftime("%Y-%m-%d %H:%M:%S")`,
    `strftime("%Y-%m-%dT%H:%M:%S%z")` and `isoformat()`. */
module IsoTime {
  import opened Common
  import opened Calendar

  predicate IsDigit(c: char) { '0' <= c <= '9' }

  predicate AllDigits(s: string) { forall k :: 0 <= k < |s| ==> IsDigit(s[k]) }

  function DigitChar(n: int): (c: char)
    requires 0 <= n < 10
    ensures IsDigit(c)
  {
    ('0' as int + n) as char
  }

  function Pow10(n: nat): (p: int)
    ensures p >= 1
  {
    if n == 0 then 1 else 10 * Pow10(n - 1)
  }

  /** The value of a string of decimal digits, most significant first. */
  function Number(s: string): (v: int)
    requires AllDigits(s)
    ensures 0 <= v < Pow10(|s|)
    decreases |s|
  {
    if s == [] then 0
    else Number(s[..|s| - 1]) * 10 + (s[|s| - 1] as int - '0' as int)
  }

  /** The last `width` decimal digits of `n`, zero-padded on the left. */
  function Pad(n: int, width: nat): (s: string)
    requires 0 <= n
    ensures |s| == width && AllDigits(s)
  {
    if width == 0 then [] else Pad(n / 10, width - 1) + [DigitChar(n % 10)]
  }

  /** Zero padding is read back: for `n` below 10^width the padded digits
      have the value `n`. */
  lemma {:induction false} NumberPad(n: int, width: nat)
    requires 0 <= n < Pow10(width)
    ensures Number(Pad(n, width)) == n
  {
    if width > 0 {
      var s := Pad(n, width);
      assert s[..|s| - 1] == Pad(n / 10, width - 1);
      NumberPad(n / 10, width - 1);
    }
  }

  /** How many digits `s` starts with. */
  function DigitRun(s: string): (n: nat)
    ensures n <= |s| && AllDigits(s[..n])
    ensures n < |s| ==> !IsDigit(s[n])
  {
    if s == [] || !IsDigit(s[0]) then 0
    else
      var n := 1 + DigitRun(s[1..]);
      assert s[..n] == [s[0]] + s[1..][..n - 1];
      n
  }

  lemma {:induction false} DigitRunAppend(a: string, b: string)
    requires AllDigits(a)
    requires b == [] || !IsDigit(b[0])
    ensures DigitRun(a + b) == |a|
    decreases |a|
  {
    if a != [] {
      assert (a + b)[1..] == a[1..] + b;
      DigitRunAppend(a[1..], b);
    }
  }

  /** "YYYY-MM-DD", checked to be a real date. */
  function ParseDate(s: string): Option<Date>
  {
    if |s| == 10 && AllDigits(s[..4]) && s[4] == '-' && AllDigits(s[5..7]) && s[7] == '-' && AllDigits(s[8..]) then
      var d := Date(Number(s[..4]), Number(s[5..7]), Number(s[8..]));
      if ValidDate(d) then Some(d) else None
    else None
  }

  /** The clock of a time part "HH:MM[:SS[.f]]" (one to six fraction
      digits) and what follows it; field ranges are checked later. */
  datatype Clock = Clock(hour: int, minute: int, second: int, micro: int, rest: string)

  function ParseClock(c: string): Option<Clock>
  {
    if |c| < 5 || !AllDigits(c[..2]) || c[2] != ':' || !AllDigits(c[3..5]) then None
    else
      var r := c[5..];
      if |r| >= 3 && r[0] == ':' && AllDigits(r[1..3]) then
        var r2 := r[3..];
        if r2 != [] && r2[0] == '.' then
          var n := DigitRun(r2[1..]);
          if 1 <= n <= 6 then
            Some(Clock(Number(c[..2]), Number(c[3..5]), Number(r[1..3]),
                       Number(r2[1..][..n]) * Pow10(6 - n), r2[1..][n..]))
          else None
        else Some(Clock(Number(c[..2]), Number(c[3..5]), Number(r[1..3]), 0, r2))
      else Some(Clock(Number(c[..2]), Number(c[3..5]), 0, 0, r))
  }

  /** A UTC offset: none, "Z", "+HH:MM" or "+HHMM" (either sign), as
      minutes; the outer `None` rejects the text. */
  function ParseOffset(z: string): Option<Option<int>>
  {
    if z == [] then Some(None)
    else if z == "Z" then Some(Some(0))
    else if (z[0] == '+' || z[0] == '-') && (|z| == 5 || (|z| == 6 && z[3] == ':'))
            && AllDigits(z[1..3]) && AllDigits(z[|z| - 2..]) then
      var h := Number(z[1..3]);
      var m := Number(z[|z| - 2..]);
      if h < 24 && m < 60 then Some(Some(if z[0] == '-' then -(h * 60 + m) else h * 60 + m))
      else None
    else None
  }

  /** `datetime.fromisoformat` on "YYYY-MM-DD" optionally followed by 'T' or
      ' ', a clock and an offset; `None` where Python raises ValueError. */
  function ParseIso(s: string): (r: Option<DateTime>)
    ensures r.Some? ==> ValidDateTime(r.value)
  {
    if |s| < 10 then None
    else match ParseDate(s[..10])
      case None => None
      case Some(d) =>
        if |s| == 10 then Some(DateTime(d, 0, 0, 0, 0, None))
        else if s[10] != 'T' && s[10] != ' ' then None
        else ParseTimeAfterDate(d, s[11..])
  }

  /** The clock and offset that follow the date `d` and its separator. */
  function ParseTimeAfterDate(d: Date, rest: string): (r: Option<DateTime>)
    ensures r.Some? ==> ValidDateTime(r.value)
  {
    match ParseClock(rest)
    case None => None
    case Some(c) =>
      match ParseOffset(c.rest)
      case None => None
      case Some(off) =>
        var t := DateTime(d, c.hour, c.minute, c.second, c.micro, off);
        if ValidDateTime(t) then Some(t) else None
  }

  lemma ParseIsoAfterDate(d: Date, sep: char, rest: string)
    requires ValidDate(d) && (sep == 'T' || sep == ' ')
    ensures ParseIso(DatePart(d) + [sep] + rest) == ParseTimeAfterDate(d, rest)
  {
    var s := DatePart(d) + [sep] + rest;
    assert s[..10] == DatePart(d);
    assert s[10] == sep;
    assert s[11..] == rest;
    ParseDatePart(d);
  }

  /** "YYYY-MM-DD". */
  function DatePart(d: Date): string
    requires ValidDate(d)
  {
    Pad(d.year, 4) + "-" + Pad(d.month, 2) + "-" + Pad(d.day, 2)
  }

  /** "HH:MM:SS". */
  function ClockPart(t: DateTime): string
    requires ValidDateTime(t)
  {
    Pad(t.hour, 2) + ":" + Pad(t.minute, 2) + ":" + Pad(t.second, 2)
  }

  /** `strftime("%Y-%m-%d %H:%M:%S")`: the wall clock, offset and fraction
      dropped. */
  function FormatWall(t: DateTime): string
    requires ValidDateTime(t)
  {
    DatePart(t.date) + " " + ClockPart(t)
  }

  /** The sign and magnitude of an offset in minutes. */
  function OffsetSign(o: int): char { if o < 0 then '-' else '+' }

  function Abs(o: int): nat { if o < 0 then -o else o }

  /** `%z`: "" for a naive value, "+HHMM" or "-HHMM" otherwise. */
  function OffsetBasic(t: DateTime): string
    requires ValidDateTime(t)
  {
    match t.offset
    case None => ""
    case Some(o) => [OffsetSign(o)] + Pad(Abs(o) / 60, 2) + Pad(Abs(o) % 60, 2)
  }

  /** The offset as `isoformat` writes it: "" or "+HH:MM". */
  function OffsetExtended(t: DateTime): string
    requires ValidDateTime(t)
  {
    match t.offset
    case None => ""
    case Some(o) => [OffsetSign(o)] + Pad(Abs(o) / 60, 2) + ":" + Pad(Abs(o) % 60, 2)
  }

  /** `strftime("%Y-%m-%dT%H:%M:%S%z")`. */
  function FormatIsoBasic(t: DateTime): string
    requires ValidDateTime(t)
  {
    DatePart(t.date) + "T" + ClockPart(t) + OffsetBasic(t)
  }

  /** `datetime.isoformat()`: microseconds only when non-zero. */
  function IsoFormat(t: DateTime): string
    requires ValidDateTime(t)
  {
    DatePart(t.date) + "T" + ClockPart(t)
      + (if t.micro != 0 then "." + Pad(t.micro, 6) else "")
      + OffsetExtended(t)
  }

  lemma ParseDatePart(d: Date)
    requires ValidDate(d)
    ensures ParseDate(DatePart(d)) == Some(d)
  {
    var s := DatePart(d);
    assert s[..4] == Pad(d.year, 4);
    assert s[5..7] == Pad(d.month, 2);
    assert s[8..] == Pad(d.day, 2);
    NumberPad(d.year, 4);
    NumberPad(d.month, 2);
    NumberPad(d.day, 2);
  }

  /** A clock followed by text that does not start with '.' reads back as
      that clock, the text left over. */
  lemma ParseClockPart(t: DateTime, tail: string)
    requires ValidDateTime(t)
    requires tail == [] || tail[0] != '.'
    ensures ParseClock(ClockPart(t) + tail) == Some(Clock(t.hour, t.minute, t.second, 0, tail))
  {
    ParseClockAfterSeconds(t, tail);
  }

  /** The seconds field of a clock is followed by `r2`; what ParseClock
      does next depends on `r2` alone. */
  lemma ParseClockAfterSeconds(t: DateTime, r2: string)
    requires ValidDateTime(t)
    ensures ParseClock(ClockPart(t) + r2) ==
      if r2 != [] && r2[0] == '.' then
        var n := DigitRun(r2[1..]);
        if 1 <= n <= 6 then
          Some(Clock(t.hour, t.minute, t.second, Number(r2[1..][..n]) * Pow10(6 - n), r2[1..][n..]))
        else None
      else Some(Clock(t.hour, t.minute, t.second, 0, r2))
  {
    ClockFields(t.hour, t.minute, t.second, r2);
  }

  /** The three two-digit fields of a clock, then `r2`. */
  lemma ClockFields(h: int, m: int, sec: int, r2: string)
    requires 0 <= h < 24 && 0 <= m < 60 && 0 <= sec < 60
    ensures var c := Pad(h, 2) + ":" + Pad(m, 2) + ":" + Pad(sec, 2) + r2;
      && |c| >= 5 && AllDigits(c[..2]) && c[2] == ':' && AllDigits(c[3..5])
      && Number(c[..2]) == h && Number(c[3..5]) == m
      && var r := c[5..];
         |r| >= 3 && r[0] == ':' && AllDigits(r[1..3]) && Number(r[1..3]) == sec && r[3..] == r2
  {
    ClockText(Pad(h, 2), Pad(m, 2), Pad(sec, 2), r2);
    NumberPad(h, 2);
    NumberPad(m, 2);
    NumberPad(sec, 2);
  }

  /** A '.', six digits and text that does not start with a digit: the
      digit run is the six digits. */
  lemma FractionText(f: string, tail: string)
    requires |f| == 6 && AllDigits(f) && (tail == [] || !IsDigit(tail[0]))
    ensures var r2 := "." + f + tail;
      && r2 != [] && r2[0] == '.' && r2[1..] == f + tail && DigitRun(r2[1..]) == 6
      && r2[1..][..6] == f && r2[1..][6..] == tail
  {
    var r2 := "." + f + tail;
    assert r2[1..] == f + tail;
    DigitRunAppend(f, tail);
  }

  /** Where the fields of a sign, "hh", `sep` and "mm" sit. */
  lemma OffsetTextFields(sign: char, a: string, sep: string, b: string)
    requires |a| == 2 && |b| == 2 && (sep == "" || sep == ":")
    ensures var z := [sign] + a + sep + b;
      && |z| == 5 + |sep| && z[0] == sign && z[1..3] == a && z[|z| - 2..] == b
      && (sep == ":" ==> z[3] == ':')
  {
    var z := [sign] + a + sep + b;
    assert z[1..] == a + sep + b;
  }

  /** Where the fields of "aa:bb:pp" followed by `r2` sit. */
  lemma ClockText(a: string, b: string, p: string, r2: string)
    requires |a| == 2 && |b| == 2 && |p| == 2
    ensures var c := a + ":" + b + ":" + p + r2;
      && |c| >= 8 && c[..2] == a && c[2] == ':' && c[3..5] == b
      && c[5..][0] == ':' && c[5..][1..3] == p && c[5..][3..] == r2
  {
    var c := a + ":" + b + ":" + p + r2;
    assert c == a + [':'] + b + [':'] + (p + r2);
    Fields(a, ':', b, ':', p + r2);
    var r := c[5..];
    assert r == [':'] + (p + r2);
    assert r[1..] == p + r2;
  }

  /** Where the parts of `a x b y c` sit. */
  lemma Fields(a: string, x: char, b: string, y: char, c: string)
    ensures var s := a + [x] + b + [y] + c;
      && s[..|a|] == a && s[|a|] == x && s[|a| + 1..|a| + 1 + |b|] == b
      && s[|a| + 1 + |b|] == y && s[|a| + 2 + |b|..] == c
  {
    var s := a + [x] + b + [y] + c;
    assert s == a + ([x] + b + [y] + c);
    assert s[|a|..] == [x] + b + [y] + c;
    assert s[|a| + 1..] == b + [y] + c;
    assert s[|a| + 1 + |b|..] == [y] + c;
  }

  /** A clock with a six-digit fraction reads back with its microseconds. */
  lemma ParseClockFraction(t: DateTime, tail: string)
    requires ValidDateTime(t)
    requires tail == [] || !IsDigit(tail[0])
    ensures ParseClock(ClockPart(t) + ("." + Pad(t.micro, 6) + tail))
         == Some(Clock(t.hour, t.minute, t.second, t.micro, tail))
  {
    var f := Pad(t.micro, 6);
    var r2 := "." + f + tail;
    ParseClockAfterSeconds(t, r2);
    FractionText(f, tail);
    NumberPad(t.micro, 6);
    assert Pow10(0) == 1;
  }

  lemma ParseOffsetBasic(t: DateTime)
    requires ValidDateTime(t)
    ensures ParseOffset(OffsetBasic(t)) == Some(t.offset)
  {
    if t.offset.Some? {
      var o := t.offset.value;
      assert OffsetBasic(t) == [OffsetSign(o)] + Pad(Abs(o) / 60, 2) + "" + Pad(Abs(o) % 60, 2);
      ParseOffsetText(o, "");
    }
  }

  lemma ParseOffsetExtended(t: DateTime)
    requires ValidDateTime(t)
    ensures ParseOffset(OffsetExtended(t)) == Some(t.offset)
  {
    if t.offset.Some? {
      ParseOffsetText(t.offset.value, ":");
    }
  }

  /** An offset of less than a day written as sign, hours, an optional ':'
      and minutes reads back as itself. */
  lemma ParseOffsetText(o: int, sep: string)
    requires -1440 < o < 1440 && (sep == "" || sep == ":")
    ensures ParseOffset([OffsetSign(o)] + Pad(Abs(o) / 60, 2) + sep + Pad(Abs(o) % 60, 2)) == Some(Some(o))
  {
    var h, m := Abs(o) / 60, Abs(o) % 60;
    OffsetTextFields(OffsetSign(o), Pad(h, 2), sep, Pad(m, 2));
    NumberPad(h, 2);
    NumberPad(m, 2);
    assert h * 60 + m == Abs(o);
  }

  /** Re-reading the vendor wall-clock format gives back the wall clock to
      the second, as a naive value: the offset and the fraction are gone. */
  lemma ParseFormatWall(t: DateTime)
    requires ValidDateTime(t)
    ensures ParseIso(FormatWall(t)) == Some(NaiveSecond(t))
  {
    assert FormatWall(t) == DatePart(t.date) + [' '] + (ClockPart(t) + "");
    ParseIsoAfterDate(t.date, ' ', ClockPart(t) + "");
    ParseClockPart(t, "");
  }

  /** A wall-clock second written with `%Y-%m-%d %H:%M:%S` reads back as
      that second. */
  lemma ParseRenderedSecond(e: int)
    requires InRange(e)
    ensures ParseIso(FormatWall(AtSecond(e))) == Some(AtSecond(e))
  {
    ParseFormatWall(AtSecond(e));
  }

  /** Re-reading `strftime("%Y-%m-%dT%H:%M:%S%z")` gives back the date-time
      to the second, its offset kept. */
  lemma ParseFormatIsoBasic(t: DateTime)
    requires ValidDateTime(t)
    ensures ParseIso(FormatIsoBasic(t)) == Some(t.(micro := 0))
  {
    assert FormatIsoBasic(t) == DatePart(t.date) + ['T'] + (ClockPart(t) + OffsetBasic(t));
    ParseIsoAfterDate(t.date, 'T', ClockPart(t) + OffsetBasic(t));
    ParseClockPart(t, OffsetBasic(t));
    ParseOffsetBasic(t);
  }

  /** `isoformat()` is read back exactly, microseconds and offset included. */
  lemma ParseIsoFormat(t: DateTime)
    requires ValidDateTime(t)
    ensures ParseIso(IsoFormat(t)) == Some(t)
  {
    if t.micro != 0 {
      ParseIsoFraction(t);
    } else {
      ParseIsoWhole(t);
    }
  }

  lemma ParseIsoFraction(t: DateTime)
    requires ValidDateTime(t) && t.micro != 0
    ensures ParseIso(IsoFormat(t)) == Some(t)
  {
    ParseOffsetExtended(t);
    var rest := ClockPart(t) + ("." + Pad(t.micro, 6) + OffsetExtended(t));
    assert IsoFormat(t) == DatePart(t.date) + ['T'] + rest;
    ParseIsoAfterDate(t.date, 'T', rest);
    ParseClockFraction(t, OffsetExtended(t));
  }

  lemma ParseIsoWhole(t: DateTime)
    requires ValidDateTime(t) && t.micro == 0
    ensures ParseIso(IsoFormat(t)) == Some(t)
  {
    ParseOffsetExtended(t);
    var rest := ClockPart(t) + OffsetExtended(t);
    assert IsoFormat(t) == DatePart(t.date) + ['T'] + rest;
    ParseIsoAfterDate(t.date, 'T', rest);
    ParseClockPart(t, OffsetExtended(t));
  }

  /** A time of day "HH:MM" or "HH:MM:SS" as seconds after midnight, as
      `pd.to_datetime(s).time()` reads it. */
  function ParseTimeOfDay(s: string): (r: Option<int>)
    ensures r.Some? ==> 0 <= r.value < SecondsPerDay
  {
    match ParseClock(s)
    case Some(c) =>
      if c.rest == [] && c.micro == 0 && c.hour < 24 && c.minute < 60 && c.second < 60
      then Some(c.hour * 3600 + c.minute * 60 + c.second)
      else None
    case None => None
  }
}
