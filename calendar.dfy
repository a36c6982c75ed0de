/** The proleptic Gregorian calendar of Python's `datetime`: dates of years
    1..9999 numbered by days since 0001-01-01 (a Monday), and date-times
    numbered by wall-clock seconds since 0001-01-01 00:00:00. */
module Calendar {
  import opened Common

  predicate IsLeap(y: int) { y % 4 == 0 && (y % 100 != 0 || y % 400 == 0) }

  function YearDays(y: int): int { if IsLeap(y) then 366 else 365 }

  function DaysInMonth(y: int, m: int): int
    requires 1 <= m <= 12
  {
    if m == 2 then (if IsLeap(y) then 29 else 28)
    else if m == 4 || m == 6 || m == 9 || m == 11 then 30
    else 31
  }

  /** Days of year `y` before the first of month `m`; month 13 stands for
      the end of the year. */
  function DaysBeforeMonth(y: int, m: int): int
    requires 1 <= m <= 13
  {
    [0, 31, 59, 90, 120, 151, 181, 212, 243, 273, 304, 334, 365][m - 1]
      + (if m > 2 && IsLeap(y) then 1 else 0)
  }

  lemma MonthStep(y: int, m: int)
    requires 1 <= m <= 12
    ensures DaysBeforeMonth(y, m + 1) == DaysBeforeMonth(y, m) + DaysInMonth(y, m)
    ensures DaysBeforeMonth(y, 13) == YearDays(y)
    ensures 0 <= DaysBeforeMonth(y, m) && DaysBeforeMonth(y, m + 1) <= YearDays(y)
  {
  }

  /** Days from 0001-01-01 to the first of January of year `y`. */
  function DaysBeforeYear(y: int): int
  {
    var k := y - 1;
    365 * k + k / 4 - k / 100 + k / 400
  }

  lemma DivStep(y: int)
    ensures y / 4 == (y - 1) / 4 + (if y % 4 == 0 then 1 else 0)
    ensures y / 100 == (y - 1) / 100 + (if y % 100 == 0 then 1 else 0)
    ensures y / 400 == (y - 1) / 400 + (if y % 400 == 0 then 1 else 0)
  {
  }

  lemma YearStep(y: int)
    ensures DaysBeforeYear(y + 1) == DaysBeforeYear(y) + YearDays(y)
  {
    DivStep(y);
    Multiples(y);
    assert DaysBeforeYear(y + 1) == 365 * y + y / 4 - y / 100 + y / 400;
    assert DaysBeforeYear(y) == 365 * (y - 1) + (y - 1) / 4 - (y - 1) / 100 + (y - 1) / 400;
  }

  lemma Multiples(y: int)
    ensures y % 400 == 0 ==> y % 100 == 0
    ensures y % 100 == 0 ==> y % 4 == 0
  {
    if y % 400 == 0 {
      var q := y / 400;
      assert y == 100 * (4 * q);
    }
    if y % 100 == 0 {
      var q := y / 100;
      assert y == 4 * (25 * q);
    }
  }

  lemma {:induction false} YearsIncrease(a: int, b: int)
    requires a <= b
    ensures DaysBeforeYear(a) + 365 * (b - a) <= DaysBeforeYear(b)
    decreases b - a
  {
    if a < b {
      YearsIncrease(a, b - 1);
      YearStep(b - 1);
    }
  }

  /** One past the last day number Python's `date` can hold (10000-01-01). */
  const DayLimit: int := 3652059

  lemma DayLimitYear()
    ensures DayLimit == DaysBeforeYear(10000)
  {
  }

  datatype Date = Date(year: int, month: int, day: int)

  predicate ValidDate(d: Date)
  {
    1 <= d.year <= 9999 && 1 <= d.month <= 12 && 1 <= d.day <= DaysInMonth(d.year, d.month)
  }

  /** The day number of a date: days since 0001-01-01. */
  function ToDays(d: Date): (n: int)
    requires ValidDate(d)
    ensures 0 <= n < DayLimit
  {
    YearsIncrease(1, d.year);
    YearsIncrease(d.year + 1, 10000);
    DayLimitYear();
    YearStep(d.year);
    MonthStep(d.year, d.month);
    DaysBeforeYear(d.year) + DaysBeforeMonth(d.year, d.month) + d.day - 1
  }

  function YearFrom(n: int, y: int): (r: int)
    requires DaysBeforeYear(y) <= n
    ensures y <= r && DaysBeforeYear(r) <= n < DaysBeforeYear(r + 1)
    decreases n - DaysBeforeYear(y)
  {
    YearStep(y);
    if n < DaysBeforeYear(y + 1) then y else YearFrom(n, y + 1)
  }

  function MonthFrom(doy: int, y: int, m: int): (r: int)
    requires 1 <= m <= 12 && DaysBeforeMonth(y, m) <= doy < YearDays(y)
    ensures m <= r <= 12 && DaysBeforeMonth(y, r) <= doy < DaysBeforeMonth(y, r + 1)
    decreases 12 - m
  {
    MonthStep(y, m);
    if m == 12 || doy < DaysBeforeMonth(y, m + 1) then m else MonthFrom(doy, y, m + 1)
  }

  /** The date of a day number. */
  function FromDays(n: int): (d: Date)
    requires 0 <= n < DayLimit
    ensures ValidDate(d) && ToDays(d) == n
  {
    DayLimitYear();
    var y := YearFrom(n, 1);
    if y >= 10000 then YearsIncrease(10000, y); assert false; Date(1, 1, 1)
    else
      YearStep(y);
      var m := MonthFrom(n - DaysBeforeYear(y), y, 1);
      MonthStep(y, m);
      Date(y, m, n - DaysBeforeYear(y) - DaysBeforeMonth(y, m) + 1)
  }

  lemma YearUnique(n: int, a: int, b: int)
    requires DaysBeforeYear(a) <= n < DaysBeforeYear(a + 1)
    requires DaysBeforeYear(b) <= n < DaysBeforeYear(b + 1)
    ensures a == b
  {
    if a < b { YearsIncrease(a + 1, b); }
    if b < a { YearsIncrease(b + 1, a); }
  }

  lemma MonthUnique(y: int, doy: int, a: int, b: int)
    requires 1 <= a <= 12 && 1 <= b <= 12
    requires DaysBeforeMonth(y, a) <= doy < DaysBeforeMonth(y, a + 1)
    requires DaysBeforeMonth(y, b) <= doy < DaysBeforeMonth(y, b + 1)
    ensures a == b
  {
  }

  /** A date's day number lies within its year and within its month. */
  lemma DateBracket(d: Date)
    requires ValidDate(d)
    ensures DaysBeforeYear(d.year) <= ToDays(d) < DaysBeforeYear(d.year + 1)
    ensures DaysBeforeMonth(d.year, d.month) <= ToDays(d) - DaysBeforeYear(d.year) < DaysBeforeMonth(d.year, d.month + 1)
    ensures d.day == ToDays(d) - DaysBeforeYear(d.year) - DaysBeforeMonth(d.year, d.month) + 1
  {
    YearStep(d.year);
    MonthStep(d.year, d.month);
  }

  /** Day numbers name dates one to one: numbering a date and reading the
      number back gives the same date. */
  lemma FromToDays(d: Date)
    requires ValidDate(d)
    ensures FromDays(ToDays(d)) == d
  {
    var n := ToDays(d);
    var e := FromDays(n);
    DateBracket(d);
    DateBracket(e);
    YearUnique(n, d.year, e.year);
    MonthUnique(d.year, n - DaysBeforeYear(d.year), d.month, e.month);
  }

  /** Every month has at least 28 days: at least that many per month lie
      before month `m` and after it. */
  lemma MonthSlack(y: int, m: int)
    requires 1 <= m <= 12
    ensures 28 * (m - 1) <= DaysBeforeMonth(y, m)
    ensures DaysBeforeMonth(y, m + 1) + 28 * (12 - m) <= YearDays(y)
  {
  }

  /** The same month of a later year starts more than 300 days later. */
  lemma SameMonthLater(a: Date, b: Date)
    requires ValidDate(a) && ValidDate(b) && a.month == b.month && a.year < b.year
    ensures ToDays(a) + 300 < ToDays(b)
  {
    MonthStep(a.year, a.month);
    MonthSlack(a.year, a.month);
    MonthSlack(b.year, b.month);
    YearStep(a.year);
    YearsIncrease(a.year + 1, b.year);
  }

  /** A date whose month number is `month` lies in that month of `year` or
      more than 300 days away from it. */
  lemma SameMonthNumber(e: Date, year: int, month: int)
    requires ValidDate(e) && 1 <= year <= 9999 && 1 <= month <= 12 && e.month == month
    ensures var first, last := ToDays(Date(year, month, 1)), ToDays(Date(year, month, DaysInMonth(year, month)));
      ToDays(e) + 300 < first || first <= ToDays(e) <= last || last + 300 < ToDays(e)
  {
    if e.year < year {
      SameMonthLater(e, Date(year, month, 1));
    } else if e.year > year {
      SameMonthLater(Date(year, month, DaysInMonth(year, month)), e);
    }
  }

  /** Python's `date.weekday()`: 0 is Monday, 6 is Sunday. */
  function Weekday(n: int): int { n % 7 }

  /** A date-time with microseconds and an optional UTC offset in minutes
      (`None` for a naive value). */
  datatype DateTime = DateTime(date: Date, hour: int, minute: int, second: int, micro: int, offset: Option<int>)

  predicate ValidDateTime(t: DateTime)
  {
    && ValidDate(t.date)
    && 0 <= t.hour < 24 && 0 <= t.minute < 60 && 0 <= t.second < 60
    && 0 <= t.micro < 1000000
    && (t.offset.Some? ==> -1440 < t.offset.value < 1440)
  }

  const SecondsPerDay: int := 86400

  lemma DayDiv(d: int, x: int)
    requires 0 <= x < SecondsPerDay
    ensures (d * SecondsPerDay + x) / SecondsPerDay == d
    ensures (d * SecondsPerDay + x) % SecondsPerDay == x
  {
  }

  /** One past the last wall-clock second Python's `datetime` can hold:
      `DayLimit * SecondsPerDay`. */
  const SecondLimit: int := 315537897600

  /** The wall-clock reading of a date-time in whole seconds since
      0001-01-01 00:00:00, ignoring microseconds and offset. */
  function WallSeconds(t: DateTime): (s: int)
    requires ValidDateTime(t)
    ensures 0 <= s < SecondLimit
    ensures s % SecondsPerDay == t.hour * 3600 + t.minute * 60 + t.second
  {
    DayDiv(ToDays(t.date), t.hour * 3600 + t.minute * 60 + t.second);
    ToDays(t.date) * SecondsPerDay + t.hour * 3600 + t.minute * 60 + t.second
  }

  lemma SecondSplit(s: int)
    requires 0 <= s < SecondLimit
    ensures 0 <= s / SecondsPerDay < DayLimit
    ensures var sod := s % SecondsPerDay;
      && 0 <= sod / 3600 < 24 && 0 <= sod % 3600 / 60 < 60
      && s == s / SecondsPerDay * SecondsPerDay + sod / 3600 * 3600 + sod % 3600 / 60 * 60 + sod % 60
  {
    var sod := s % SecondsPerDay;
    assert s == s / SecondsPerDay * SecondsPerDay + sod;
    assert sod == sod / 3600 * 3600 + sod % 3600;
    assert sod % 3600 == sod % 3600 / 60 * 60 + sod % 3600 % 60;
    assert sod % 3600 % 60 == sod % 60;
  }

  /** The naive date-time whose wall clock reads `s` seconds, or `None`
      when that falls outside years 1..9999 (Python's OverflowError). */
  function FromWallSeconds(s: int): (r: Option<DateTime>)
    ensures r.Some? <==> 0 <= s < SecondLimit
    ensures r.Some? ==> ValidDateTime(r.value) && WallSeconds(r.value) == s
    ensures r.Some? ==> r.value.micro == 0 && r.value.offset == None
  {
    if 0 <= s < SecondLimit then
      var sod := s % SecondsPerDay;
      SecondSplit(s);
      Some(DateTime(FromDays(s / SecondsPerDay), sod / 3600, sod % 3600 / 60, sod % 60, 0, None))
    else None
  }

  /** `t` with its fractional second and its offset dropped. */
  function NaiveSecond(t: DateTime): DateTime
  {
    t.(micro := 0, offset := None)
  }

  /** A wall-clock second Python's `datetime` can hold. */
  predicate InRange(s: int) { 0 <= s < SecondLimit }

  /** The naive date-time at wall-clock second `s`. */
  function AtSecond(s: int): (t: DateTime)
    requires InRange(s)
    ensures ValidDateTime(t) && WallSeconds(t) == s && t == NaiveSecond(t)
  {
    FromWallSeconds(s).value
  }

  /** Reading a date-time's wall clock back gives the date-time to the
      second: the naive value, with microseconds and offset dropped. */
  lemma FromWallSecondsOf(t: DateTime)
    requires ValidDateTime(t)
    ensures FromWallSeconds(WallSeconds(t)) == Some(NaiveSecond(t))
  {
    var u := FromWallSeconds(WallSeconds(t)).value;
    WallSecondsInjective(u, t);
  }

  /** Two date-times with the same wall-clock second agree on their date
      and their clock. */
  lemma WallSecondsInjective(u: DateTime, t: DateTime)
    requires ValidDateTime(u) && ValidDateTime(t) && WallSeconds(u) == WallSeconds(t)
    ensures u.date == t.date && u.hour == t.hour && u.minute == t.minute && u.second == t.second
  {
    var du, dt := ToDays(u.date), ToDays(t.date);
    assert WallSeconds(u) == du * SecondsPerDay + u.hour * 3600 + u.minute * 60 + u.second;
    assert WallSeconds(t) == dt * SecondsPerDay + t.hour * 3600 + t.minute * 60 + t.second;
    SecondsOfParts(du, u.hour, u.minute, u.second);
    SecondsOfParts(dt, t.hour, t.minute, t.second);
    ToDaysInjective(u.date, t.date);
  }

  /** Distinct valid dates have distinct day numbers. */
  lemma ToDaysInjective(a: Date, b: Date)
    requires ValidDate(a) && ValidDate(b) && ToDays(a) == ToDays(b)
    ensures a == b
  {
    FromToDays(a);
    FromToDays(b);
  }

  /** Dividing `d` days and a clock reading, in seconds, back into its parts. */
  lemma SecondsOfParts(d: int, h: int, m: int, sec: int)
    requires 0 <= h < 24 && 0 <= m < 60 && 0 <= sec < 60
    ensures var s := d * SecondsPerDay + h * 3600 + m * 60 + sec;
      && s / SecondsPerDay == d && s % SecondsPerDay / 3600 == h
      && s % SecondsPerDay % 3600 / 60 == m && s % SecondsPerDay % 60 == sec
  {
    DayDiv(d, h * 3600 + m * 60 + sec);
    ClockDiv(h, m, sec);
  }

  lemma ClockDiv(h: int, m: int, sec: int)
    requires 0 <= h < 24 && 0 <= m < 60 && 0 <= sec < 60
    ensures var sod := h * 3600 + m * 60 + sec;
      sod / 3600 == h && sod % 3600 / 60 == m && sod % 60 == sec
  {
    var sod := h * 3600 + m * 60 + sec;
    assert sod % 3600 == m * 60 + sec;
  }

  function OffsetMinutes(t: DateTime): int
  {
    match t.offset
    case None => 0
    case Some(o) => o
  }

  /** The instant a date-time names, in microseconds: its wall clock less
      its UTC offset (a naive value is read as if at offset zero). */
  function AbsMicros(t: DateTime): int
    requires ValidDateTime(t)
  {
    (WallSeconds(t) - OffsetMinutes(t) * 60) * 1000000 + t.micro
  }
}
