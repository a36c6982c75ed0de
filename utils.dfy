/** The shared helpers: the time-of-day window filter and the calendar
    weeks of a month. */
module Utils {
  import opened Common
  import opened Calendar
  import opened IsoTime

  // ---------------------------------------------------------------------
  // extract_time_period
  // ---------------------------------------------------------------------

  /** A record's time of day in seconds after midnight; the date is ignored. */
  function TimeOfDay(r: Record): (t: int)
    ensures 0 <= t < SecondsPerDay
  {
    r.timestamp % SecondsPerDay
  }

  /** Moving a row by whole days does not change its time of day. */
  lemma TimeOfDayIgnoresDate(r: Record, days: int)
    ensures TimeOfDay(r.(timestamp := r.timestamp + days * SecondsPerDay)) == TimeOfDay(r)
  {
    var q := r.timestamp / SecondsPerDay;
    assert r.timestamp + days * SecondsPerDay == (q + days) * SecondsPerDay + TimeOfDay(r);
    DayDiv(q + days, TimeOfDay(r));
  }

  /** The rows whose time of day lies in `[lo, hi]`, in their order. */
  function InWindow(data: seq<Record>, lo: int, hi: int): seq<Record>
  {
    if data == [] then []
    else (if lo <= TimeOfDay(data[0]) <= hi then [data[0]] else []) + InWindow(data[1..], lo, hi)
  }

  /** `extract_time_period(data, start_time, end_time)`: both bounds are read
      as times of day; a bound that does not read fails with ValueError. */
  function ExtractTimePeriod(data: seq<Record>, startTime: string, endTime: string): (r: Result<seq<Record>>)
    ensures r.Failure? <==> ParseTimeOfDay(startTime).None? || ParseTimeOfDay(endTime).None?
    ensures r.Failure? ==> r.error == ParseError
  {
    match (ParseTimeOfDay(startTime), ParseTimeOfDay(endTime))
    case (Some(lo), Some(hi)) => Success(InWindow(data, lo, hi))
    case _ => Failure(ParseError)
  }

  /** A row is kept exactly when its time of day is at or after the start
      and at or before the end. */
  lemma {:induction false} InWindowMembers(data: seq<Record>, lo: int, hi: int)
    ensures forall r :: r in InWindow(data, lo, hi) <==> r in data && lo <= TimeOfDay(r) <= hi
    decreases |data|
  {
    if data != [] {
      InWindowMembers(data[1..], lo, hi);
      assert data == [data[0]] + data[1..];
    }
  }

  /** Filtering a concatenation filters each part: the order of the rows is
      kept. */
  lemma {:induction false} InWindowConcat(a: seq<Record>, b: seq<Record>, lo: int, hi: int)
    ensures InWindow(a + b, lo, hi) == InWindow(a, lo, hi) + InWindow(b, lo, hi)
    decreases |a|
  {
    if a == [] {
      assert a + b == b;
    } else {
      var x, rest := a[0], a[1..];
      assert a == [x] + rest;
      AppendAssoc([x], rest, b);
      InWindowCons(x, rest + b, lo, hi);
      InWindowCons(x, rest, lo, hi);
      InWindowConcat(rest, b, lo, hi);
      AppendAssoc(if lo <= TimeOfDay(x) <= hi then [x] else [], InWindow(rest, lo, hi), InWindow(b, lo, hi));
    }
  }

  lemma InWindowCons(x: Record, rest: seq<Record>, lo: int, hi: int)
    ensures InWindow([x] + rest, lo, hi) == (if lo <= TimeOfDay(x) <= hi then [x] else []) + InWindow(rest, lo, hi)
  {
    assert ([x] + rest)[0] == x && ([x] + rest)[1..] == rest;
  }

  /** `a` is `b` with some rows taken out. */
  predicate Subsequence(a: seq<Record>, b: seq<Record>)
    decreases |b|
  {
    if b == [] then a == []
    else Subsequence(a, b[1..]) || (a != [] && a[0] == b[0] && Subsequence(a[1..], b[1..]))
  }

  /** The kept rows are a subsequence of the input. */
  lemma {:induction false} InWindowSubsequence(data: seq<Record>, lo: int, hi: int)
    ensures Subsequence(InWindow(data, lo, hi), data)
    decreases |data|
  {
    if data != [] {
      InWindowSubsequence(data[1..], lo, hi);
      var rest := InWindow(data[1..], lo, hi);
      if lo <= TimeOfDay(data[0]) <= hi {
        assert InWindow(data, lo, hi) == [data[0]] + rest;
        assert ([data[0]] + rest)[1..] == rest;
      } else {
        assert InWindow(data, lo, hi) == rest;
      }
    }
  }

  /** A start after the end keeps nothing. */
  lemma EmptyWindow(data: seq<Record>, lo: int, hi: int)
    requires hi < lo
    ensures InWindow(data, lo, hi) == []
  {
    InWindowMembers(data, lo, hi);
    if InWindow(data, lo, hi) != [] {
      assert InWindow(data, lo, hi)[0] in InWindow(data, lo, hi);
    }
  }

  /** Filtering a second time with the same window changes nothing. */
  lemma {:induction false} InWindowIdempotent(data: seq<Record>, lo: int, hi: int)
    ensures InWindow(InWindow(data, lo, hi), lo, hi) == InWindow(data, lo, hi)
    decreases |data|
  {
    if data != [] {
      InWindowIdempotent(data[1..], lo, hi);
      var head := if lo <= TimeOfDay(data[0]) <= hi then [data[0]] else [];
      InWindowConcat(head, InWindow(data[1..], lo, hi), lo, hi);
      if head != [] {
        assert InWindow(head, lo, hi) == [data[0]] + InWindow(head[1..], lo, hi);
      }
    }
  }

  // ---------------------------------------------------------------------
  // get_month_weeks
  // ---------------------------------------------------------------------

  /** A naive `datetime` held as its day number (days since 0001-01-01) and
      its clock; `AsDateTime` gives its calendar date. */
  datatype Moment = Moment(day: int, hour: int, minute: int, second: int, micro: int)

  /** The calendar date-time of a moment. */
  function AsDateTime(m: Moment): (t: DateTime)
    requires 0 <= m.day < DayLimit
    ensures ValidDate(t.date) && ToDays(t.date) == m.day && t.offset == None
    ensures t.hour == m.hour && t.minute == m.minute && t.second == m.second && t.micro == m.micro
  {
    DateTime(FromDays(m.day), m.hour, m.minute, m.second, m.micro, None)
  }

  /** A week: its first moment and its last. */
  datatype Week = Week(start: Moment, end: Moment)

  /** Midnight at the start of day `n`. */
  function StartOfDay(n: int): Moment
  {
    Moment(n, 0, 0, 0, 0)
  }

  /** The last microsecond of day `n`. */
  function EndOfDay(n: int): Moment
  {
    Moment(n, 23, 59, 59, 999999)
  }

  /** The week from Sunday `n`: from that day's start to the end of the day
      six days later. */
  function WeekAt(n: int): Week
  {
    Week(StartOfDay(n), EndOfDay(n + 6))
  }

  /** A week runs from 00:00:00.000000 on its first day to 23:59:59.999999
      six days later, naive, and lasts seven days less one microsecond. */
  lemma WeekShape(n: int)
    requires 0 <= n && n + 6 < DayLimit
    ensures var w := WeekAt(n);
      var s, e := AsDateTime(w.start), AsDateTime(w.end);
      && ValidDateTime(s) && ValidDateTime(e)
      && ToDays(s.date) == n && ToDays(e.date) == n + 6
      && s.hour == 0 && s.minute == 0 && s.second == 0 && s.micro == 0
      && e.hour == 23 && e.minute == 59 && e.second == 59 && e.micro == 999999
      && s.offset == None && e.offset == None
      && (WallSeconds(e) - WallSeconds(s)) * 1000000 + e.micro - s.micro
         == 7 * SecondsPerDay * 1000000 - 1
  {
  }

  /** The first of the month after `year`-`month` (`None` past year 9999). */
  function NextMonth(year: int, month: int): (d: Option<Date>)
    requires 1 <= year <= 9999 && 1 <= month <= 12
    ensures d.Some? <==> year < 9999 || month < 12
    ensures d.Some? ==> ValidDate(d.value) && d.value.day == 1 && d.value.month != month
  {
    var d := if month == 12 then Date(year + 1, 1, 1) else Date(year, month + 1, 1);
    if d.year <= 9999 then Some(d) else None
  }

  /** The day number of the month's first day. */
  function FirstDay(year: int, month: int): int
    requires 1 <= year <= 9999 && 1 <= month <= 12
  {
    ToDays(Date(year, month, 1))
  }

  /** Every month has room for a week after its first day. */
  lemma MonthRoom(d: Date)
    requires ValidDate(d) && d.day == 1
    ensures ToDays(d) + 27 < DayLimit
  {
    var late := Date(d.year, d.month, DaysInMonth(d.year, d.month));
    assert ToDays(late) == ToDays(d) + DaysInMonth(d.year, d.month) - 1;
  }

  /** The day number of the month's last day: the day before the next
      month's first. */
  function LastDay(year: int, month: int): (n: int)
    requires 1 <= year <= 9999 && 1 <= month <= 12 && NextMonth(year, month).Some?
    ensures n + 7 < DayLimit
  {
    MonthRoom(NextMonth(year, month).value);
    ToDays(NextMonth(year, month).value) - 1
  }

  /** The next month's first day follows the month's last day. */
  lemma NextFollowsLast(year: int, month: int)
    requires 1 <= year <= 9999 && 1 <= month <= 12 && NextMonth(year, month).Some?
    ensures ToDays(NextMonth(year, month).value) == ToDays(Date(year, month, DaysInMonth(year, month))) + 1
  {
    if month == 12 {
      YearStep(year);
    } else {
      MonthStep(year, month);
    }
  }

  /** The last day is the month's last: its `DaysInMonth`-th day, and the
      day before the next month's first. */
  lemma LastDayOfMonth(year: int, month: int)
    requires 1 <= year <= 9999 && 1 <= month <= 12 && NextMonth(year, month).Some?
    ensures LastDay(year, month) == ToDays(Date(year, month, DaysInMonth(year, month)))
    ensures LastDay(year, month) == FirstDay(year, month) + DaysInMonth(year, month) - 1
  {
    NextFollowsLast(year, month);
  }

  /** The Sunday on or before day `n`: `(weekday + 1) % 7` days earlier. */
  function SundayOnOrBefore(n: int): (s: int)
    ensures n - 6 <= s <= n && Weekday(s) == 6
  {
    n - (Weekday(n) + 1) % 7
  }

  /** How many of the `k` days from day `n` satisfy `p`. */
  function CountDays(n: int, k: nat, p: int -> bool): (c: int)
    ensures 0 <= c <= k
  {
    if k == 0 then 0 else CountDays(n, k - 1, p) + (if p(n + k - 1) then 1 else 0)
  }

  /** The days whose date has month number `month` (the number alone, as
      `get_month_weeks` compares it). */
  function InMonth(month: int): int -> bool
  {
    d => 0 <= d < DayLimit && FromDays(d).month == month
  }

  lemma InMonthAt(month: int, d: int)
    ensures InMonth(month)(d) == (0 <= d < DayLimit && FromDays(d).month == month)
  {
  }

  lemma CountDaysStep(n: int, k: nat, p: int -> bool)
    ensures CountDays(n, k + 1, p) == CountDays(n, k, p) + (if p(n + k) then 1 else 0)
  {
  }

  /** The days from `first` to `last`. */
  function Between(first: int, last: int): int -> bool
  {
    d => first <= d <= last
  }

  /** The test `get_month_weeks` applies to a candidate week start, on day
      numbers: four or more of its seven days lie between the month's first
      day and its last. */
  function FourDaysWithin(first: int, last: int): int -> bool
  {
    d => CountDays(d, 7, Between(first, last)) >= 4
  }

  /** Counting two tests that agree on every day counted gives the same
      count. */
  lemma {:induction false} CountSame(n: int, k: nat, p: int -> bool, q: int -> bool)
    requires forall d :: n <= d < n + k ==> p(d) == q(d)
    ensures CountDays(n, k, p) == CountDays(n, k, q)
    decreases k
  {
    if k > 0 {
      CountSame(n, k - 1, p, q);
    }
  }

  /** The candidate starts from `n`, seven days apart up to `last`, that
      `keep` accepts. */
  function KeptStarts(n: int, last: int, keep: int -> bool): seq<int>
    decreases last - n
  {
    if n > last then []
    else (if keep(n) then [n] else []) + KeptStarts(n + 7, last, keep)
  }

  predicate WeekRange(starts: seq<int>)
  {
    forall k :: 0 <= k < |starts| ==> 0 <= starts[k] && starts[k] + 6 < DayLimit
  }

  /** The weeks starting on the days `starts`. */
  function WeeksOf(starts: seq<int>): (ws: seq<Week>)
    ensures |ws| == |starts|
  {
    if starts == [] then [] else [WeekAt(starts[0])] + WeeksOf(starts[1..])
  }

  lemma {:induction false} WeeksOfAt(starts: seq<int>, k: int)
    requires 0 <= k < |starts|
    ensures WeeksOf(starts)[k] == WeekAt(starts[k])
    decreases k
  {
    if k > 0 {
      WeeksOfAt(starts[1..], k - 1);
    }
  }

  /** The day numbers `get_month_weeks` works with: the month's first day,
      the first candidate start and the month's last day. */
  datatype MonthSpan = MonthSpan(first: int, weekStart: int, last: int)

  /** The month's first day, the Sunday on or before it and the month's
      last day; ValueError for a month or year `datetime` cannot hold (or a
      December whose next January it cannot), OverflowError when that
      Sunday falls before 0001-01-01. */
  function MonthRange(year: int, month: int): (r: Result<MonthSpan>)
    ensures r.Success? ==> 0 <= r.value.weekStart && r.value.first - 6 <= r.value.weekStart
                           && r.value.last + 7 < DayLimit
  {
    if !(1 <= year <= 9999 && 1 <= month <= 12) || NextMonth(year, month).None? then Failure(ValueError)
    else
      var first := FirstDay(year, month);
      var ws := SundayOnOrBefore(first);
      if ws < 0 then Failure(OverflowError) else Success(MonthSpan(first, ws, LastDay(year, month)))
  }

  /** The start days of the weeks `get_month_weeks(year, month)` returns. */
  function MonthStarts(year: int, month: int): (r: Result<seq<int>>)
    ensures r.Success? ==> WeekRange(r.value)
  {
    match MonthRange(year, month)
    case Success(span) =>
      KeptStartsRange(span.weekStart, span.last, FourDaysWithin(span.first, span.last));
      Success(KeptStarts(span.weekStart, span.last, FourDaysWithin(span.first, span.last)))
    case Failure(e) => Failure(e)
  }

  /** `get_month_weeks(year, month)` as a value: the weeks of the kept
      start days, or the failure. */
  function MonthWeeks(year: int, month: int): (r: Result<seq<Week>>)
  {
    match MonthStarts(year, month)
    case Success(starts) => Success(WeeksOf(starts))
    case Failure(e) => Failure(e)
  }

  /** The candidate starts kept lie between `n` and `last`, strictly
      ascending at least a week apart. */
  lemma {:induction false} KeptStartsRange(n: int, last: int, keep: int -> bool)
    requires 0 <= n && last + 7 < DayLimit
    ensures var s := KeptStarts(n, last, keep);
      && (forall k :: 0 <= k < |s| ==> n <= s[k] <= last)
      && (forall i, j :: 0 <= i < j < |s| ==> s[i] + 7 <= s[j])
      && WeekRange(s)
    decreases last - n
  {
    if n <= last {
      KeptStartsRange(n + 7, last, keep);
    }
  }

  /** A day is a kept start exactly when it is a candidate — `n` plus a
      whole number of weeks, not after `last` — that `keep` accepts. */
  lemma {:induction false} KeptStartsMembers(n: int, last: int, keep: int -> bool)
    ensures forall d :: d in KeptStarts(n, last, keep) <==> n <= d <= last && (d - n) % 7 == 0 && keep(d)
    decreases last - n
  {
    if n <= last {
      KeptStartsMembers(n + 7, last, keep);
      KeptStartsStep(n, last, keep);
      forall d
        ensures d in KeptStarts(n, last, keep) <==> n <= d <= last && (d - n) % 7 == 0 && keep(d)
      {
        WeekMultiple(n, d);
      }
    }
  }

  /** A day a whole number of weeks after `n` is `n` or a whole number of
      weeks after `n + 7`. */
  lemma WeekMultiple(n: int, d: int)
    ensures (n <= d && (d - n) % 7 == 0) <==> (d == n || (n + 7 <= d && (d - (n + 7)) % 7 == 0))
  {
    assert (d - (n + 7)) % 7 == (d - n) % 7;
  }

  /** Every month but January of year 1 starts at least 31 days after
      0001-01-01. */
  lemma FirstDayLate(year: int, month: int)
    requires 1 <= year <= 9999 && 1 <= month <= 12 && !(year == 1 && month == 1)
    ensures FirstDay(year, month) >= 31
  {
    if year > 1 {
      YearsIncrease(1, year);
    }
    if month > 1 {
      MonthStep(year, month - 1);
    }
  }

  /** The months whose range cannot be built, and why. */
  lemma MonthRangeFailures(year: int, month: int)
    ensures MonthRange(year, month).Failure? <==>
      !(1 <= year <= 9999 && 1 <= month <= 12) || (year == 9999 && month == 12) || (year == 1 && month == 1)
    ensures MonthRange(year, month) == Failure(OverflowError) <==> year == 1 && month == 1
  {
    if 1 <= year <= 9999 && 1 <= month <= 12 && !(year == 9999 && month == 12) {
      if year == 1 && month == 1 {
        assert FirstDay(year, month) == 0;
      } else {
        FirstDayLate(year, month);
      }
    }
  }

  /** The months `get_month_weeks` fails on, and why. */
  lemma MonthWeeksFailures(year: int, month: int)
    ensures MonthWeeks(year, month).Failure? <==>
      !(1 <= year <= 9999 && 1 <= month <= 12) || (year == 9999 && month == 12) || (year == 1 && month == 1)
    ensures MonthWeeks(year, month) == Failure(OverflowError) <==> year == 1 && month == 1
  {
    MonthRangeFailures(year, month);
  }

  /** Around a month — from six days before its first day to six days after
      its last — a day falls in the month's number exactly when it lies
      between the two: the neighbouring days belong to the month before and
      the month after. */
  lemma MonthNear(year: int, month: int, d: int)
    requires 1 <= year <= 9999 && 1 <= month <= 12 && NextMonth(year, month).Some?
    requires 0 <= d && FirstDay(year, month) - 6 <= d <= LastDay(year, month) + 6
    ensures FromDays(d).month == month <==> FirstDay(year, month) <= d <= LastDay(year, month)
  {
    var first, last := FirstDay(year, month), LastDay(year, month);
    LastDayOfMonth(year, month);
    var e := FromDays(d);
    if e.month == month {
      SameMonthNumber(e, year, month);
    }
    if first <= d <= last {
      var inMonth := Date(year, month, d - first + 1);
      assert ToDays(inMonth) == d;
      FromToDays(inMonth);
    }
  }

  /** For a candidate week start, the count `get_month_weeks` makes — days
      whose month is `month` — is the count of days between the month's
      first and last day. */
  lemma CountMatches(year: int, month: int, n: int)
    requires 1 <= year <= 9999 && 1 <= month <= 12 && NextMonth(year, month).Some?
    requires 0 <= n && FirstDay(year, month) - 6 <= n <= LastDay(year, month)
    ensures CountDays(n, 7, InMonth(month)) == CountDays(n, 7, Between(FirstDay(year, month), LastDay(year, month)))
    ensures FourDaysWithin(FirstDay(year, month), LastDay(year, month))(n) == (CountDays(n, 7, InMonth(month)) >= 4)
  {
    var first, last := FirstDay(year, month), LastDay(year, month);
    forall d | n <= d < n + 7
      ensures InMonth(month)(d) == Between(first, last)(d)
    {
      MonthNear(year, month, d);
    }
    CountSame(n, 7, InMonth(month), Between(first, last));
  }

  /** A Sunday no earlier than six days before `n` is the Sunday on or
      before `n` plus a whole number of weeks. */
  lemma SundaysFrom(n: int, d: int)
    ensures var ws := SundayOnOrBefore(n);
      (ws <= d && (d - ws) % 7 == 0) <==> (Weekday(d) == 6 && n - 6 <= d)
  {
  }

  /** On success the weeks start on the kept Sundays: a Sunday starts a
      returned week exactly when it lies between six days before the first
      of the month and its last day and at least four of its seven days
      fall in the month; the weeks come in ascending order and do not
      overlap. */
  lemma MonthStartsCharacterized(year: int, month: int)
    requires MonthStarts(year, month).Success?
    ensures 1 <= year <= 9999 && 1 <= month <= 12 && NextMonth(year, month).Some?
    ensures var first, last, starts := FirstDay(year, month), LastDay(year, month), MonthStarts(year, month).value;
      && (forall d :: d in starts <==>
            0 <= d && Weekday(d) == 6 && first - 6 <= d <= last && CountDays(d, 7, InMonth(month)) >= 4)
      && (forall i, j :: 0 <= i < j < |starts| ==> starts[i] + 7 <= starts[j])
  {
    var first, last := FirstDay(year, month), LastDay(year, month);
    var ws := SundayOnOrBefore(first);
    assert MonthRange(year, month) == Success(MonthSpan(first, ws, last));
    var keep := FourDaysWithin(first, last);
    var starts := KeptStarts(ws, last, keep);
    assert MonthStarts(year, month).value == starts;
    KeptStartsRange(ws, last, keep);
    forall d
      ensures d in starts <==> 0 <= d && Weekday(d) == 6 && first - 6 <= d <= last && CountDays(d, 7, InMonth(month)) >= 4
    {
      SundayStarts(first, last, keep, d);
      if 0 <= d && first - 6 <= d <= last {
        CountMatches(year, month, d);
      }
    }
  }

  /** A day is a kept start from the Sunday on or before `first` exactly
      when it is a Sunday between six days before `first` and `last` that
      `keep` accepts. */
  lemma SundayStarts(first: int, last: int, keep: int -> bool, d: int)
    ensures d in KeptStarts(SundayOnOrBefore(first), last, keep)
        <==> Weekday(d) == 6 && first - 6 <= d <= last && keep(d)
  {
    KeptStartsMembers(SundayOnOrBefore(first), last, keep);
    SundaysFrom(first, d);
  }

  /** Each returned week runs from 00:00:00.000000 on its Sunday to
      23:59:59.999999 six days later. */
  lemma MonthWeeksAre(year: int, month: int, k: int)
    requires MonthWeeks(year, month).Success? && 0 <= k < |MonthWeeks(year, month).value|
    ensures MonthStarts(year, month).Success?
    ensures MonthWeeks(year, month).value[k] == WeekAt(MonthStarts(year, month).value[k])
  {
    WeeksOfAt(MonthStarts(year, month).value, k);
  }

  lemma KeptStartsStep(n: int, last: int, keep: int -> bool)
    requires n <= last
    ensures KeptStarts(n, last, keep) == (if keep(n) then [n] else []) + KeptStarts(n + 7, last, keep)
  {
  }

  lemma AppendAssoc<T>(a: seq<T>, b: seq<T>, c: seq<T>)
    ensures (a + b) + c == a + (b + c)
  {
  }

  /** `get_month_weeks(year, month)`: finds the first of the month, the
      Sunday on or before it and the month's last day, then collects the
      weeks (`CollectWeeks`). */
  method GetMonthWeeks(year: int, month: int) returns (r: Result<seq<Week>>)
    ensures r == MonthWeeks(year, month)
  {
    if !(1 <= year <= 9999 && 1 <= month <= 12) {
      return Failure(ValueError);
    }
    var firstDay := ToDays(Date(year, month, 1));
    var nextMonth: Date;
    if month == 12 {
      if year + 1 > 9999 {
        assert NextMonth(year, month).None?;
        return Failure(ValueError);
      }
      nextMonth := Date(year + 1, 1, 1);
    } else {
      nextMonth := Date(year, month + 1, 1);
    }
    assert NextMonth(year, month) == Some(nextMonth);
    var lastDay := ToDays(nextMonth) - 1;
    var weekStart := firstDay - (Weekday(firstDay) + 1) % 7;
    if weekStart < 0 {
      assert MonthRange(year, month) == Failure(OverflowError);
      return Failure(OverflowError);
    }
    assert firstDay == FirstDay(year, month) && lastDay == LastDay(year, month);
    assert weekStart == SundayOnOrBefore(firstDay);
    MonthWeeksFrom(year, month);
    var weeks := CollectWeeks(weekStart, lastDay, month, year, firstDay);
    return Success(weeks);
  }

  /** For a month whose range can be built, the weeks are those of the
      kept starts from the Sunday on or before its first day. */
  lemma MonthWeeksFrom(year: int, month: int)
    requires 1 <= year <= 9999 && 1 <= month <= 12 && NextMonth(year, month).Some?
    requires SundayOnOrBefore(FirstDay(year, month)) >= 0
    ensures var first, last := FirstDay(year, month), LastDay(year, month);
      MonthWeeks(year, month) == Success(WeeksOf(KeptStarts(SundayOnOrBefore(first), last, FourDaysWithin(first, last))))
  {
    var first, last := FirstDay(year, month), LastDay(year, month);
    assert MonthRange(year, month) == Success(MonthSpan(first, SundayOnOrBefore(first), last));
  }

  /** The loop of `get_month_weeks`: from `weekStart`, seven days at a time
      while the week starts on or before `lastDay`, appending each week with
      four or more days whose month is `month`. */
  method CollectWeeks(weekStart: int, lastDay: int, month: int, ghost year: int, ghost firstDay: int)
    returns (weeks: seq<Week>)
    requires 1 <= year <= 9999 && 1 <= month <= 12 && NextMonth(year, month).Some?
    requires firstDay == FirstDay(year, month) && lastDay == LastDay(year, month)
    requires 0 <= weekStart && firstDay - 6 <= weekStart
    ensures weeks == WeeksOf(KeptStarts(weekStart, lastDay, FourDaysWithin(firstDay, lastDay)))
  {
    var n := weekStart;
    weeks := [];
    while n <= lastDay
      invariant weekStart <= n
      invariant WeeksAfter(weeks, n, lastDay, FourDaysWithin(firstDay, lastDay))
             == WeeksAfter([], weekStart, lastDay, FourDaysWithin(firstDay, lastDay))
      decreases lastDay - n
    {
      weeks := CollectWeek(weeks, n, month, year);
      n := n + 7;
    }
    WeeksAfterStarts(weekStart, lastDay, FourDaysWithin(firstDay, lastDay));
  }

  /** One turn of the loop of `get_month_weeks`: counts the days of the
      week from day `n` whose month number is `month` and appends the week
      when there are four or more — exactly when four or more of its days
      lie between the month's first day and its last. */
  method CollectWeek(weeks: seq<Week>, n: int, month: int, ghost year: int) returns (next: seq<Week>)
    requires 1 <= year <= 9999 && 1 <= month <= 12 && NextMonth(year, month).Some?
    requires 0 <= n && FirstDay(year, month) - 6 <= n <= LastDay(year, month)
    ensures next == if FourDaysWithin(FirstDay(year, month), LastDay(year, month))(n)
                    then weeks + [Week(StartOfDay(n), EndOfDay(n + 6))] else weeks
  {
    var weekEnd := n + 6;
    var daysInMonth := WeekDaysInMonth(n, month);
    CountMatches(year, month, n);
    if daysInMonth >= 4 {
      next := weeks + [Week(StartOfDay(n), EndOfDay(weekEnd))];
    } else {
      next := weeks;
    }
  }

  /** The count `get_month_weeks` makes of a week's days: those of the
      seven from day `n` whose month number is `month`. */
  method WeekDaysInMonth(n: int, month: int) returns (count: int)
    ensures count == CountDays(n, 7, InMonth(month))
  {
    count := 0;
    for i := 0 to 7
      invariant count == CountDays(n, i, InMonth(month))
    {
      InMonthAt(month, n + i);
      CountDaysStep(n, i, InMonth(month));
      if 0 <= n + i < DayLimit && FromDays(n + i).month == month {
        count := count + 1;
      }
    }
  }

  /** The weeks in the order the loop of `get_month_weeks` builds them:
      those collected so far, `acc`, extended by those from day `n` on
      whose start `keep` accepts. */
  function WeeksAfter(acc: seq<Week>, n: int, last: int, keep: int -> bool): seq<Week>
    decreases last - n
  {
    if n > last then acc
    else WeeksAfter(if keep(n) then acc + [Week(StartOfDay(n), EndOfDay(n + 6))] else acc, n + 7, last, keep)
  }

  lemma {:induction false} WeeksAfterIs(acc: seq<Week>, n: int, last: int, keep: int -> bool)
    ensures WeeksAfter(acc, n, last, keep) == acc + WeeksOf(KeptStarts(n, last, keep))
    decreases last - n
  {
    if n > last {
      assert acc + [] == acc;
    } else {
      var rest := KeptStarts(n + 7, last, keep);
      KeptStartsStep(n, last, keep);
      if keep(n) {
        var w := Week(StartOfDay(n), EndOfDay(n + 6));
        WeeksAfterIs(acc + [w], n + 7, last, keep);
        WeeksOfCons(n, rest);
        AppendAssoc(acc, [w], WeeksOf(rest));
      } else {
        WeeksAfterIs(acc, n + 7, last, keep);
        assert KeptStarts(n, last, keep) == rest;
      }
    }
  }

  lemma WeeksAfterStarts(n: int, last: int, keep: int -> bool)
    ensures WeeksAfter([], n, last, keep) == WeeksOf(KeptStarts(n, last, keep))
  {
    WeeksAfterIs([], n, last, keep);
    assert [] + WeeksOf(KeptStarts(n, last, keep)) == WeeksOf(KeptStarts(n, last, keep));
  }

  /** The week of `n` followed by the weeks of `rest`. */
  lemma WeeksOfCons(n: int, rest: seq<int>)
    ensures WeeksOf([n] + rest) == [Week(StartOfDay(n), EndOfDay(n + 6))] + WeeksOf(rest)
  {
    assert ([n] + rest)[0] == n;
    assert ([n] + rest)[1..] == rest;
  }
}
