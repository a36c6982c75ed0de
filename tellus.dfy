/** The TELLUS client's retrieval: one request for the whole range; a 413
    ("Content Too Large", section 15.5.14 of RFC 9110) splits the range at
    its midpoint, fetches the left half and then the right half, and
    concatenates them; a 403 yields no data. */
module Tellus {
  import opened Common
  import opened Calendar
  import opened IsoTime

  const BaseUrl: string := "https://api.tellusensors.com"

  datatype TellusClient = TellusClient(apiKey: string)

  /** A parsed time: its wall-clock reading in microseconds and its UTC
      offset in minutes (`None` for a naive time). */
  datatype Moment = Moment(wall: int, offset: Option<int>)

  /** The instant a moment names, in microseconds. */
  function Instant(m: Moment): int
  {
    m.wall - (if m.offset.Some? then m.offset.value else 0) * 60000000
  }

  /** The moment of a date-time. */
  function MomentOf(t: DateTime): (m: Moment)
    requires ValidDateTime(t)
    ensures m.offset == t.offset && Instant(m) == AbsMicros(t)
  {
    Moment(WallSeconds(t) * 1000000 + t.micro, t.offset)
  }

  /** A bound of a requested range: a string the caller passed in, sent as
      it is, together with what `pd.to_datetime` reads it as (`ReadText`,
      filled in by `RetrieveData`); or a midpoint the client computed, held
      as its wall-clock second and offset and sent as
      `%Y-%m-%dT%H:%M:%S%z`. */
  datatype Bound = Given(text: string, reading: Option<Moment>) | Split(second: int, offset: Option<int>)

  /** `pd.to_datetime` of a caller's string; `None` where it raises. */
  function ReadText(s: string): (r: Option<Moment>)
    ensures r.Some? && r.value.offset.Some? ==> -1440 < r.value.offset.value < 1440
  {
    if ParseIso(s).Some? then Some(MomentOf(ParseIso(s).value)) else None
  }

  /** Whether a bound can be rendered and read: a midpoint lies in years
      1..9999, and every offset is less than a day. */
  predicate WellFormed(b: Bound)
  {
    match b
    case Given(_, r) => r.Some? && r.value.offset.Some? ==> -1440 < r.value.offset.value < 1440
    case Split(sec, off) => 0 <= sec < SecondLimit && (off.Some? ==> -1440 < off.value < 1440)
  }

  /** The date-time of a midpoint. */
  function SplitTime(b: Bound): (t: DateTime)
    requires b.Split? && WellFormed(b)
    ensures ValidDateTime(t) && t.micro == 0 && t.offset == b.offset && WallSeconds(t) == b.second
  {
    FromWallSeconds(b.second).value.(offset := b.offset)
  }

  /** The query string a bound is sent as. */
  function Render(b: Bound): string
    requires b.Split? ==> WellFormed(b)
  {
    match b
    case Given(s, _) => s
    case Split(_, _) => FormatIsoBasic(SplitTime(b))
  }

  /** `pd.to_datetime` of a bound; a midpoint reads back as itself
      (`SplitReparses`). */
  function ParseBound(b: Bound): (r: Option<Moment>)
    ensures WellFormed(b) && r.Some? && r.value.offset.Some? ==> -1440 < r.value.offset.value < 1440
    ensures b.Split? ==> r == Some(Moment(b.second * 1000000, b.offset))
  {
    match b
    case Given(_, reading) => reading
    case Split(sec, off) => Some(Moment(sec * 1000000, off))
  }

  /** A `data` request: the key, the comma-joined `deviceId` and `metric`
      lists, and the range. */
  datatype TellusQuery = TellusQuery(url: string, key: string, deviceId: string, start: Bound, end: Bound, metric: string)

  /** The request for a range. */
  function QueryFor(client: TellusClient, devices: seq<string>, metrics: seq<string>, start: Bound, end: Bound): (q: TellusQuery)
    ensures q.url == BaseUrl + "/data" && q.key == client.apiKey
    ensures q.deviceId == Join(devices, ',') && q.metric == Join(metrics, ',')
    ensures q.start == start && q.end == end
  {
    TellusQuery(BaseUrl + "/" + "data", client.apiKey, Join(devices, ','), start, end, Join(metrics, ','))
  }

  /** `start_dt + (end_dt - start_dt) / 2` written with `%Y-%m-%dT%H:%M:%S%z`:
      the start's wall clock advanced by half the elapsed time, cut to the
      whole second, at the start's offset. Subtracting a naive from an
      aware time raises TypeError; a second past year 9999 overflows. */
  function Midpoint(s: Moment, e: Moment): (r: Result<Bound>)
    ensures r.Failure? <==> s.offset.Some? != e.offset.Some? || !(0 <= MidSecond(s, e) < SecondLimit)
    ensures r.Failure? ==> r.error == if s.offset.Some? != e.offset.Some? then TypeError else OverflowError
    ensures r.Success? ==> r.value.Split? && r.value.offset == s.offset
    ensures r.Success? ==> Instant(ParseBound(r.value).value) == (Instant(s) + Instant(e)) / 2000000 * 1000000
  {
    if s.offset.Some? != e.offset.Some? then Failure(TypeError)
    else if !(0 <= MidSecond(s, e) < SecondLimit) then Failure(OverflowError)
    else
      MidAbsolute(s, e);
      Success(Split(MidSecond(s, e), s.offset))
  }

  /** The wall-clock second of the midpoint, at the start's offset. */
  function MidSecond(s: Moment, e: Moment): int
  {
    (2 * s.wall + (Instant(e) - Instant(s))) / 2000000
  }

  /** Read as an instant, the midpoint second is the mean of the two
      instants cut to the second. */
  lemma MidAbsolute(s: Moment, e: Moment)
    ensures (MidSecond(s, e) - (if s.offset.Some? then s.offset.value else 0) * 60) * 1000000
      == (Instant(s) + Instant(e)) / 2000000 * 1000000
  {
    var a, b := Instant(s), Instant(e);
    var o := if s.offset.Some? then s.offset.value else 0;
    assert 2 * s.wall + (b - a) == (a + b) + o * 60 * 2000000;
  }

  /** `pd.concat([first_half, second_half])`: frames that are `None` are
      dropped, and concatenating nothing but `None` raises. */
  function ConcatHalves(left: Option<seq<Record>>, right: Option<seq<Record>>): (r: Result<Option<seq<Record>>>)
    ensures r.Failure? <==> left.None? && right.None?
    ensures r.Failure? ==> r.error == ConcatError
    ensures r.Success? ==>
      r.value.Some? && r.value.value == (if left.Some? then left.value else []) + (if right.Some? then right.value else [])
  {
    match (left, right)
    case (None, None) => Failure(ConcatError)
    case (Some(a), None) => Success(Some(a))
    case (None, Some(b)) => Success(Some(b))
    case (Some(a), Some(b)) => Success(Some(a + b))
  }

  /** `retrieve_data` on its two bounds, cut off after `fuel` nested
      requests. `Done(None)` is the `None` a 403 returns. The left half is
      retrieved to its end before the right half is requested, so a failure
      there stops the run. */
  function RetrieveRange(fetch: TellusQuery -> Response, client: TellusClient, devices: seq<string>, metrics: seq<string>,
                         start: Bound, end: Bound, fuel: nat)
    : Run<Option<seq<Record>>, TellusQuery>
    requires WellFormed(start) && WellFormed(end)
    decreases fuel
  {
    if fuel == 0 then Run(OutOfFuel, [])
    else
      var q := QueryFor(client, devices, metrics, start, end);
      var resp := fetch(q);
      if resp.status == 200 then Run(Done(Some(resp.records)), [q])
      else if resp.status == 403 then Run(Done(None), [q])
      else if resp.status != 413 then Run(Fail(SysExit), [q])
      else
        match SplitPoint(start, end)
        case Failure(err) => Run(Fail(err), [q])
        case Success(m) =>
          var left := RetrieveRange(fetch, client, devices, metrics, start, m, fuel - 1);
          if !left.outcome.Done? then Run(left.outcome, [q] + left.requests)
          else
            var right := RetrieveRange(fetch, client, devices, metrics, m, end, fuel - 1);
            var requests := [q] + left.requests + right.requests;
            if !right.outcome.Done? then Run(right.outcome, requests)
            else
              match ConcatHalves(left.outcome.value, right.outcome.value)
              case Failure(err) => Run(Fail(err), requests)
              case Success(v) => Run(Done(v), requests)
  }

  /** Both bounds read with `pd.to_datetime`, then their midpoint. */
  function SplitPoint(start: Bound, end: Bound): (r: Result<Bound>)
    requires WellFormed(start) && WellFormed(end)
    ensures r.Success? ==> r.value.Split? && WellFormed(r.value)
  {
    match (ParseBound(start), ParseBound(end))
    case (Some(s), Some(e)) => Midpoint(s, e)
    case _ => Failure(ParseError)
  }

  /** `TellusClient.retrieve_data(start_time, end_time, devices, metrics)`. */
  function RetrieveData(fetch: TellusQuery -> Response, client: TellusClient,
                        startTime: string, endTime: string, devices: seq<string>, metrics: seq<string>, fuel: nat)
    : Run<Option<seq<Record>>, TellusQuery>
  {
    RetrieveRange(fetch, client, devices, metrics,
                  Given(startTime, ReadText(startTime)), Given(endTime, ReadText(endTime)), fuel)
  }

  /** The source re-reads the midpoint string it formatted; that gives the
      midpoint back, so carrying the date-time loses nothing. */
  lemma SplitReparses(b: Bound)
    requires b.Split? && WellFormed(b)
    ensures ReadText(Render(b)) == ParseBound(b)
  {
    var t := SplitTime(b);
    ParseFormatIsoBasic(t);
    assert t.(micro := 0) == t;
    assert ParseIso(Render(b)) == Some(t);
    assert MomentOf(t) == Moment(b.second * 1000000, b.offset);
  }

  /** The first request carries the devices and metrics comma-joined and the
      caller's start and end strings unconverted. */
  lemma FirstRequest(fetch: TellusQuery -> Response, client: TellusClient,
                     startTime: string, endTime: string, devices: seq<string>, metrics: seq<string>, fuel: nat)
    requires fuel > 0
    ensures var r := RetrieveData(fetch, client, startTime, endTime, devices, metrics, fuel);
      && r.requests != []
      && r.requests[0].key == client.apiKey
      && r.requests[0].deviceId == Join(devices, ',') && r.requests[0].metric == Join(metrics, ',')
      && r.requests[0].start.Given? && r.requests[0].end.Given?
      && Render(r.requests[0].start) == startTime && Render(r.requests[0].end) == endTime
  {
    var start, end := Given(startTime, ReadText(startTime)), Given(endTime, ReadText(endTime));
    FirstRangeRequest(fetch, client, devices, metrics, start, end, fuel);
  }

  /** With fuel left, every run opens with the request for its whole range. */
  lemma FirstRangeRequest(fetch: TellusQuery -> Response, client: TellusClient, devices: seq<string>, metrics: seq<string>,
                          start: Bound, end: Bound, fuel: nat)
    requires fuel > 0 && WellFormed(start) && WellFormed(end)
    ensures var r := RetrieveRange(fetch, client, devices, metrics, start, end, fuel);
      r.requests != [] && r.requests[0] == QueryFor(client, devices, metrics, start, end)
  {
  }

  /** A 200 returns exactly that response's records after one request; a
      403 returns `None` after one request; any status but 200, 403 and 413
      ends the run with `sys.exit(1)`. */
  lemma SingleResponse(fetch: TellusQuery -> Response, client: TellusClient, devices: seq<string>, metrics: seq<string>,
                       start: Bound, end: Bound, fuel: nat)
    requires fuel > 0 && WellFormed(start) && WellFormed(end)
    requires fetch(QueryFor(client, devices, metrics, start, end)).status != 413
    ensures var q := QueryFor(client, devices, metrics, start, end);
      var status := fetch(q).status;
      RetrieveRange(fetch, client, devices, metrics, start, end, fuel) ==
        if status == 200 then Run(Done(Some(fetch(q).records)), [q])
        else if status == 403 then Run(Done(None), [q])
        else Run(Fail(SysExit), [q])
  {
  }

  /** On 413 the range is split at the midpoint: the left half
      `[start, mid]` is requested first and the right half `[mid, end]`
      after it, both with the same devices and metrics, and the result is
      the left half's records followed by the right half's, with the
      boundary not deduplicated. */
  lemma TooLargeSplits(fetch: TellusQuery -> Response, client: TellusClient, devices: seq<string>, metrics: seq<string>,
                       start: Bound, end: Bound, fuel: nat)
    requires fuel > 0 && WellFormed(start) && WellFormed(end)
    requires fetch(QueryFor(client, devices, metrics, start, end)).status == 413
    requires SplitPoint(start, end).Success?
    ensures var q := QueryFor(client, devices, metrics, start, end);
      var m := SplitPoint(start, end).value;
      var r := RetrieveRange(fetch, client, devices, metrics, start, end, fuel);
      var left := RetrieveRange(fetch, client, devices, metrics, start, m, fuel - 1);
      var right := RetrieveRange(fetch, client, devices, metrics, m, end, fuel - 1);
      && r.requests[0] == q
      && (left.outcome.Done? ==> r.requests == [q] + left.requests + right.requests)
      && (!left.outcome.Done? ==> r == Run(left.outcome, [q] + left.requests))
      && (left.outcome.Done? && right.outcome.Done? && (left.outcome.value.Some? || right.outcome.value.Some?) ==>
            r.outcome == Done(Some((if left.outcome.value.Some? then left.outcome.value.value else [])
                                   + (if right.outcome.value.Some? then right.outcome.value.value else []))))
      && (left.outcome == Done(None) && right.outcome == Done(None) ==> r.outcome == Fail(ConcatError))
  {
  }

  /** A 413 for a range whose bounds do not both parse, or that mixes an
      aware and a naive time, or whose midpoint overflows, fails without a
      second request. */
  lemma TooLargeUnsplittable(fetch: TellusQuery -> Response, client: TellusClient, devices: seq<string>, metrics: seq<string>,
                             start: Bound, end: Bound, fuel: nat)
    requires fuel > 0 && WellFormed(start) && WellFormed(end)
    requires fetch(QueryFor(client, devices, metrics, start, end)).status == 413
    requires SplitPoint(start, end).Failure?
    ensures RetrieveRange(fetch, client, devices, metrics, start, end, fuel)
      == Run(Fail(SplitPoint(start, end).error), [QueryFor(client, devices, metrics, start, end)])
  {
  }

  /** The midpoint lies within the range, to the second: no earlier than
      the start cut to its second and no later than the end. */
  lemma MidpointWithin(s: Moment, e: Moment)
    requires Midpoint(s, e).Success? && Instant(s) <= Instant(e)
    ensures var m := Instant(ParseBound(Midpoint(s, e).value).value);
      Instant(s) / 1000000 * 1000000 <= m <= Instant(e)
  {
    Halving(Instant(s), Instant(e));
  }

  lemma Halving(a: int, b: int)
    requires a <= b
    ensures a / 1000000 * 1000000 <= (a + b) / 2000000 * 1000000 <= b
    ensures (a + b) / 2000000 * 1000000 <= (a + b) / 2
    ensures b - a >= 2000000 ==> a / 1000000 * 1000000 + 1000000 <= (a + b) / 2000000 * 1000000
  {
    var m := (a + b) / 2000000;
    assert m * 2000000 <= a + b;
    var k := a / 1000000;
    assert k * 1000000 <= a;
    assert 2 * k * 1000000 <= a + b;
    assert k <= m by {
      assert 2 * k * 1000000 == k * 2000000;
    }
    if b - a >= 2000000 {
      assert (k + 1) * 2000000 <= a + b;
    }
  }

  /** A one-second range splits into itself: the midpoint of a whole
      second and the second after it, at one offset, is the start, so the
      right half asks for the same range again. */
  lemma OneSecondSplitsToItself(sec: int, offset: Option<int>)
    requires 0 <= sec && sec + 1 < SecondLimit
    ensures var s, e := Moment(sec * 1000000, offset), Moment((sec + 1) * 1000000, offset);
      Midpoint(s, e) == Success(Split(sec, offset)) && ParseBound(Split(sec, offset)) == Some(s)
  {
  }

  /** A run that does not split ends with its first response: it has data,
      or, after a 413, fails. */
  lemma UnsplitOutcome(fetch: TellusQuery -> Response, client: TellusClient, devices: seq<string>, metrics: seq<string>,
                       start: Bound, end: Bound, fuel: nat)
    requires fuel > 0 && WellFormed(start) && WellFormed(end)
    requires fetch(QueryFor(client, devices, metrics, start, end)).status != 413 || SplitPoint(start, end).Failure?
    ensures var r := RetrieveRange(fetch, client, devices, metrics, start, end, fuel).outcome;
      !r.OutOfFuel? && (fetch(QueryFor(client, devices, metrics, start, end)).status == 413 ==> r.Fail?)
  {
  }

  /** A run that splits has data only when both halves do, and runs out of
      fuel only when its left half does, or its left half has data and its
      right half runs out. */
  lemma SplitOutcome(fetch: TellusQuery -> Response, client: TellusClient, devices: seq<string>, metrics: seq<string>,
                     start: Bound, end: Bound, fuel: nat)
    requires fuel > 0 && WellFormed(start) && WellFormed(end)
    requires fetch(QueryFor(client, devices, metrics, start, end)).status == 413 && SplitPoint(start, end).Success?
    ensures var m := SplitPoint(start, end).value;
      var r := RetrieveRange(fetch, client, devices, metrics, start, end, fuel).outcome;
      var left := RetrieveRange(fetch, client, devices, metrics, start, m, fuel - 1).outcome;
      var right := RetrieveRange(fetch, client, devices, metrics, m, end, fuel - 1).outcome;
      && (r.Done? ==> left.Done? && right.Done?)
      && (r.OutOfFuel? ==> left.OutOfFuel? || (left.Done? && right.OutOfFuel?))
  {
  }

  /** A server that answers 413 to every request makes the client split
      forever: no amount of fuel produces data. */
  lemma {:induction false} AlwaysTooLargeNeverDone(fetch: TellusQuery -> Response, client: TellusClient,
                                                   devices: seq<string>, metrics: seq<string>,
                                                   start: Bound, end: Bound, fuel: nat)
    requires forall q: TellusQuery :: fetch(q).status == 413
    requires WellFormed(start) && WellFormed(end)
    ensures !RetrieveRange(fetch, client, devices, metrics, start, end, fuel).outcome.Done?
    decreases fuel
  {
    if fuel > 0 {
      assert fetch(QueryFor(client, devices, metrics, start, end)).status == 413;
      if SplitPoint(start, end).Success? {
        var m := SplitPoint(start, end).value;
        AlwaysTooLargeNeverDone(fetch, client, devices, metrics, start, m, fuel - 1);
        SplitOutcome(fetch, client, devices, metrics, start, end, fuel);
      } else {
        UnsplitOutcome(fetch, client, devices, metrics, start, end, fuel);
      }
    }
  }

  /** The width of a request's range in microseconds, when both bounds
      parse. */
  function Width(q: TellusQuery): int
  {
    WidthOf(q.start, q.end)
  }

  function WidthOf(start: Bound, end: Bound): int
  {
    match (ParseBound(start), ParseBound(end))
    case (Some(s), Some(e)) => Instant(e) - Instant(s)
    case _ => 0
  }

  /** The server answers 413 only to a request for at least two seconds:
      then each split narrows the range. */
  predicate NarrowFitsAt(fetch: TellusQuery -> Response, q: TellusQuery)
  {
    fetch(q).status == 413 ==> Width(q) >= 2000000
  }

  ghost predicate NarrowFits(fetch: TellusQuery -> Response)
  {
    forall q: TellusQuery :: NarrowFitsAt(fetch, q)
  }

  /** The whole seconds from the start, cut to its second, to the end. */
  function Span(start: Bound, end: Bound): int
  {
    match (ParseBound(start), ParseBound(end))
    case (Some(s), Some(e)) => SpanOf(Instant(s), Instant(e))
    case _ => 0
  }

  function SpanOf(a: int, b: int): int
  {
    (b - a / 1000000 * 1000000) / 1000000
  }

  /** When the server answers 413 only to ranges of two seconds or more,
      the bisection ends: fuel above the range's span in seconds is enough
      for the run to finish, with data or a failure. */
  lemma {:induction false} NarrowTerminates(fetch: TellusQuery -> Response, client: TellusClient,
                                            devices: seq<string>, metrics: seq<string>,
                                            start: Bound, end: Bound, fuel: nat)
    requires NarrowFits(fetch) && WellFormed(start) && WellFormed(end)
    requires fuel > 0 && fuel > Span(start, end)
    ensures !RetrieveRange(fetch, client, devices, metrics, start, end, fuel).outcome.OutOfFuel?
    decreases fuel
  {
    var q := QueryFor(client, devices, metrics, start, end);
    if fetch(q).status == 413 && SplitPoint(start, end).Success? {
      var m := SplitPoint(start, end).value;
      NarrowStep(fetch, client, devices, metrics, start, end, fuel);
      NarrowTerminates(fetch, client, devices, metrics, start, m, fuel - 1);
      if RetrieveRange(fetch, client, devices, metrics, start, m, fuel - 1).outcome.Done? {
        NarrowTerminates(fetch, client, devices, metrics, m, end, fuel - 1);
      }
      SplitOutcome(fetch, client, devices, metrics, start, end, fuel);
    } else {
      UnsplitOutcome(fetch, client, devices, metrics, start, end, fuel);
    }
  }

  /** Under a narrow server, a split leaves each half a span below the fuel
      that remains. */
  lemma NarrowStep(fetch: TellusQuery -> Response, client: TellusClient, devices: seq<string>, metrics: seq<string>,
                   start: Bound, end: Bound, fuel: nat)
    requires NarrowFits(fetch) && WellFormed(start) && WellFormed(end) && fuel > Span(start, end)
    requires fetch(QueryFor(client, devices, metrics, start, end)).status == 413 && SplitPoint(start, end).Success?
    ensures var m := SplitPoint(start, end).value;
      fuel > 1 && fuel - 1 > Span(start, m) && fuel - 1 > Span(m, end)
  {
    assert NarrowFitsAt(fetch, QueryFor(client, devices, metrics, start, end));
    SplitNarrows(start, end);
  }

  /** Splitting a range of two seconds or more gives two halves that each
      span fewer seconds. */
  lemma SplitNarrows(start: Bound, end: Bound)
    requires WellFormed(start) && WellFormed(end) && SplitPoint(start, end).Success?
    requires WidthOf(start, end) >= 2000000
    ensures var m := SplitPoint(start, end).value;
      Span(start, m) < Span(start, end) && Span(m, end) < Span(start, end)
  {
    var m := SplitPoint(start, end).value;
    var s, e := ParseBound(start).value, ParseBound(end).value;
    var a, b, c := Instant(s), Instant(e), Instant(ParseBound(m).value);
    SpanStep(a, b, c);
    assert Span(start, m) == SpanOf(a, c);
    assert Span(m, end) == SpanOf(c, b);
  }

  /** Both halves of a range of two seconds or more span at least one
      second less than the range. */
  lemma SpanStep(a: int, b: int, m: int)
    requires b - a >= 2000000 && m == (a + b) / 2000000 * 1000000
    ensures SpanOf(a, m) < SpanOf(a, b) && SpanOf(m, b) < SpanOf(a, b)
  {
    Halving(a, b);
    var k := a / 1000000 * 1000000;
    assert m / 1000000 * 1000000 == m;
    assert m <= b - 1000000;
    assert m - k <= b - k - 1000000;
    assert (m - k) / 1000000 <= (b - k - 1000000) / 1000000;
    assert (b - k - 1000000) / 1000000 == (b - k) / 1000000 - 1;
    assert b - m <= b - k - 1000000;
    assert (b - m) / 1000000 <= (b - k - 1000000) / 1000000;
  }
  /** Whether both bounds read and the instant `t` (in microseconds) lies
      between them, ends included. */
  predicate Covers(start: Bound, end: Bound, t: int)
  {
    ParseBound(start).Some? && ParseBound(end).Some?
    && Instant(ParseBound(start).value) <= t <= Instant(ParseBound(end).value)
  }

  /** A server backed by the record list `data`, where `at` gives each
      record's instant: a range that holds a record of `data` is never
      refused with 403, and a 200 for it carries that record. */
  predicate BackedAt(fetch: TellusQuery -> Response, data: seq<Record>, at: Record -> int, q: TellusQuery, x: Record)
  {
    (x in data && Covers(q.start, q.end, at(x))) ==>
      fetch(q).status != 403 && (fetch(q).status == 200 ==> x in fetch(q).records)
  }

  ghost predicate Backed(fetch: TellusQuery -> Response, data: seq<Record>, at: Record -> int)
  {
    forall q: TellusQuery, x: Record :: BackedAt(fetch, data, at, q, x)
  }

  /** The retrieval misses nothing: when it finishes with data, that data is
      a frame holding every record the server has in the range, however
      often the range was split on the way. */
  lemma {:induction false} CompleteRetrieval(fetch: TellusQuery -> Response, client: TellusClient,
                                             devices: seq<string>, metrics: seq<string>,
                                             data: seq<Record>, at: Record -> int,
                                             start: Bound, end: Bound, fuel: nat)
    requires Backed(fetch, data, at) && WellFormed(start) && WellFormed(end)
    ensures var r := RetrieveRange(fetch, client, devices, metrics, start, end, fuel).outcome;
      r.Done? ==> forall x :: x in data && Covers(start, end, at(x)) ==> r.value.Some? && x in r.value.value
    decreases fuel
  {
    if fuel > 0 {
      var q := QueryFor(client, devices, metrics, start, end);
      if fetch(q).status == 413 && SplitPoint(start, end).Success? {
        var m := SplitPoint(start, end).value;
        CompleteRetrieval(fetch, client, devices, metrics, data, at, start, m, fuel - 1);
        CompleteRetrieval(fetch, client, devices, metrics, data, at, m, end, fuel - 1);
        SplitOutcome(fetch, client, devices, metrics, start, end, fuel);
        if RetrieveRange(fetch, client, devices, metrics, start, m, fuel - 1).outcome.Done?
           && RetrieveRange(fetch, client, devices, metrics, m, end, fuel - 1).outcome.Done? {
          HalvesComplete(fetch, client, devices, metrics, data, at, start, end, fuel);
        }
      } else {
        forall x | x in data && Covers(start, end, at(x))
          ensures fetch(q).status != 403 && (fetch(q).status == 200 ==> x in fetch(q).records)
        {
          assert BackedAt(fetch, data, at, q, x);
        }
      }
    }
  }

  /** The step of `CompleteRetrieval` at a split: a record of the range lies
      in the left half or the right one, so it is in their concatenation. */
  lemma HalvesComplete(fetch: TellusQuery -> Response, client: TellusClient,
                       devices: seq<string>, metrics: seq<string>,
                       data: seq<Record>, at: Record -> int,
                       start: Bound, end: Bound, fuel: nat)
    requires fuel > 0 && WellFormed(start) && WellFormed(end)
    requires fetch(QueryFor(client, devices, metrics, start, end)).status == 413 && SplitPoint(start, end).Success?
    requires var m := SplitPoint(start, end).value;
      var left := RetrieveRange(fetch, client, devices, metrics, start, m, fuel - 1).outcome;
      var right := RetrieveRange(fetch, client, devices, metrics, m, end, fuel - 1).outcome;
      && left.Done? && right.Done?
      && (forall x :: x in data && Covers(start, m, at(x)) ==> left.value.Some? && x in left.value.value)
      && (forall x :: x in data && Covers(m, end, at(x)) ==> right.value.Some? && x in right.value.value)
    ensures var r := RetrieveRange(fetch, client, devices, metrics, start, end, fuel).outcome;
      forall x :: x in data && Covers(start, end, at(x)) ==> r.Done? && r.value.Some? && x in r.value.value
  {
    var m := SplitPoint(start, end).value;
    var left := RetrieveRange(fetch, client, devices, metrics, start, m, fuel - 1).outcome;
    var right := RetrieveRange(fetch, client, devices, metrics, m, end, fuel - 1).outcome;
    TooLargeSplits(fetch, client, devices, metrics, start, end, fuel);
    var r := RetrieveRange(fetch, client, devices, metrics, start, end, fuel).outcome;
    forall x | x in data && Covers(start, end, at(x))
      ensures r.Done? && r.value.Some? && x in r.value.value
    {
      if at(x) <= Instant(ParseBound(m).value) {
        assert Covers(start, m, at(x));
      } else {
        assert Covers(m, end, at(x));
      }
    }
  }
}
