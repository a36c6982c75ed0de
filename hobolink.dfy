/** The HoboLINK client's retrieval: one request per call; a page that comes
    back at the record cap is followed by a request that starts one second
    after the page's latest timestamp, and the pages are concatenated. */
module HoboLink {
  import opened Common
  import opened Calendar
  import opened IsoTime
  import opened HoboLinkUtils

  const BaseUrl: string := "https://webservice.hobolink.com/ws/data/file/JSON/user"

  datatype HoboLinkClient = HoboLinkClient(clientId: string, clientSecret: string, userId: string)

  /** A data request: the endpoint, the `loggers` parameter, and the start
      and end as wall-clock seconds (see `Calendar.WallSeconds`); the query
      strings are their renderings (`StartDateTime`, `EndDateTime`), which
      determine them. */
  datatype HoboRequest = HoboRequest(endpoint: string, loggers: string, start: int, end: int)

  /** The `start_date_time` parameter. */
  function StartDateTime(q: HoboRequest): string
    requires InRange(q.start)
  {
    FormatWall(AtSecond(q.start))
  }

  /** The `end_date_time` parameter. */
  function EndDateTime(q: HoboRequest): string
    requires InRange(q.end)
  {
    FormatWall(AtSecond(q.end))
  }

  function Endpoint(client: HoboLinkClient): string
  {
    BaseUrl + "/" + client.userId
  }

  /** The start of the request that follows a capped page: the page's latest
      timestamp plus one second as `%Y-%m-%dT%H:%M:%S%z`; `None` when that
      second is past the end of year 9999. */
  function ContinuationStart(page: seq<Record>): (r: Option<string>)
    requires page != []
    ensures r.Some? <==> InRange(MaxTimestamp(page) + 1)
    ensures r.Some? ==> ParseIso(r.value) == Some(AtSecond(MaxTimestamp(page) + 1))
  {
    SecondText(MaxTimestamp(page) + 1)
  }

  /** Second `n` as `%Y-%m-%dT%H:%M:%S%z`, when Python's `datetime` can hold
      it; the text reads back as that second. */
  function SecondText(n: int): (r: Option<string>)
    ensures r.Some? <==> InRange(n)
    ensures r.Some? ==> ParseIso(r.value) == Some(AtSecond(n))
  {
    if InRange(n) then Some(BasicOf(AtSecond(n))) else None
  }

  /** `strftime('%Y-%m-%dT%H:%M:%S%z')` of a whole-second, offset-free
      time, which reads back as that time. */
  function BasicOf(t: DateTime): (s: string)
    requires ValidDateTime(t) && t == NaiveSecond(t)
    ensures ParseIso(s) == Some(t)
  {
    ParseFormatIsoBasic(t);
    assert t.(micro := 0) == t;
    FormatIsoBasic(t)
  }

  /** `retrieve_data`, cut off after `fuel` nested requests: both times are
      parsed before anything is sent. */
  function RetrieveData(fetch: HoboRequest -> Response, client: HoboLinkClient,
                        startTime: string, endTime: string, loggerSn: string, fuel: nat)
    : Run<seq<Record>, HoboRequest>
  {
    if fuel == 0 then Run(OutOfFuel, [])
    else
      match (ParseIso(startTime), ParseIso(endTime))
      case (Some(s), Some(e)) => RetrieveFrom(fetch, client, WallSeconds(s), WallSeconds(e), loggerSn, fuel)
      case _ => Run(Fail(ParseError), [])
  }

  /** `retrieve_data` once its times are parsed, with the times as wall-clock
      seconds. The recursive call of the source formats the next start,
      passes the reformatted end, and parses both again;
      `ContinuationAsSource` proves that this gives the seconds it receives
      here. */
  function RetrieveFrom(fetch: HoboRequest -> Response, client: HoboLinkClient,
                        s: int, e: int, loggerSn: string, fuel: nat)
    : Run<seq<Record>, HoboRequest>
    decreases fuel
  {
    if fuel == 0 then Run(OutOfFuel, [])
    else
      var req := HoboRequest(Endpoint(client), loggerSn, s, e);
      var resp := fetch(req);
      if resp.status != 200 then Run(Fail(SysExit), [req])
      else if |resp.records| != RecordCap then Run(Done(resp.records), [req])
      else
        var next := MaxTimestamp(resp.records) + 1;
        if !InRange(next) then Run(Fail(OverflowError), [req])
        else
          var rest := RetrieveFrom(fetch, client, next, e, loggerSn, fuel - 1);
          Run(Prepend(resp.records, rest.outcome), [req] + rest.requests)
  }

  /** The request `RetrieveFrom` sends first. */
  function RequestFor(client: HoboLinkClient, s: int, e: int, loggerSn: string): (q: HoboRequest)
    ensures q.endpoint == BaseUrl + "/" + client.userId && q.loggers == loggerSn
    ensures q.start == s && q.end == e
  {
    HoboRequest(Endpoint(client), loggerSn, s, e)
  }

  /** A request is determined by its endpoint and query strings: the
      rendering of its times loses nothing. */
  lemma QueryDeterminesRequest(a: HoboRequest, b: HoboRequest)
    requires InRange(a.start) && InRange(a.end) && InRange(b.start) && InRange(b.end)
    requires a.endpoint == b.endpoint && a.loggers == b.loggers
    requires StartDateTime(a) == StartDateTime(b) && EndDateTime(a) == EndDateTime(b)
    ensures a == b
  {
    ParseFormatWall(AtSecond(a.start));
    ParseFormatWall(AtSecond(b.start));
    ParseFormatWall(AtSecond(a.end));
    ParseFormatWall(AtSecond(b.end));
  }

  /** `RetrieveData` on strings that parse to the wall-clock seconds `s` and
      `e` is `RetrieveFrom` on `s` and `e`: with `ContinuationStart`'s contract and
      `ParseRenderedSecond`, the source's recursive call
      `retrieve_data(new_start, end_time, ...)` is `RetrieveFrom`'s. */
  lemma ContinuationAsSource(fetch: HoboRequest -> Response, client: HoboLinkClient,
                             startTime: string, endTime: string, loggerSn: string, fuel: nat, s: int, e: int)
    requires ParseIso(startTime).Some? && ParseIso(endTime).Some?
    requires WallSeconds(ParseIso(startTime).value) == s && WallSeconds(ParseIso(endTime).value) == e
    ensures RetrieveData(fetch, client, startTime, endTime, loggerSn, fuel)
        == RetrieveFrom(fetch, client, s, e, loggerSn, fuel)
  {
  }

  /** A start or end time that does not parse fails before any request;
      otherwise the first request goes to the user's endpoint for the logger,
      and its times are the given times' wall-clock seconds. */
  lemma FirstRequestSent(fetch: HoboRequest -> Response, client: HoboLinkClient,
                         startTime: string, endTime: string, loggerSn: string, fuel: nat)
    requires fuel > 0
    ensures var r := RetrieveData(fetch, client, startTime, endTime, loggerSn, fuel);
      if ParseIso(startTime).None? || ParseIso(endTime).None? then r == Run(Fail(ParseError), [])
      else
        && r.requests != []
        && r.requests[0].endpoint == BaseUrl + "/" + client.userId
        && r.requests[0].loggers == loggerSn
        && r.requests[0].start == WallSeconds(ParseIso(startTime).value)
        && r.requests[0].end == WallSeconds(ParseIso(endTime).value)
  {
  }

  /** The first request's query strings are the given times reformatted by
      `time_formatter_hobolink`. */
  lemma FirstRequestQuery(fetch: HoboRequest -> Response, client: HoboLinkClient,
                          startTime: string, endTime: string, loggerSn: string, fuel: nat)
    requires fuel > 0 && ParseIso(startTime).Some? && ParseIso(endTime).Some?
    ensures var r := RetrieveData(fetch, client, startTime, endTime, loggerSn, fuel);
      && r.requests != []
      && InRange(r.requests[0].start) && InRange(r.requests[0].end)
      && StartDateTime(r.requests[0]) == TimeFormatterHobolink(startTime).value
      && EndDateTime(r.requests[0]) == TimeFormatterHobolink(endTime).value
  {
    FirstRequestSent(fetch, client, startTime, endTime, loggerSn, fuel);
    Rendered(ParseIso(startTime).value);
    Rendered(ParseIso(endTime).value);
  }

  /** Rendering the wall-clock second of a date-time gives the date-time's
      own rendering. */
  lemma Rendered(t: DateTime)
    requires ValidDateTime(t)
    ensures FormatWall(AtSecond(WallSeconds(t))) == FormatWall(t)
  {
    FromWallSecondsOf(t);
  }

  /** A non-200 response ends the run with `sys.exit(1)` and no data. */
  lemma ErrorStatusExits(fetch: HoboRequest -> Response, client: HoboLinkClient,
                         s: int, e: int, loggerSn: string, fuel: nat)
    requires fuel > 0
    requires fetch(RequestFor(client, s, e, loggerSn)).status != 200
    ensures RetrieveFrom(fetch, client, s, e, loggerSn, fuel) == Run(Fail(SysExit), [RequestFor(client, s, e, loggerSn)])
  {
  }

  /** A page under the cap is returned as it is, after exactly one request. */
  lemma UncappedSingleRequest(fetch: HoboRequest -> Response, client: HoboLinkClient,
                              s: int, e: int, loggerSn: string, fuel: nat)
    requires fuel > 0
    requires var resp := fetch(RequestFor(client, s, e, loggerSn));
      resp.status == 200 && |resp.records| != RecordCap
    ensures var req := RequestFor(client, s, e, loggerSn);
      RetrieveFrom(fetch, client, s, e, loggerSn, fuel) == Run(Done(fetch(req).records), [req])
  {
  }

  /** A capped page is followed by a request that starts one second after
      the page's latest timestamp and keeps the end and the logger, and the
      result is the page followed by what that request's retrieval returns.
      A latest timestamp in the last second of year 9999 fails with an
      overflow. */
  lemma CappedContinues(fetch: HoboRequest -> Response, client: HoboLinkClient,
                        s: int, e: int, loggerSn: string, fuel: nat)
    requires fuel > 0
    requires var resp := fetch(RequestFor(client, s, e, loggerSn));
      resp.status == 200 && |resp.records| == RecordCap
    ensures var req := RequestFor(client, s, e, loggerSn);
      var page := fetch(req).records;
      var r := RetrieveFrom(fetch, client, s, e, loggerSn, fuel);
      if !InRange(MaxTimestamp(page) + 1) then r == Run(Fail(OverflowError), [req])
      else
        var rest := RetrieveFrom(fetch, client, MaxTimestamp(page) + 1, e, loggerSn, fuel - 1);
        && r.requests == [req] + rest.requests
        && (r.outcome.Done? <==> rest.outcome.Done?)
        && (r.outcome.Done? ==> r.outcome.value == page + rest.outcome.value)
  {
  }

  /** The server answers `q` honestly: a 200 response holds only records
      between the request's start and end. */
  predicate HonestAt(fetch: HoboRequest -> Response, q: HoboRequest)
  {
    fetch(q).status == 200 ==> AllWithin(fetch(q).records, q.start, q.end)
  }

  ghost predicate Honest(fetch: HoboRequest -> Response)
  {
    forall q: HoboRequest :: HonestAt(fetch, q)
  }

  /** With an honest server, every returned record lies between the start
      and end times. */
  lemma {:induction false} HonestWithinRange(fetch: HoboRequest -> Response, client: HoboLinkClient,
                                             s: int, e: int, loggerSn: string, fuel: nat)
    requires Honest(fetch)
    ensures var r := RetrieveFrom(fetch, client, s, e, loggerSn, fuel);
      r.outcome.Done? ==> AllWithin(r.outcome.value, s, e)
    decreases fuel
  {
    if fuel > 0 {
      var req := RequestFor(client, s, e, loggerSn);
      var page := fetch(req).records;
      assert HonestAt(fetch, req);
      if fetch(req).status == 200 && |page| == RecordCap && InRange(MaxTimestamp(page) + 1) {
        var next := MaxTimestamp(page) + 1;
        HonestWithinRange(fetch, client, next, e, loggerSn, fuel - 1);
        var rest := RetrieveFrom(fetch, client, next, e, loggerSn, fuel - 1);
        if rest.outcome.Done? {
          assert page[0].timestamp <= MaxTimestamp(page);
          AllWithinConcat(page, rest.outcome.value, s, e);
        }
      }
    }
  }

  /** With an honest server, the records of a capped page all come before
      the records fetched after it: the continuation neither repeats nor
      reorders records. */
  lemma HonestPagesAscend(fetch: HoboRequest -> Response, client: HoboLinkClient,
                          s: int, e: int, loggerSn: string, fuel: nat)
    requires Honest(fetch) && fuel > 0
    requires var resp := fetch(RequestFor(client, s, e, loggerSn));
      resp.status == 200 && |resp.records| == RecordCap
    ensures var page := fetch(RequestFor(client, s, e, loggerSn)).records;
      var r := RetrieveFrom(fetch, client, s, e, loggerSn, fuel);
      r.outcome.Done? ==>
        && |page| <= |r.outcome.value| && r.outcome.value[..|page|] == page
        && forall i, j :: 0 <= i < |page| <= j < |r.outcome.value| ==>
             page[i].timestamp < r.outcome.value[j].timestamp
  {
    var req := RequestFor(client, s, e, loggerSn);
    var page := fetch(req).records;
    if InRange(MaxTimestamp(page) + 1) {
      var next := MaxTimestamp(page) + 1;
      HonestWithinRange(fetch, client, next, e, loggerSn, fuel - 1);
      var rest := RetrieveFrom(fetch, client, next, e, loggerSn, fuel - 1);
      var r := RetrieveFrom(fetch, client, s, e, loggerSn, fuel);
      if r.outcome.Done? {
        var all := r.outcome.value;
        assert all == page + rest.outcome.value;
        assert all[..|page|] == page;
        forall i, j | 0 <= i < |page| <= j < |all|
          ensures page[i].timestamp < all[j].timestamp
        {
          assert all[j] == rest.outcome.value[j - |page|];
          assert page[i].timestamp <= MaxTimestamp(page);
        }
      }
    }
  }

  /** With an honest server the recursion ends: fuel one more than the span
      in seconds is enough for the run to finish, with data or a failure. */
  lemma {:induction false} HonestTerminates(fetch: HoboRequest -> Response, client: HoboLinkClient,
                                            s: int, e: int, loggerSn: string, fuel: nat)
    requires Honest(fetch) && fuel > 0 && fuel > e - s + 1
    ensures !RetrieveFrom(fetch, client, s, e, loggerSn, fuel).outcome.OutOfFuel?
    decreases fuel
  {
    var req := RequestFor(client, s, e, loggerSn);
    var page := fetch(req).records;
    assert HonestAt(fetch, req);
    if fetch(req).status == 200 && |page| == RecordCap && InRange(MaxTimestamp(page) + 1) {
      assert page[0].timestamp <= MaxTimestamp(page);
      HonestTerminates(fetch, client, MaxTimestamp(page) + 1, e, loggerSn, fuel - 1);
    }
  }

  /** A server that always answers with a full page keeps the client asking:
      no amount of fuel produces data. */
  lemma {:induction false} AlwaysCappedNeverDone(fetch: HoboRequest -> Response, client: HoboLinkClient,
                                                 s: int, e: int, loggerSn: string, fuel: nat)
    requires forall q: HoboRequest :: fetch(q).status == 200 && |fetch(q).records| == RecordCap
    ensures !RetrieveFrom(fetch, client, s, e, loggerSn, fuel).outcome.Done?
    decreases fuel
  {
    if fuel > 0 {
      var page := fetch(RequestFor(client, s, e, loggerSn)).records;
      if InRange(MaxTimestamp(page) + 1) {
        AlwaysCappedNeverDone(fetch, client, MaxTimestamp(page) + 1, e, loggerSn, fuel - 1);
      }
    }
  }
  /** A full page of records all stamped second 100. */
  function FullSecond(): (page: seq<Record>)
    ensures |page| == RecordCap
    ensures forall k :: 0 <= k < |page| ==> page[k] == Record(100, [])
  {
    seq(RecordCap, k => Record(100, []))
  }

  /** One more record at second 100, which no full page has room for. */
  function Straggler(): Record
  {
    Record(100, [("value", "1")])
  }

  /** A server holding `FullSecond() + [Straggler()]`, all at second 100,
      that answers a range holding that second with the first `RecordCap`
      of them and any other range with none. */
  function BoundaryServer(q: HoboRequest): Response
  {
    if q.start <= 100 <= q.end then Response(200, (FullSecond() + [Straggler()])[..RecordCap])
    else Response(200, [])
  }

  /** The continuation after a capped page starts one second past the
      page's latest timestamp, so records of that second the page had no
      room for are never asked for: on `BoundaryServer` the run finishes
      with data that lacks `Straggler()`, a record of the server inside the
      requested range. */
  lemma BoundarySecondLost(client: HoboLinkClient, loggerSn: string)
    ensures Straggler() in FullSecond() + [Straggler()] && 0 <= Straggler().timestamp <= 200
    ensures var r := RetrieveFrom(BoundaryServer, client, 0, 200, loggerSn, 5);
      r.outcome.Done? && Straggler() !in r.outcome.value
  {
    var page := FullSecond();
    assert (page + [Straggler()])[..RecordCap] == page;
    assert BoundaryServer(RequestFor(client, 0, 200, loggerSn)).records == page;
    assert MaxTimestamp(page) == 100;
    assert BoundaryServer(RequestFor(client, 101, 200, loggerSn)) == Response(200, []);
    var r := RetrieveFrom(BoundaryServer, client, 0, 200, loggerSn, 5);
    assert r.outcome == Done(page + []);
    assert page + [] == page;
  }

  /** A server backed by the record list `data` whose capped pages end on a
      whole second: a 200 page holds every record of `data` from the
      requested start to the requested end, or, when capped, to the page's
      latest second. This is what continuing at the next second takes for
      granted. */
  predicate WholeSecondsAt(fetch: HoboRequest -> Response, data: seq<Record>, q: HoboRequest, x: Record)
  {
    (fetch(q).status == 200 && x in data && q.start <= x.timestamp) ==>
      if |fetch(q).records| != RecordCap then (x.timestamp <= q.end ==> x in fetch(q).records)
      else (x.timestamp <= MaxTimestamp(fetch(q).records) ==> x in fetch(q).records)
  }

  ghost predicate WholeSeconds(fetch: HoboRequest -> Response, data: seq<Record>)
  {
    forall q: HoboRequest, x: Record :: WholeSecondsAt(fetch, data, q, x)
  }

  /** When capped pages end on a whole second, the retrieval misses
      nothing: data it finishes with holds every record of the server
      between the start and end times. */
  lemma {:induction false} CompleteWhenSecondsWhole(fetch: HoboRequest -> Response, client: HoboLinkClient,
                                                    data: seq<Record>, s: int, e: int, loggerSn: string, fuel: nat)
    requires WholeSeconds(fetch, data)
    ensures var r := RetrieveFrom(fetch, client, s, e, loggerSn, fuel);
      r.outcome.Done? ==> forall x :: x in data && s <= x.timestamp <= e ==> x in r.outcome.value
    decreases fuel
  {
    if fuel > 0 {
      var req := RequestFor(client, s, e, loggerSn);
      var page := fetch(req).records;
      if fetch(req).status == 200 && |page| != RecordCap {
        forall x | x in data && s <= x.timestamp <= e
          ensures x in page
        {
          assert WholeSecondsAt(fetch, data, req, x);
        }
      } else if fetch(req).status == 200 && InRange(MaxTimestamp(page) + 1) {
        var next := MaxTimestamp(page) + 1;
        CompleteWhenSecondsWhole(fetch, client, data, next, e, loggerSn, fuel - 1);
        var rest := RetrieveFrom(fetch, client, next, e, loggerSn, fuel - 1);
        if rest.outcome.Done? {
          var all := page + rest.outcome.value;
          assert RetrieveFrom(fetch, client, s, e, loggerSn, fuel).outcome.value == all;
          forall x | x in data && s <= x.timestamp <= e
            ensures x in all
          {
            assert WholeSecondsAt(fetch, data, req, x);
            if x.timestamp < next {
              assert x in page;
            } else {
              assert x in rest.outcome.value;
            }
          }
        }
      }
    }
  }
}
