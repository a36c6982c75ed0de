/** The LI-COR client's retrieval: both times are rewritten as naive
    wall-clock strings; a page that comes back at the record cap is thrown
    away, the range is split at its midpoint, and the two halves are
    fetched left first and concatenated. */
module Licor {
  import opened Common
  import opened Calendar
  import opened IsoTime

  const BaseUrl: string := "https://api.licor.cloud/v1/data"

  datatype LicorClient = LicorClient(apiKey: string)

  /** A data request: the comma-joined `loggers` parameter, and the start
      and end as wall-clock seconds; the query strings are their renderings
      (`StartDateTime`, `EndDateTime`). */
  datatype LicorRequest = LicorRequest(url: string, loggers: string, start: int, end: int)

  /** The `start_date_time` parameter. */
  function StartDateTime(q: LicorRequest): string
    requires InRange(q.start)
  {
    FormatWall(AtSecond(q.start))
  }

  /** The `end_date_time` parameter. */
  function EndDateTime(q: LicorRequest): string
    requires InRange(q.end)
  {
    FormatWall(AtSecond(q.end))
  }

  /** The request for a range. */
  function RequestFor(devices: seq<string>, s: int, e: int): (q: LicorRequest)
    ensures q.url == BaseUrl && q.loggers == Join(devices, ',') && q.start == s && q.end == e
  {
    LicorRequest(BaseUrl, Join(devices, ','), s, e)
  }

  /** `start_dt + (end_dt - start_dt) / 2` on naive times, written with
      `%Y-%m-%d %H:%M:%S`: the mean of the two seconds, cut to the second
      (rounded down, as writing a time with a fraction of a second does). */
  function Midpoint(s: int, e: int): (m: int)
    ensures s <= e ==> s <= m <= e
    ensures e - s >= 2 ==> s < m < e
    ensures 2 * m <= s + e < 2 * m + 2
  {
    (s + e) / 2
  }

  /** `retrieve_data`, cut off after `fuel` nested requests: both times are
      parsed with `fromisoformat` before anything is sent. */
  function RetrieveData(fetch: LicorRequest -> Response, client: LicorClient,
                        startTime: string, endTime: string, devices: seq<string>, fuel: nat)
    : Run<seq<Record>, LicorRequest>
  {
    if fuel == 0 then Run(OutOfFuel, [])
    else
      match (ParseIso(startTime), ParseIso(endTime))
      case (Some(s), Some(e)) => RetrieveFrom(fetch, devices, WallSeconds(s), WallSeconds(e), fuel)
      case _ => Run(Fail(ParseError), [])
  }

  /** `retrieve_data` once its times are parsed, on wall-clock seconds. A
      capped page is dropped; the left half is retrieved to its end before
      the right half is requested, so a failure there stops the run. */
  function RetrieveFrom(fetch: LicorRequest -> Response, devices: seq<string>, s: int, e: int, fuel: nat)
    : Run<seq<Record>, LicorRequest>
    decreases fuel
  {
    if fuel == 0 then Run(OutOfFuel, [])
    else
      var q := RequestFor(devices, s, e);
      var resp := fetch(q);
      if resp.status != 200 then Run(Fail(SysExit), [q])
      else if |resp.records| != RecordCap then Run(Done(resp.records), [q])
      else
        var m := Midpoint(s, e);
        var left := RetrieveFrom(fetch, devices, s, m, fuel - 1);
        if !left.outcome.Done? then Run(left.outcome, [q] + left.requests)
        else
          var right := RetrieveFrom(fetch, devices, m, e, fuel - 1);
          Run(Prepend(left.outcome.value, right.outcome), [q] + left.requests + right.requests)
  }

  /** `RetrieveData` on strings that parse to the wall-clock seconds `s` and
      `e` is `RetrieveFrom` on `s` and `e`. The source's recursive calls
      pass the reformatted start or end and the formatted midpoint, which
      read back as their seconds (`IsoTime.ParseRenderedSecond`), so they are
      `RetrieveFrom`'s. */
  lemma RecursiveCallAsSource(fetch: LicorRequest -> Response, client: LicorClient,
                              startTime: string, endTime: string, devices: seq<string>, fuel: nat, s: int, e: int)
    requires ParseIso(startTime).Some? && ParseIso(endTime).Some?
    requires WallSeconds(ParseIso(startTime).value) == s && WallSeconds(ParseIso(endTime).value) == e
    ensures RetrieveData(fetch, client, startTime, endTime, devices, fuel) == RetrieveFrom(fetch, devices, s, e, fuel)
  {
  }

  /** A start or end time that does not parse fails before any request;
      otherwise the first request names the devices as one comma-joined
      `loggers` parameter and carries the times' wall-clock seconds. */
  lemma FirstRequestSent(fetch: LicorRequest -> Response, client: LicorClient,
                         startTime: string, endTime: string, devices: seq<string>, fuel: nat)
    requires fuel > 0
    ensures var r := RetrieveData(fetch, client, startTime, endTime, devices, fuel);
      if ParseIso(startTime).None? || ParseIso(endTime).None? then r == Run(Fail(ParseError), [])
      else
        && r.requests != []
        && r.requests[0].loggers == Join(devices, ',')
        && r.requests[0].start == WallSeconds(ParseIso(startTime).value)
        && r.requests[0].end == WallSeconds(ParseIso(endTime).value)
  {
  }

  /** The first request's query strings are the given times rewritten as
      naive `YYYY-MM-DD HH:MM:SS`: the offset and the fraction are dropped. */
  lemma FirstRequestQuery(fetch: LicorRequest -> Response, client: LicorClient,
                          startTime: string, endTime: string, devices: seq<string>, fuel: nat)
    requires fuel > 0 && ParseIso(startTime).Some? && ParseIso(endTime).Some?
    ensures var r := RetrieveData(fetch, client, startTime, endTime, devices, fuel);
      && r.requests != []
      && InRange(r.requests[0].start) && InRange(r.requests[0].end)
      && StartDateTime(r.requests[0]) == FormatWall(ParseIso(startTime).value)
      && EndDateTime(r.requests[0]) == FormatWall(ParseIso(endTime).value)
  {
    FirstRequestSent(fetch, client, startTime, endTime, devices, fuel);
    FromWallSecondsOf(ParseIso(startTime).value);
    FromWallSecondsOf(ParseIso(endTime).value);
  }

  /** A non-200 response ends the run with `sys.exit(1)` and no data. */
  lemma ErrorStatusExits(fetch: LicorRequest -> Response, devices: seq<string>, s: int, e: int, fuel: nat)
    requires fuel > 0 && fetch(RequestFor(devices, s, e)).status != 200
    ensures RetrieveFrom(fetch, devices, s, e, fuel) == Run(Fail(SysExit), [RequestFor(devices, s, e)])
  {
  }

  /** A page under the cap is returned as it is, after exactly one request. */
  lemma UncappedSingleRequest(fetch: LicorRequest -> Response, devices: seq<string>, s: int, e: int, fuel: nat)
    requires fuel > 0
    requires var resp := fetch(RequestFor(devices, s, e));
      resp.status == 200 && |resp.records| != RecordCap
    ensures var q := RequestFor(devices, s, e);
      RetrieveFrom(fetch, devices, s, e, fuel) == Run(Done(fetch(q).records), [q])
  {
  }

  /** A capped page is thrown away: the range is split at the midpoint, the
      left half `[start, mid]` is requested first and the right half
      `[mid, end]` after it, with the same devices, and the result is the
      left half's records followed by the right half's. */
  lemma CappedSplits(fetch: LicorRequest -> Response, devices: seq<string>, s: int, e: int, fuel: nat)
    requires fuel > 0
    requires var resp := fetch(RequestFor(devices, s, e));
      resp.status == 200 && |resp.records| == RecordCap
    ensures var q := RequestFor(devices, s, e);
      var m := Midpoint(s, e);
      var r := RetrieveFrom(fetch, devices, s, e, fuel);
      var left := RetrieveFrom(fetch, devices, s, m, fuel - 1);
      var right := RetrieveFrom(fetch, devices, m, e, fuel - 1);
      && (!left.outcome.Done? ==> r == Run(left.outcome, [q] + left.requests))
      && (left.outcome.Done? ==> r.requests == [q] + left.requests + right.requests)
      && (r.outcome.Done? <==> left.outcome.Done? && right.outcome.Done?)
      && (r.outcome.Done? ==> r.outcome.value == left.outcome.value + right.outcome.value)
  {
  }

  /** The server answers `q` honestly: a 200 response holds only records
      between the request's start and end. */
  predicate HonestAt(fetch: LicorRequest -> Response, q: LicorRequest)
  {
    fetch(q).status == 200 ==> AllWithin(fetch(q).records, q.start, q.end)
  }

  ghost predicate Honest(fetch: LicorRequest -> Response)
  {
    forall q: LicorRequest :: HonestAt(fetch, q)
  }

  /** With an honest server and a start no later than the end, every
      returned record lies between the start and end. (With the start after
      the end the right half `[mid, end]` is not empty and its records can
      fall outside.) */
  lemma {:induction false} HonestWithinRange(fetch: LicorRequest -> Response, devices: seq<string>, s: int, e: int, fuel: nat)
    requires Honest(fetch) && s <= e
    ensures var r := RetrieveFrom(fetch, devices, s, e, fuel);
      r.outcome.Done? ==> AllWithin(r.outcome.value, s, e)
    decreases fuel
  {
    if fuel > 0 {
      var q := RequestFor(devices, s, e);
      assert HonestAt(fetch, q);
      if fetch(q).status == 200 && |fetch(q).records| == RecordCap {
        var m := Midpoint(s, e);
        HonestWithinRange(fetch, devices, s, m, fuel - 1);
        HonestWithinRange(fetch, devices, m, e, fuel - 1);
        var left := RetrieveFrom(fetch, devices, s, m, fuel - 1);
        var right := RetrieveFrom(fetch, devices, m, e, fuel - 1);
        if left.outcome.Done? && right.outcome.Done? {
          AllWithinWiden(left.outcome.value, s, m, s, e);
          AllWithinWiden(right.outcome.value, m, e, s, e);
          AllWithinConcat(left.outcome.value, right.outcome.value, s, e);
        }
      }
    }
  }

  /** Records within `[lo, hi]` lie within any range around it. */
  lemma AllWithinWiden(records: seq<Record>, lo: int, hi: int, lo2: int, hi2: int)
    requires AllWithin(records, lo, hi) && lo2 <= lo && hi <= hi2
    ensures AllWithin(records, lo2, hi2)
  {
  }

  /** With an honest server and a start no later than the end, a capped page
      is replaced by records in order: those of the left half up to the
      midpoint, then those of the right half from it. */
  lemma HonestHalvesOrdered(fetch: LicorRequest -> Response, devices: seq<string>, s: int, e: int, fuel: nat)
    requires Honest(fetch) && fuel > 0 && s <= e
    requires var resp := fetch(RequestFor(devices, s, e));
      resp.status == 200 && |resp.records| == RecordCap
    ensures var m := Midpoint(s, e);
      var left := RetrieveFrom(fetch, devices, s, m, fuel - 1);
      var right := RetrieveFrom(fetch, devices, m, e, fuel - 1);
      var r := RetrieveFrom(fetch, devices, s, e, fuel);
      r.outcome.Done? ==>
        && r.outcome.value == left.outcome.value + right.outcome.value
        && AllWithin(left.outcome.value, s, m) && AllWithin(right.outcome.value, m, e)
  {
    var m := Midpoint(s, e);
    HonestWithinRange(fetch, devices, s, m, fuel - 1);
    HonestWithinRange(fetch, devices, m, e, fuel - 1);
  }

  /** A range of one second splits into itself: its midpoint is its start,
      so the right half is the same request again. */
  lemma OneSecondSplitsToItself(s: int)
    ensures Midpoint(s, s + 1) == s
  {
  }

  /** A server that caps a one-second range keeps the client asking for it:
      no amount of fuel produces data. */
  lemma {:induction false} CappedSecondNeverDone(fetch: LicorRequest -> Response, devices: seq<string>, s: int, fuel: nat)
    requires var resp := fetch(RequestFor(devices, s, s + 1));
      resp.status == 200 && |resp.records| == RecordCap
    ensures !RetrieveFrom(fetch, devices, s, s + 1, fuel).outcome.Done?
    decreases fuel
  {
    if fuel > 0 {
      assert Midpoint(s, s + 1) == s;
      CappedSecondNeverDone(fetch, devices, s, fuel - 1);
    }
  }

  /** The server caps only ranges of at least two seconds. */
  predicate NarrowFitsAt(fetch: LicorRequest -> Response, q: LicorRequest)
  {
    fetch(q).status == 200 && |fetch(q).records| == RecordCap ==> q.end - q.start >= 2
  }

  ghost predicate NarrowFits(fetch: LicorRequest -> Response)
  {
    forall q: LicorRequest :: NarrowFitsAt(fetch, q)
  }

  /** When the server caps only ranges of two seconds or more, the
      bisection ends: fuel above the range's width in seconds is enough for
      the run to finish, with data or a failure. */
  lemma {:induction false} NarrowTerminates(fetch: LicorRequest -> Response, devices: seq<string>, s: int, e: int, fuel: nat)
    requires NarrowFits(fetch) && fuel > 0 && fuel > e - s
    ensures !RetrieveFrom(fetch, devices, s, e, fuel).outcome.OutOfFuel?
    decreases fuel
  {
    var q := RequestFor(devices, s, e);
    assert NarrowFitsAt(fetch, q);
    if fetch(q).status == 200 && |fetch(q).records| == RecordCap {
      var m := Midpoint(s, e);
      NarrowTerminates(fetch, devices, s, m, fuel - 1);
      if RetrieveFrom(fetch, devices, s, m, fuel - 1).outcome.Done? {
        NarrowTerminates(fetch, devices, m, e, fuel - 1);
      }
    }
  }
  /** A server backed by the record list `data`: every page it sends whole
      (status 200, below the cap) holds every record of `data` in the
      requested range. A capped page is discarded, so nothing is asked of it. */
  predicate BackedAt(fetch: LicorRequest -> Response, data: seq<Record>, q: LicorRequest, x: Record)
  {
    (fetch(q).status == 200 && |fetch(q).records| != RecordCap && x in data && q.start <= x.timestamp <= q.end) ==>
      x in fetch(q).records
  }

  ghost predicate Backed(fetch: LicorRequest -> Response, data: seq<Record>)
  {
    forall q: LicorRequest, x: Record :: BackedAt(fetch, data, q, x)
  }

  /** The retrieval misses nothing: when it finishes with data, that data
      holds every record the server has in `[s, e]`, however the range was
      bisected on the way. */
  lemma {:induction false} CompleteRetrieval(fetch: LicorRequest -> Response, devices: seq<string>, data: seq<Record>, s: int, e: int, fuel: nat)
    requires Backed(fetch, data)
    ensures var r := RetrieveFrom(fetch, devices, s, e, fuel);
      r.outcome.Done? ==> forall x :: x in data && s <= x.timestamp <= e ==> x in r.outcome.value
    decreases fuel
  {
    if fuel > 0 {
      var q := RequestFor(devices, s, e);
      var resp := fetch(q);
      if resp.status == 200 && |resp.records| != RecordCap {
        forall x | x in data && s <= x.timestamp <= e
          ensures x in resp.records
        {
          assert BackedAt(fetch, data, q, x);
        }
      } else if resp.status == 200 {
        var m := Midpoint(s, e);
        var left := RetrieveFrom(fetch, devices, s, m, fuel - 1);
        var right := RetrieveFrom(fetch, devices, m, e, fuel - 1);
        CompleteRetrieval(fetch, devices, data, s, m, fuel - 1);
        CompleteRetrieval(fetch, devices, data, m, e, fuel - 1);
        if left.outcome.Done? && right.outcome.Done? {
          var all := left.outcome.value + right.outcome.value;
          assert RetrieveFrom(fetch, devices, s, e, fuel).outcome.value == all;
          forall x | x in data && s <= x.timestamp <= e
            ensures x in all
          {
            if x.timestamp <= m {
              assert x in left.outcome.value;
            } else {
              assert x in right.outcome.value;
            }
          }
        }
      }
    }
  }
}
