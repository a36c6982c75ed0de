/** The TELLUS workflows: `retrieve_data_between_days` turns two day
    strings into a range from the first day's midnight to the last second
    of the second day at a fixed UTC offset, retrieves that range once per
    device, keeps the non-empty results and concatenates them; the nightly
    computation keeps the rows between 02:00 and 04:00. */
module TellusWorkflows {
  import opened Common
  import opened Calendar
  import opened IsoTime
  import opened Tellus
  import Utils

  /** `validate_date(s)`: the string is a "YYYY-MM-DD" date. */
  predicate ValidateDate(s: string)
  {
    ParseDate(s).Some?
  }

  /** The two bounds sent for every device, as `isoformat` writes them. */
  datatype DayRange = DayRange(startTime: string, endTime: string)

  /** The date-time at `hour:minute:second` of day `d`, at an offset of
      `delta` hours. */
  function AtOffset(d: Date, hour: int, minute: int, second: int, delta: int): (t: DateTime)
    requires ValidDate(d) && 0 <= hour < 24 && 0 <= minute < 60 && 0 <= second < 60 && -24 < delta < 24
    ensures ValidDateTime(t) && t.date == d && t.micro == 0 && t.offset == Some(delta * 60)
  {
    DateTime(d, hour, minute, second, 0, Some(delta * 60))
  }

  /** The range of `retrieve_data_between_days`: both days are validated
      first (ValueError, here ParseError); `datetime.timezone` refuses an
      offset of a whole day or more (ValueError). On success both bounds
      are written with `isoformat` (`DayBoundsRead`). */
  function DayBounds(startDay: string, endDay: string, delta: int): (r: Result<DayRange>)
    ensures r.Failure? <==> !ValidateDate(startDay) || !ValidateDate(endDay) || !(-24 < delta < 24)
    ensures r.Failure? ==> r.error == if !ValidateDate(startDay) || !ValidateDate(endDay) then ParseError else ValueError
  {
    if !ValidateDate(startDay) || !ValidateDate(endDay) then Failure(ParseError)
    else if !(-24 < delta < 24) then Failure(ValueError)
    else
      Success(DayRange(IsoFormat(AtOffset(ParseDate(startDay).value, 0, 0, 0, delta)),
                       IsoFormat(AtOffset(ParseDate(endDay).value, 23, 59, 59, delta))))
  }

  /** The start reads back as the first day at 00:00:00 and the end as the
      second day at 23:59:59, both at `delta` hours from UTC. */
  lemma DayBoundsRead(startDay: string, endDay: string, delta: int)
    requires DayBounds(startDay, endDay, delta).Success?
    ensures var r := DayBounds(startDay, endDay, delta).value;
      && ParseIso(r.startTime) == Some(DateTime(ParseDate(startDay).value, 0, 0, 0, 0, Some(delta * 60)))
      && ParseIso(r.endTime) == Some(DateTime(ParseDate(endDay).value, 23, 59, 59, 0, Some(delta * 60)))
  {
    ParseIsoFormat(AtOffset(ParseDate(startDay).value, 0, 0, 0, delta));
    ParseIsoFormat(AtOffset(ParseDate(endDay).value, 23, 59, 59, delta));
  }

  /** A client's `retrieve_data(start_time, end_time, devices, metrics)`. */
  type Retrieval = (string, string, seq<string>, seq<string>) -> Run<Option<seq<Record>>, TellusQuery>

  /** `TellusClient.retrieve_data` against the server `fetch`, cut off after
      `fuel` nested requests. */
  function ClientRetrieval(fetch: TellusQuery -> Response, client: TellusClient, fuel: nat): Retrieval
  {
    (startTime, endTime, devices, metrics) => RetrieveData(fetch, client, startTime, endTime, devices, metrics, fuel)
  }

  /** `client.retrieve_data(start_time, end_time, [device_id], metrics)`. */
  function DeviceRun(retrieve: Retrieval, range: DayRange, metrics: seq<string>, device: string)
    : Run<Option<seq<Record>>, TellusQuery>
  {
    retrieve(range.startTime, range.endTime, [device], metrics)
  }

  /** One turn of the device loop: after the devices so far (`before`), the
      retrieval `run` of the next device. A `None` (a 403) has no `.empty`
      and raises AttributeError; a failure or a cut-off stops the loop; an
      empty frame is skipped. */
  function AfterDevice(before: Run<seq<seq<Record>>, TellusQuery>, run: Run<Option<seq<Record>>, TellusQuery>)
    : Run<seq<seq<Record>>, TellusQuery>
  {
    if !before.outcome.Done? then before
    else
      var requests := before.requests + run.requests;
      match run.outcome
      case Done(Some(records)) => Run(Done(before.outcome.value + (if records == [] then [] else [records])), requests)
      case Done(None) => Run(Fail(AttributeError), requests)
      case Fail(e) => Run(Fail(e), requests)
      case OutOfFuel => Run(OutOfFuel, requests)
  }

  /** The kept frames (`responses`) and the requests after the loop has
      visited `devices`, in order. */
  function DeviceResults(retrieve: Retrieval, devices: seq<string>, range: DayRange, metrics: seq<string>): Run<seq<seq<Record>>, TellusQuery>
    decreases |devices|
  {
    if devices == [] then Run(Done([]), [])
    else
      AfterDevice(DeviceResults(retrieve, devices[..|devices| - 1], range, metrics),
                  DeviceRun(retrieve, range, metrics, devices[|devices| - 1]))
  }

  /** `pd.concat(frames, ignore_index=True)` of non-`None` frames. */
  function Concat(frames: seq<seq<Record>>): seq<Record>
    decreases |frames|
  {
    if frames == [] then [] else Concat(frames[..|frames| - 1]) + frames[|frames| - 1]
  }

  /** `retrieve_data_between_days(client, device_ids, start_day, end_day,
      metrics, time_zone_delta)`, with the client's `retrieve_data` as
      `retrieve`. Concatenating no frames raises. */
  function BetweenDays(retrieve: Retrieval, devices: seq<string>,
                       startDay: string, endDay: string, metrics: seq<string>, delta: int)
    : Run<seq<Record>, TellusQuery>
  {
    match DayBounds(startDay, endDay, delta)
    case Failure(e) => Run(Fail(e), [])
    case Success(range) =>
      var results := DeviceResults(retrieve, devices, range, metrics);
      match results.outcome
      case Done(responses) => Run(if responses == [] then Fail(ConcatError) else Done(Concat(responses)), results.requests)
      case Fail(e) => Run(Fail(e), results.requests)
      case OutOfFuel => Run(OutOfFuel, results.requests)
  }

  /** `retrieve_data_between_days`: validates both days, builds the two
      bounds, collects the devices' frames (`CollectDevices`), then
      concatenates the kept frames. */
  method RetrieveDataBetweenDays(retrieve: Retrieval, deviceIds: seq<string>,
                                 startDay: string, endDay: string, metrics: seq<string>, timeZoneDelta: int)
    returns (r: Run<seq<Record>, TellusQuery>)
    ensures r == BetweenDays(retrieve, deviceIds, startDay, endDay, metrics, timeZoneDelta)
  {
    var bounds := DayBounds(startDay, endDay, timeZoneDelta);
    if bounds.Failure? {
      return Run(Fail(bounds.error), []);
    }
    var results := CollectDevices(retrieve, deviceIds, bounds.value, metrics);
    match results.outcome {
      case Done(responses) =>
        if responses == [] {
          return Run(Fail(ConcatError), results.requests);
        }
        return Run(Done(Concat(responses)), results.requests);
      case Fail(e) =>
        return Run(Fail(e), results.requests);
      case OutOfFuel =>
        return Run(OutOfFuel, results.requests);
    }
  }

  /** The device loop of `retrieve_data_between_days`: one retrieval per
      device, in list order, each for that device alone over the same range
      and metrics; a non-empty frame is appended to `responses`, an empty
      one skipped, and a failed retrieval ends the call. */
  method CollectDevices(retrieve: Retrieval, deviceIds: seq<string>, range: DayRange, metrics: seq<string>)
    returns (results: Run<seq<seq<Record>>, TellusQuery>)
    ensures results == DeviceResults(retrieve, deviceIds, range, metrics)
  {
    var responses: seq<seq<Record>> := [];
    var requests: seq<TellusQuery> := [];
    for i := 0 to |deviceIds|
      invariant DeviceResults(retrieve, deviceIds[..i], range, metrics) == Run(Done(responses), requests)
    {
      var data := retrieve(range.startTime, range.endTime, [deviceIds[i]], metrics);
      ResultsStep(retrieve, deviceIds, range, metrics, i);
      assert DeviceRun(retrieve, range, metrics, deviceIds[i]) == data;
      ghost var before := Run(Done(responses), requests);
      requests := requests + data.requests;
      match data.outcome {
        case Done(None) =>
          StopsAfter(retrieve, deviceIds, range, metrics, i + 1);
          return Run(Fail(AttributeError), requests);
        case Fail(e) =>
          StopsAfter(retrieve, deviceIds, range, metrics, i + 1);
          return Run(Fail(e), requests);
        case OutOfFuel =>
          StopsAfter(retrieve, deviceIds, range, metrics, i + 1);
          return Run(OutOfFuel, requests);
        case Done(Some(records)) =>
          if records != [] {
            responses := responses + [records];
          }
          assert data.outcome == Done(Some(records));
          assert responses == before.outcome.value + (if records == [] then [] else [records]);
          assert AfterDevice(before, data).outcome == Done(before.outcome.value + (if records == [] then [] else [records]));
      }
    }
    assert deviceIds[..|deviceIds|] == deviceIds;
    return Run(Done(responses), requests);
  }

  /** The loop's state after device `i` follows from its state before. */
  lemma ResultsStep(retrieve: Retrieval, devices: seq<string>, range: DayRange, metrics: seq<string>, i: int)
    requires 0 <= i < |devices|
    ensures DeviceResults(retrieve, devices[..i + 1], range, metrics)
         == AfterDevice(DeviceResults(retrieve, devices[..i], range, metrics), DeviceRun(retrieve, range, metrics, devices[i]))
  {
    assert devices[..i + 1][..i] == devices[..i];
  }

  /** Once the loop has stopped at a device, the later devices are never
      visited: the run over the whole list is the run up to that device. */
  lemma {:induction false} StopsAfter(retrieve: Retrieval, devices: seq<string>,
                                      range: DayRange, metrics: seq<string>, i: nat)
    requires i <= |devices|
    requires !DeviceResults(retrieve, devices[..i], range, metrics).outcome.Done?
    ensures DeviceResults(retrieve, devices, range, metrics)
         == DeviceResults(retrieve, devices[..i], range, metrics)
    decreases |devices| - i
  {
    if i < |devices| {
      var next := devices[..i + 1];
      assert next[..i] == devices[..i];
      assert DeviceResults(retrieve, next, range, metrics)
          == DeviceResults(retrieve, devices[..i], range, metrics);
      StopsAfter(retrieve, devices, range, metrics, i + 1);
    } else {
      assert devices[..i] == devices;
    }
  }

  /** Whether a device's retrieval returned a frame. */
  predicate Returned(run: Run<Option<seq<Record>>, TellusQuery>)
  {
    run.outcome.Done? && run.outcome.value.Some?
  }

  /** The records of a device's frame, or none. */
  function RecordsOf(run: Run<Option<seq<Record>>, TellusQuery>): seq<Record>
  {
    if Returned(run) then run.outcome.value.value else []
  }

  /** Every device's records, empty frames included, in device order. */
  function AllRecords(retrieve: Retrieval, devices: seq<string>, range: DayRange, metrics: seq<string>): seq<Record>
    decreases |devices|
  {
    if devices == [] then []
    else AllRecords(retrieve, devices[..|devices| - 1], range, metrics)
         + RecordsOf(DeviceRun(retrieve, range, metrics, devices[|devices| - 1]))
  }

  /** Every device's requests, in device order. */
  function AllRequests(retrieve: Retrieval, devices: seq<string>, range: DayRange, metrics: seq<string>): seq<TellusQuery>
    decreases |devices|
  {
    if devices == [] then []
    else AllRequests(retrieve, devices[..|devices| - 1], range, metrics)
         + DeviceRun(retrieve, range, metrics, devices[|devices| - 1]).requests
  }

  /** The loop completes exactly when every device's retrieval returned a
      frame. Then it has issued every device's requests in device order,
      kept only non-empty frames, and their concatenation is every device's
      records in device order; no frame is kept exactly when all are empty. */
  lemma DeviceResultsDone(retrieve: Retrieval, devices: seq<string>, range: DayRange, metrics: seq<string>)
    ensures var r := DeviceResults(retrieve, devices, range, metrics);
      && (r.outcome.Done? <==> forall k :: 0 <= k < |devices| ==> Returned(DeviceRun(retrieve, range, metrics, devices[k])))
      && (r.outcome.Done? ==>
            && r.requests == AllRequests(retrieve, devices, range, metrics)
            && Concat(r.outcome.value) == AllRecords(retrieve, devices, range, metrics)
            && (forall k :: 0 <= k < |r.outcome.value| ==> r.outcome.value[k] != [])
            && (r.outcome.value == [] <==> AllRecords(retrieve, devices, range, metrics) == []))
  {
    DeviceResultsComplete(retrieve, devices, range, metrics);
    if DeviceResults(retrieve, devices, range, metrics).outcome.Done? {
      DeviceResultsKept(retrieve, devices, range, metrics);
    }
  }

  /** The loop completes exactly when every device's retrieval returned a
      frame. */
  lemma {:induction false} DeviceResultsComplete(retrieve: Retrieval, devices: seq<string>,
                                                 range: DayRange, metrics: seq<string>)
    ensures DeviceResults(retrieve, devices, range, metrics).outcome.Done?
        <==> forall k :: 0 <= k < |devices| ==> Returned(DeviceRun(retrieve, range, metrics, devices[k]))
    decreases |devices|
  {
    if devices != [] {
      var init := devices[..|devices| - 1];
      DeviceResultsComplete(retrieve, init, range, metrics);
      var before := DeviceResults(retrieve, init, range, metrics);
      assert forall k :: 0 <= k < |init| ==> init[k] == devices[k];
      if !before.outcome.Done? {
        var k :| 0 <= k < |init| && !Returned(DeviceRun(retrieve, range, metrics, init[k]));
        assert devices[k] == init[k];
      }
    }
  }

  /** A completed loop has issued every device's requests in device order
      and kept exactly the non-empty frames, in device order. */
  lemma {:induction false} DeviceResultsKept(retrieve: Retrieval, devices: seq<string>,
                                             range: DayRange, metrics: seq<string>)
    requires DeviceResults(retrieve, devices, range, metrics).outcome.Done?
    ensures var r := DeviceResults(retrieve, devices, range, metrics);
      && r.requests == AllRequests(retrieve, devices, range, metrics)
      && Concat(r.outcome.value) == AllRecords(retrieve, devices, range, metrics)
      && (forall k :: 0 <= k < |r.outcome.value| ==> r.outcome.value[k] != [])
      && (r.outcome.value == [] <==> AllRecords(retrieve, devices, range, metrics) == [])
    decreases |devices|
  {
    if devices != [] {
      var init := devices[..|devices| - 1];
      var before := DeviceResults(retrieve, init, range, metrics);
      var run := DeviceRun(retrieve, range, metrics, devices[|devices| - 1]);
      var r := DeviceResults(retrieve, devices, range, metrics);
      assert r == AfterDevice(before, run);
      assert before.outcome.Done? && Returned(run);
      DeviceResultsKept(retrieve, init, range, metrics);
      var records := run.outcome.value.value;
      var kept := before.outcome.value + (if records == [] then [] else [records]);
      assert r == Run(Done(kept), before.requests + run.requests);
      assert AllRequests(retrieve, devices, range, metrics) == AllRequests(retrieve, init, range, metrics) + run.requests;
      assert AllRecords(retrieve, devices, range, metrics) == AllRecords(retrieve, init, range, metrics) + records;
      if records != [] {
        assert kept[..|kept| - 1] == before.outcome.value;
        assert Concat(kept) == Concat(before.outcome.value) + records;
      } else {
        assert kept == before.outcome.value;
      }
      ConcatEmpty(before.outcome.value);
    }
  }

  /** Frames that are all non-empty concatenate to nothing only when there
      are none. */
  lemma {:induction false} ConcatEmpty(frames: seq<seq<Record>>)
    requires forall k :: 0 <= k < |frames| ==> frames[k] != []
    ensures Concat(frames) == [] <==> frames == []
  {
    if frames != [] {
      assert frames[|frames| - 1] != [];
    }
  }

  /** Where the loop stopped: the first device whose retrieval did not
      return a frame. The run has issued the requests of the devices up to
      and including it, none after, and ends as that retrieval did — a
      `None` raising AttributeError. */
  lemma {:induction false} DeviceResultsStop(retrieve: Retrieval, devices: seq<string>,
                                             range: DayRange, metrics: seq<string>)
    requires !DeviceResults(retrieve, devices, range, metrics).outcome.Done?
    ensures exists k :: 0 <= k < |devices| && StoppedAt(retrieve, devices, range, metrics, k)
    decreases |devices|
  {
    var init := devices[..|devices| - 1];
    var before := DeviceResults(retrieve, init, range, metrics);
    assert forall j :: 0 <= j < |init| ==> init[j] == devices[j];
    if before.outcome.Done? {
      DeviceResultsDone(retrieve, init, range, metrics);
      assert init == devices[..|devices| - 1] && devices[..|devices|] == devices;
      assert StoppedAt(retrieve, devices, range, metrics, |devices| - 1);
    } else {
      DeviceResultsStop(retrieve, init, range, metrics);
      var k :| 0 <= k < |init| && StoppedAt(retrieve, init, range, metrics, k);
      assert init[..k + 1] == devices[..k + 1];
      assert StoppedAt(retrieve, devices, range, metrics, k);
    }
  }

  /** The loop over `devices` stopped at device `k`. */
  predicate StoppedAt(retrieve: Retrieval, devices: seq<string>,
                      range: DayRange, metrics: seq<string>, k: int)
    requires 0 <= k < |devices|
  {
    var r := DeviceResults(retrieve, devices, range, metrics);
    var run := DeviceRun(retrieve, range, metrics, devices[k]);
    && (forall j :: 0 <= j < k ==> Returned(DeviceRun(retrieve, range, metrics, devices[j])))
    && !Returned(run)
    && r.requests == AllRequests(retrieve, devices[..k + 1], range, metrics)
    && r.outcome == (if run.outcome.Done? then Fail(AttributeError) else if run.outcome.Fail? then Fail(run.outcome.error) else OutOfFuel)
  }

  /** A day string that is not a date, or an offset of a day or more,
      fails before any request is made. */
  lemma RejectedBeforeRequests(retrieve: Retrieval, devices: seq<string>,
                               startDay: string, endDay: string, metrics: seq<string>, delta: int)
    requires !ValidateDate(startDay) || !ValidateDate(endDay) || !(-24 < delta < 24)
    ensures BetweenDays(retrieve, devices, startDay, endDay, metrics, delta)
         == Run(Fail(if !ValidateDate(startDay) || !ValidateDate(endDay) then ParseError else ValueError), [])
  {
  }

  /** With valid days and offset, the workflow returns data exactly when
      every device's retrieval returned a frame and some frame is not
      empty; the data is every device's records in device order, after
      every device's requests in device order. */
  lemma BetweenDaysDone(retrieve: Retrieval, devices: seq<string>,
                        startDay: string, endDay: string, metrics: seq<string>, delta: int)
    requires DayBounds(startDay, endDay, delta).Success?
    ensures var range := DayBounds(startDay, endDay, delta).value;
      var r := BetweenDays(retrieve, devices, startDay, endDay, metrics, delta);
      && (r.outcome.Done? <==>
            (forall k :: 0 <= k < |devices| ==> Returned(DeviceRun(retrieve, range, metrics, devices[k])))
            && AllRecords(retrieve, devices, range, metrics) != [])
      && (r.outcome.Done? ==>
            r.outcome.value == AllRecords(retrieve, devices, range, metrics)
            && r.requests == AllRequests(retrieve, devices, range, metrics))
  {
    DeviceResultsDone(retrieve, devices, DayBounds(startDay, endDay, delta).value, metrics);
  }

  /** Each device is retrieved on its own: its first request names just
      that device, the workflow's metrics and the two bounds unconverted. */
  lemma DeviceRequest(fetch: TellusQuery -> Response, client: TellusClient, range: DayRange,
                      metrics: seq<string>, fuel: nat, device: string)
    requires fuel > 0
    ensures var run := DeviceRun(ClientRetrieval(fetch, client, fuel), range, metrics, device);
      && run.requests != []
      && run.requests[0].deviceId == device && run.requests[0].metric == Join(metrics, ',')
      && run.requests[0].start.Given? && run.requests[0].end.Given?
      && Render(run.requests[0].start) == range.startTime && Render(run.requests[0].end) == range.endTime
  {
    FirstRequest(fetch, client, range.startTime, range.endTime, [device], metrics, fuel);
  }

  /** `extract_time_period(data, "02:00", "04:00")` of the nightly
      computation: the rows from 02:00:00 to 04:00:00 inclusive. */
  lemma NightWindow(data: seq<Record>)
    ensures Utils.ExtractTimePeriod(data, "02:00", "04:00") == Success(Utils.InWindow(data, 7200, 14400))
  {
    ClockOfDay("02:00", 2);
    ClockOfDay("04:00", 4);
  }

  /** "0H:00" reads as H o'clock. */
  lemma ClockOfDay(s: string, h: int)
    requires 0 <= h < 10 && s == ['0', DigitChar(h), ':', '0', '0']
    ensures ParseTimeOfDay(s) == Some(h * 3600)
  {
    assert s[..2] == ['0', DigitChar(h)] && s[3..5] == "00" && s[5..] == [];
    assert ['0', DigitChar(h)][..1] == "0" && "00"[..1] == "0" && "0"[..0] == [];
    assert Number(s[..2]) == h && Number(s[3..5]) == 0;
  }

  /** The rows `generate_night_temperature_averages` averages: the
      workflow's data between 02:00 and 04:00. */
  function NightData(retrieve: Retrieval, devices: seq<string>,
                     startDay: string, endDay: string, metrics: seq<string>, delta: int)
    : (r: Outcome<seq<Record>>)
    ensures r.Done? ==> forall k :: 0 <= k < |r.value| ==> 7200 <= Utils.TimeOfDay(r.value[k]) <= 14400
  {
    match BetweenDays(retrieve, devices, startDay, endDay, metrics, delta).outcome
    case Done(data) =>
      NightWindow(data);
      Utils.InWindowMembers(data, 7200, 14400);
      var night := Utils.InWindow(data, 7200, 14400);
      assert forall k :: 0 <= k < |night| ==> night[k] in night;
      Done(night)
    case Fail(e) => Fail(e)
    case OutOfFuel => OutOfFuel
  }
}
