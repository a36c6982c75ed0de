/** The SenseCAP client: every call is one GET of `BASE_URL/endpoint` with
    a parameter dictionary built from the non-default arguments; `_get`
    checks the status and the payload's `code`, and the callers pick the
    `data` member apart into rows. */
module SenseCap {
  import opened Common
  import opened IsoTime

  const BaseUrl: string := "https://sensecap.seeed.cc/openapi"

  /** A decoded JSON value. A number with a fraction or an exponent is a
      Python float and is carried as its literal text. */
  datatype Json =
    | JNull
    | JBool(b: bool)
    | JInt(i: int)
    | JReal(literal: string)
    | JStr(s: string)
    | JArr(items: seq<Json>)
    | JObj(fields: map<string, Json>)

  /** A query parameter: a string, an integer, or the epoch milliseconds of
      an ISO 8601 time (`fromisoformat(text).timestamp() * 1000`, cut to an
      integer when `whole`). */
  datatype Param = PStr(text: string) | PInt(number: int) | PMillis(iso: string, whole: bool)

  datatype SenseCapClient = SenseCapClient(apiId: string, apiKey: string)

  /** A GET request: the URL, the basic-auth pair and the parameters. */
  datatype SenseRequest = SenseRequest(url: string, user: string, password: string, params: map<string, Param>)

  /** The server's answer: the status and the decoded JSON body. */
  datatype Reply = Reply(status: int, payload: Json)

  /** A table row: its columns and their values; a column the row lacks is
      NaN in the source's frame. */
  type Row = map<string, Json>

  function RequestFor(client: SenseCapClient, endpoint: string, params: map<string, Param>): SenseRequest
  {
    SenseRequest(BaseUrl + "/" + endpoint, client.apiId, client.apiKey, params)
  }

  // ---------------------------------------------------------------------
  // `str(code) != "0"`

  /** The decimal digits of `n`. */
  function Digits(n: nat): (s: string)
    ensures |s| >= 1 && (|s| == 1 <==> n < 10)
  {
    if n < 10 then [DigitChar(n)] else Digits(n / 10) + [DigitChar(n % 10)]
  }

  /** `str(n)` of an integer. */
  function IntText(n: int): string
  {
    if n < 0 then "-" + Digits(-n) else Digits(n)
  }

  /** Whether `str(value)` is "0". The text of `None`, a bool, a float, a
      list or a dict is never "0" (it is a word, has a '.', an 'e', "inf" or
      "nan", or starts with '[' or '{'). */
  predicate StrIsZero(value: Json)
  {
    match value
    case JInt(n) => IntText(n) == "0"
    case JStr(s) => s == "0"
    case _ => false
  }

  /** Only the integer 0 and the string "0" read as "0". */
  lemma StrIsZeroExactly(value: Json)
    ensures StrIsZero(value) <==> value == JInt(0) || value == JStr("0")
  {
    if value.JInt? {
      var n := value.i;
      if n < 0 {
        assert IntText(n)[0] == '-';
      } else if n >= 10 {
        assert |Digits(n)| > 1;
      } else {
        assert IntText(n) == [DigitChar(n)];
      }
    }
  }

  /** `_get(endpoint, params)`: a 4xx or 5xx status raises
      (`raise_for_status`); a payload that is not an object has no `.get`
      (AttributeError); an object whose `code` is missing or does not read
      as "0" raises the API error. Otherwise the payload's members. */
  function Get(fetch: SenseRequest -> Reply, client: SenseCapClient, endpoint: string, params: map<string, Param>)
    : (r: Result<map<string, Json>>)
    ensures var reply := fetch(RequestFor(client, endpoint, params));
      && (r.Success? <==>
            !(400 <= reply.status < 600) && reply.payload.JObj? && "code" in reply.payload.fields
            && (reply.payload.fields["code"] == JInt(0) || reply.payload.fields["code"] == JStr("0")))
      && (r.Success? ==> r.value == reply.payload.fields)
      && (r.Failure? ==> r.error == if 400 <= reply.status < 600 then HttpError
                                    else if !reply.payload.JObj? then AttributeError else ApiError)
  {
    var reply := fetch(RequestFor(client, endpoint, params));
    if 400 <= reply.status < 600 then Failure(HttpError)
    else
      match reply.payload
      case JObj(fields) =>
        if "code" in fields then StrIsZeroExactly(fields["code"]); (if StrIsZero(fields["code"]) then Success(fields) else Failure(ApiError))
        else Failure(ApiError)
      case _ => Failure(AttributeError)
  }

  // ---------------------------------------------------------------------
  // Python operations on decoded JSON

  /** `value[key]`. */
  function Key(value: Json, key: string): Result<Json>
  {
    match value
    case JObj(fields) => if key in fields then Success(fields[key]) else Failure(KeyError)
    case _ => Failure(TypeError)
  }

  /** `value[i]` for an index `i >= 0`. */
  function Index(value: Json, i: nat): Result<Json>
  {
    match value
    case JArr(items) => if i < |items| then Success(items[i]) else Failure(IndexError)
    case JStr(s) => if i < |s| then Success(JStr([s[i]])) else Failure(IndexError)
    case JObj(_) => Failure(KeyError)
    case _ => Failure(TypeError)
  }

  /** `for x in value`: the items of a list, the characters of a string; a
      non-empty object is not modelled (its keys' order is lost). */
  function Iterate(value: Json): Result<seq<Json>>
  {
    match value
    case JArr(items) => Success(items)
    case JStr(s) => Success(seq(|s|, k requires 0 <= k < |s| => JStr([s[k]])))
    case JObj(fields) => if fields == map[] then Success([]) else Failure(ShapeError)
    case _ => Failure(TypeError)
  }

  /** `pd.DataFrame(value)` of a list of objects: one row per object. */
  function Frame(value: Json): Result<seq<Row>>
  {
    match value
    case JArr(items) => ObjectRows(items)
    case _ => Failure(ShapeError)
  }

  function ObjectRows(items: seq<Json>): (r: Result<seq<Row>>)
    ensures r.Success? <==> forall k :: 0 <= k < |items| ==> items[k].JObj?
    ensures r.Success? ==> |r.value| == |items| && forall k :: 0 <= k < |items| ==> r.value[k] == items[k].fields
    decreases |items|
  {
    if items == [] then Success([])
    else if !items[0].JObj? then Failure(ShapeError)
    else
      match ObjectRows(items[1..])
      case Success(rest) => Success([items[0].fields] + rest)
      case Failure(e) => Failure(e)
  }

  /** `df[column] = value`: every row gets `column` set to `value`. */
  function Tag(rows: seq<Row>, column: string, value: Json): (tagged: seq<Row>)
    ensures |tagged| == |rows|
    ensures forall k :: 0 <= k < |rows| ==> tagged[k] == rows[k][column := value]
  {
    seq(|rows|, k requires 0 <= k < |rows| => rows[k][column := value])
  }

  /** `pd.concat(frames, ignore_index=True)`. */
  function Flatten<T>(frames: seq<seq<T>>): seq<T>
    decreases |frames|
  {
    if frames == [] then [] else Flatten(frames[..|frames| - 1]) + frames[|frames| - 1]
  }

  /** A row is in the concatenation exactly when it is in one of the frames. */
  lemma {:induction false} FlattenMembers<T>(frames: seq<seq<T>>, x: T)
    ensures x in Flatten(frames) <==> exists k :: 0 <= k < |frames| && x in frames[k]
    decreases |frames|
  {
    if frames != [] {
      var init := frames[..|frames| - 1];
      FlattenMembers(init, x);
      assert forall k :: 0 <= k < |init| ==> init[k] == frames[k];
      if x in Flatten(init) {
        var k :| 0 <= k < |init| && x in init[k];
        assert x in frames[k];
      }
    }
  }

  // ---------------------------------------------------------------------
  // `retrieve_device_ids`

  datatype Devices = Devices(gateways: Json, nodes: Json)

  /** `response.get("data", {}).get(key, [])`. */
  function MemberOr(fields: map<string, Json>, key: string, default: Json): Json
  {
    if key in fields then fields[key] else default
  }

  /** `retrieve_device_ids`: the `gateway` and `node` lists of the payload's
      `data`, each `[]` when missing (a missing `data` counting as `{}`); a
      `data` that is not an object has no `.get`. */
  function RetrieveDeviceIds(fetch: SenseRequest -> Reply, client: SenseCapClient): (r: Result<Devices>)
    ensures var g := Get(fetch, client, "device/list_euis", map[]);
      && (g.Failure? ==> r == Failure(g.error))
      && (g.Success? ==>
            var data := MemberOr(g.value, "data", JObj(map[]));
            && (r.Success? <==> data.JObj?)
            && (r.Failure? ==> r.error == AttributeError)
            && (r.Success? ==>
                  && r.value.gateways == (if "gateway" in data.fields then data.fields["gateway"] else JArr([]))
                  && r.value.nodes == (if "node" in data.fields then data.fields["node"] else JArr([]))))
  {
    match Get(fetch, client, "device/list_euis", map[])
    case Failure(e) => Failure(e)
    case Success(payload) =>
      match MemberOr(payload, "data", JObj(map[]))
      case JObj(data) => Success(Devices(MemberOr(data, "gateway", JArr([])), MemberOr(data, "node", JArr([]))))
      case _ => Failure(AttributeError)
  }

  // ---------------------------------------------------------------------
  // Tagged channel frames (`construct_df` of `latest_data_point` and of
  // `get_aggregate_data`)

  /** `construct_df(channel)`: the rows of `channel[rowsKey]`, each tagged
      with `column` set to `channel[tagKey]`. */
  function ChannelFrame(channel: Json, rowsKey: string, tagKey: string, column: string): Result<seq<Row>>
  {
    match Key(channel, rowsKey)
    case Failure(e) => Failure(e)
    case Success(points) =>
      match Frame(points)
      case Failure(e) => Failure(e)
      case Success(rows) =>
        match Key(channel, tagKey)
        case Failure(e) => Failure(e)
        case Success(tag) => Success(Tag(rows, column, tag))
  }

  /** `[construct_df(c) for c in channels]`, in channel order; the first
      channel that fails ends the comprehension. */
  function ChannelFrames(channels: seq<Json>, rowsKey: string, tagKey: string, column: string): (r: Result<seq<seq<Row>>>)
    ensures r.Success? <==> forall k :: 0 <= k < |channels| ==> ChannelFrame(channels[k], rowsKey, tagKey, column).Success?
    ensures r.Success? ==> (|r.value| == |channels|
      && forall k :: 0 <= k < |channels| ==> r.value[k] == ChannelFrame(channels[k], rowsKey, tagKey, column).value)
    decreases |channels|
  {
    if channels == [] then Success([])
    else
      match ChannelFrame(channels[0], rowsKey, tagKey, column)
      case Failure(e) => Failure(e)
      case Success(frame) =>
        match ChannelFrames(channels[1..], rowsKey, tagKey, column)
        case Failure(e) => Failure(e)
        case Success(rest) => Success([frame] + rest)
  }

  /** A channel's frame has one row per object of its row list, each row
      that object with `column` set to the channel's tag. */
  lemma ChannelFrameRows(channel: Json, rowsKey: string, tagKey: string, column: string)
    requires ChannelFrame(channel, rowsKey, tagKey, column).Success?
    ensures var items := channel.fields[rowsKey].items;
      var rows := ChannelFrame(channel, rowsKey, tagKey, column).value;
      && channel.JObj? && rowsKey in channel.fields && tagKey in channel.fields && channel.fields[rowsKey].JArr?
      && |rows| == |items|
      && forall k :: 0 <= k < |items| ==> items[k].JObj? && rows[k] == items[k].fields[column := channel.fields[tagKey]]
  {
  }

  /** The tagged frames of a `data` list, concatenated; no frames to
      concatenate raises. */
  function TaggedRows(data: Json, rowsKey: string, tagKey: string, column: string): Result<seq<Row>>
  {
    match Iterate(data)
    case Failure(e) => Failure(e)
    case Success(channels) =>
      match ChannelFrames(channels, rowsKey, tagKey, column)
      case Failure(e) => Failure(e)
      case Success(frames) => if frames == [] then Failure(ConcatError) else Success(Flatten(frames))
  }

  /** Every row of the concatenation carries the tag of the channel it came
      from, and every row of every channel's frame is in it. */
  lemma TaggedRowsFrom(data: Json, rowsKey: string, tagKey: string, column: string, row: Row)
    requires TaggedRows(data, rowsKey, tagKey, column).Success?
    ensures var channels := Iterate(data).value;
      && |channels| > 0
      && (row in TaggedRows(data, rowsKey, tagKey, column).value <==>
            exists k :: 0 <= k < |channels| && row in ChannelFrame(channels[k], rowsKey, tagKey, column).value)
      && (row in TaggedRows(data, rowsKey, tagKey, column).value ==>
            exists k :: 0 <= k < |channels| && channels[k].JObj? && tagKey in channels[k].fields
                        && column in row && row[column] == channels[k].fields[tagKey])
  {
    var channels := Iterate(data).value;
    var frames := ChannelFrames(channels, rowsKey, tagKey, column).value;
    FlattenMembers(frames, row);
    if row in Flatten(frames) {
      var k :| 0 <= k < |frames| && row in frames[k];
      ChannelFrameRows(channels[k], rowsKey, tagKey, column);
      var j :| 0 <= j < |frames[k]| && frames[k][j] == row;
      assert row == channels[k].fields[rowsKey].items[j].fields[column := channels[k].fields[tagKey]];
    }
  }

  // ---------------------------------------------------------------------
  // `latest_data_point`

  /** The parameters of `latest_data_point`: the device, and each optional
      key only when its argument is not "". */
  function LatestParams(deviceId: string, channelIndex: string, measurementId: string): map<string, Param>
  {
    var p := map["device_eui" := PStr(deviceId)];
    var p := if channelIndex != "" then p["channel_index" := PStr(channelIndex)] else p;
    if measurementId != "" then p["measurement_id" := PStr(measurementId)] else p
  }

  /** The parameter dictionary of `latest_data_point`, filled key by key. */
  method BuildLatestPayload(deviceId: string, channelIndex: string, measurementId: string)
    returns (payload: map<string, Param>)
    ensures payload == LatestParams(deviceId, channelIndex, measurementId)
    ensures payload.Keys == {"device_eui"} + (if channelIndex != "" then {"channel_index"} else {})
                            + (if measurementId != "" then {"measurement_id"} else {})
    ensures payload["device_eui"] == PStr(deviceId)
    ensures channelIndex != "" ==> payload["channel_index"] == PStr(channelIndex)
    ensures measurementId != "" ==> payload["measurement_id"] == PStr(measurementId)
  {
    payload := map["device_eui" := PStr(deviceId)];
    if channelIndex != "" {
      payload := payload["channel_index" := PStr(channelIndex)];
    }
    if measurementId != "" {
      payload := payload["measurement_id" := PStr(measurementId)];
    }
  }

  /** `latest_data_point(device_id, channel_index, measurement_id)`: each
      channel's points tagged with its `channel_index`, concatenated in
      channel order. */
  function LatestDataPoint(fetch: SenseRequest -> Reply, client: SenseCapClient,
                           deviceId: string, channelIndex: string, measurementId: string): Result<seq<Row>>
  {
    match Get(fetch, client, "view_latest_telemetry_data", LatestParams(deviceId, channelIndex, measurementId))
    case Failure(e) => Failure(e)
    case Success(payload) =>
      match Key(JObj(payload), "data")
      case Failure(e) => Failure(e)
      case Success(data) => TaggedRows(data, "points", "channel_index", "channel_index")
  }

  /** `latest_data_point` sends one request, for its parameters alone: two
      servers that answer that request alike give the same result. */
  lemma LatestOneRequest(fetch: SenseRequest -> Reply, other: SenseRequest -> Reply, client: SenseCapClient,
                         deviceId: string, channelIndex: string, measurementId: string)
    requires var q := RequestFor(client, "view_latest_telemetry_data", LatestParams(deviceId, channelIndex, measurementId));
      fetch(q) == other(q)
    ensures LatestDataPoint(fetch, client, deviceId, channelIndex, measurementId)
         == LatestDataPoint(other, client, deviceId, channelIndex, measurementId)
  {
  }

  // ---------------------------------------------------------------------
  // `get_historic_data`

  /** `fromisoformat(text)` succeeded, so `.timestamp()` has a value. */
  predicate IsoReads(text: string)
  {
    ParseIso(text).Some?
  }

  /** The parameters of `get_historic_data`; a time that `fromisoformat`
      rejects raises ValueError (ParseError) before any request. */
  function HistoricParams(deviceId: string, timeStart: string, timeEnd: string, channelIndex: string,
                          sensorId: string, recordLimit: int): Result<map<string, Param>>
  {
    if timeStart != "" && !IsoReads(timeStart) then Failure(ParseError)
    else if timeEnd != "" && !IsoReads(timeEnd) then Failure(ParseError)
    else Success(HistoricMap(deviceId, timeStart, timeEnd, channelIndex, sensorId, recordLimit))
  }

  /** The dictionary `get_historic_data` sends once both times read. */
  function HistoricMap(deviceId: string, timeStart: string, timeEnd: string, channelIndex: string,
                       sensorId: string, recordLimit: int): map<string, Param>
  {
    var p := map["device_eui" := PStr(deviceId)];
    var p := if channelIndex != "" then p["channel_index" := PStr(channelIndex)] else p;
    var p := if sensorId != "" then p["measurement_id" := PStr(sensorId)] else p;
    var p := if timeStart != "" then p["time_start" := PMillis(timeStart, false)] else p;
    var p := if timeEnd != "" then p["time_end" := PMillis(timeEnd, false)] else p;
    if recordLimit != 0 then p["record_limit" := PInt(recordLimit)] else p
  }

  /** The parameter dictionary of `get_historic_data`, filled key by key;
      `measurement_id` carries `sensor_id`. */
  method BuildHistoricPayload(deviceId: string, timeStart: string, timeEnd: string, channelIndex: string,
                              sensorId: string, recordLimit: int)
    returns (r: Result<map<string, Param>>)
    ensures r == HistoricParams(deviceId, timeStart, timeEnd, channelIndex, sensorId, recordLimit)
  {
    var payload := map["device_eui" := PStr(deviceId)];
    if channelIndex != "" {
      payload := payload["channel_index" := PStr(channelIndex)];
    }
    if sensorId != "" {
      payload := payload["measurement_id" := PStr(sensorId)];
    }
    if timeStart != "" {
      if !IsoReads(timeStart) {
        return Failure(ParseError);
      }
      payload := payload["time_start" := PMillis(timeStart, false)];
    }
    if timeEnd != "" {
      if !IsoReads(timeEnd) {
        return Failure(ParseError);
      }
      payload := payload["time_end" := PMillis(timeEnd, false)];
    }
    if recordLimit != 0 {
      payload := payload["record_limit" := PInt(recordLimit)];
    }
    return Success(payload);
  }

  /** `get_historic_data` rejects exactly the times `fromisoformat` cannot
      read, and otherwise sends each optional key only for a non-default
      argument, with `measurement_id` carrying `sensor_id`. */
  lemma HistoricParamsKeys(deviceId: string, timeStart: string, timeEnd: string, channelIndex: string,
                           sensorId: string, recordLimit: int)
    ensures var r := HistoricParams(deviceId, timeStart, timeEnd, channelIndex, sensorId, recordLimit);
      && (r.Failure? <==> (timeStart != "" && !IsoReads(timeStart)) || (timeEnd != "" && !IsoReads(timeEnd)))
      && (r.Failure? ==> r.error == ParseError)
      && (r.Success? ==>
            && r.value.Keys <= {"device_eui", "channel_index", "measurement_id", "time_start", "time_end", "record_limit"}
            && "device_eui" in r.value && r.value["device_eui"] == PStr(deviceId)
            && ("channel_index" in r.value <==> channelIndex != "")
            && ("measurement_id" in r.value <==> sensorId != "")
            && ("time_start" in r.value <==> timeStart != "")
            && ("time_end" in r.value <==> timeEnd != "")
            && ("record_limit" in r.value <==> recordLimit != 0)
            && (channelIndex != "" ==> r.value["channel_index"] == PStr(channelIndex))
            && (sensorId != "" ==> r.value["measurement_id"] == PStr(sensorId))
            && (timeStart != "" ==> r.value["time_start"] == PMillis(timeStart, false))
            && (timeEnd != "" ==> r.value["time_end"] == PMillis(timeEnd, false))
            && (recordLimit != 0 ==> r.value["record_limit"] == PInt(recordLimit)))
  {
    HistoricMapKeys(deviceId, timeStart, timeEnd, channelIndex, sensorId, recordLimit);
  }

  lemma HistoricMapKeys(deviceId: string, timeStart: string, timeEnd: string, channelIndex: string,
                        sensorId: string, recordLimit: int)
    ensures var p := HistoricMap(deviceId, timeStart, timeEnd, channelIndex, sensorId, recordLimit);
      && p.Keys <= {"device_eui", "channel_index", "measurement_id", "time_start", "time_end", "record_limit"}
      && "device_eui" in p && p["device_eui"] == PStr(deviceId)
      && ("channel_index" in p <==> channelIndex != "")
      && ("measurement_id" in p <==> sensorId != "")
      && ("time_start" in p <==> timeStart != "")
      && ("time_end" in p <==> timeEnd != "")
      && ("record_limit" in p <==> recordLimit != 0)
      && (channelIndex != "" ==> p["channel_index"] == PStr(channelIndex))
      && (sensorId != "" ==> p["measurement_id"] == PStr(sensorId))
      && (timeStart != "" ==> p["time_start"] == PMillis(timeStart, false))
      && (timeEnd != "" ==> p["time_end"] == PMillis(timeEnd, false))
      && (recordLimit != 0 ==> p["record_limit"] == PInt(recordLimit))
  {
  }

  /** A row of `get_historic_data`'s output, in its column order. */
  datatype HistoricRow = HistoricRow(timestamp: Json, channelIndex: Json, measurementId: Json, measurement: Json)

  /** `[{"measurement": e[0], "timestamp": e[1]} for e in entries]`: the
      readings, as (measurement, timestamp) pairs. */
  function Readings(entries: seq<Json>): (r: Result<seq<(Json, Json)>>)
    ensures r.Success? <==> forall k :: 0 <= k < |entries| ==> Index(entries[k], 0).Success? && Index(entries[k], 1).Success?
    ensures r.Success? ==> (|r.value| == |entries|
      && forall k :: 0 <= k < |entries| ==> r.value[k] == (Index(entries[k], 0).value, Index(entries[k], 1).value))
    decreases |entries|
  {
    if entries == [] then Success([])
    else
      match Index(entries[0], 0)
      case Failure(e) => Failure(e)
      case Success(m) =>
        match Index(entries[0], 1)
        case Failure(e) => Failure(e)
        case Success(t) =>
          match Readings(entries[1..])
          case Failure(e) => Failure(e)
          case Success(rest) => Success([(m, t)] + rest)
  }

  /** The frame of one sensor: its readings, each tagged with the sensor's
      `channel_index` (`info[0]`) and `measurement_id` (`info[1]`). */
  function SensorRows(info: Json, group: Json): Result<seq<HistoricRow>>
  {
    match Iterate(group)
    case Failure(e) => Failure(e)
    case Success(entries) =>
      match Readings(entries)
      case Failure(e) => Failure(e)
      case Success(pairs) =>
        match Index(info, 0)
        case Failure(e) => Failure(e)
        case Success(channel) =>
          match Index(info, 1)
          case Failure(e) => Failure(e)
          case Success(measurementId) =>
            Success(seq(|pairs|, k requires 0 <= k < |pairs| => HistoricRow(pairs[k].1, channel, measurementId, pairs[k].0)))
  }

  /** Each reading `[v, t]` of a sensor becomes the row with timestamp `t`,
      the sensor's channel and measurement id, and measurement `v`. */
  lemma SensorRowsAre(info: Json, group: Json)
    requires SensorRows(info, group).Success?
    ensures var entries := Iterate(group).value;
      var rows := SensorRows(info, group).value;
      && |rows| == |entries|
      && forall k :: 0 <= k < |entries| ==>
           rows[k] == HistoricRow(Index(entries[k], 1).value, Index(info, 0).value, Index(info, 1).value, Index(entries[k], 0).value)
  {
  }

  /** The frames after the loop has visited the first `n` pairs of
      `zip(infos, groups)`. */
  function SensorFrames(infos: seq<Json>, groups: seq<Json>, n: nat): Result<seq<seq<HistoricRow>>>
    requires n <= |infos| && n <= |groups|
  {
    if n == 0 then Success([])
    else
      match SensorFrames(infos, groups, n - 1)
      case Failure(e) => Failure(e)
      case Success(frames) =>
        match SensorRows(infos[n - 1], groups[n - 1])
        case Failure(e) => Failure(e)
        case Success(rows) => Success(frames + [rows])
  }

  /** The output of the flattening of `get_historic_data`: `zip` pairs the
      sensors with the reading groups by position, up to the shorter; no
      frame raises in `pd.concat`; no row at all leaves the columns
      `timestamp` and `measurement` missing (KeyError). */
  function HistoricRows(infos: seq<Json>, groups: seq<Json>): Result<seq<HistoricRow>>
  {
    match SensorFrames(infos, groups, Min(|infos|, |groups|))
    case Failure(e) => Failure(e)
    case Success(frames) =>
      if frames == [] then Failure(ConcatError)
      else if Flatten(frames) == [] then Failure(KeyError)
      else Success(Flatten(frames))
  }

  /** The flattening loop of `get_historic_data`: one frame per
      (sensor, readings) pair of the zip, appended in order. */
  method FlattenHistoric(infos: seq<Json>, groups: seq<Json>) returns (r: Result<seq<HistoricRow>>)
    ensures r == HistoricRows(infos, groups)
  {
    var convertedData: seq<seq<HistoricRow>> := [];
    var n := Min(|infos|, |groups|);
    for i := 0 to n
      invariant SensorFrames(infos, groups, i) == Success(convertedData)
    {
      var df := SensorRows(infos[i], groups[i]);
      if df.Failure? {
        FramesStop(infos, groups, i + 1, n);
        return Failure(df.error);
      }
      convertedData := convertedData + [df.value];
    }
    if convertedData == [] {
      return Failure(ConcatError);
    }
    var output := Flatten(convertedData);
    if output == [] {
      return Failure(KeyError);
    }
    return Success(output);
  }

  /** Once a pair has failed, the later pairs are never converted. */
  lemma {:induction false} FramesStop(infos: seq<Json>, groups: seq<Json>, i: nat, n: nat)
    requires i <= n <= |infos| && n <= |groups|
    requires SensorFrames(infos, groups, i).Failure?
    ensures SensorFrames(infos, groups, n) == SensorFrames(infos, groups, i)
    decreases n - i
  {
    if i < n {
      FramesStop(infos, groups, i + 1, n);
    }
  }

  /** The frames are those of the sensors in order, each of them paired
      with the reading group at its own position. */
  lemma {:induction false} SensorFramesAre(infos: seq<Json>, groups: seq<Json>, n: nat)
    requires n <= |infos| && n <= |groups|
    ensures SensorFrames(infos, groups, n).Success? <==> forall k :: 0 <= k < n ==> SensorRows(infos[k], groups[k]).Success?
    ensures SensorFrames(infos, groups, n).Success? ==>
      var frames := SensorFrames(infos, groups, n).value;
      |frames| == n && forall k :: 0 <= k < n ==> frames[k] == SensorRows(infos[k], groups[k]).value
    decreases n
  {
    if n > 0 {
      SensorFramesAre(infos, groups, n - 1);
    }
  }

  /** Sensors or reading groups past the shorter list are ignored. */
  lemma ZipStopsAtShorter(infos: seq<Json>, groups: seq<Json>)
    ensures var m := Min(|infos|, |groups|);
      HistoricRows(infos, groups) == HistoricRows(infos[..m], groups[..m])
  {
    var m := Min(|infos|, |groups|);
    SameFrames(infos, groups, infos[..m], groups[..m], m);
  }

  lemma {:induction false} SameFrames(a: seq<Json>, b: seq<Json>, c: seq<Json>, d: seq<Json>, n: nat)
    requires n <= |a| && n <= |b| && n <= |c| && n <= |d|
    requires a[..n] == c[..n] && b[..n] == d[..n]
    ensures SensorFrames(a, b, n) == SensorFrames(c, d, n)
    decreases n
  {
    if n > 0 {
      assert a[..n - 1] == c[..n - 1] && b[..n - 1] == d[..n - 1] by {
        assert a[..n - 1] == a[..n][..n - 1];
        assert c[..n - 1] == c[..n][..n - 1];
        assert b[..n - 1] == b[..n][..n - 1];
        assert d[..n - 1] == d[..n][..n - 1];
      }
      assert a[n - 1] == a[..n][n - 1] && c[n - 1] == c[..n][n - 1];
      assert b[n - 1] == b[..n][n - 1] && d[n - 1] == d[..n][n - 1];
      SameFrames(a, b, c, d, n - 1);
    }
  }

  /** `get_historic_data`'s response structure: `data.list[0]` holds the
      sensor infos and `data.list[1]` the reading groups. */
  function HistoricLists(payload: map<string, Json>): Result<(seq<Json>, seq<Json>)>
  {
    match Key(JObj(payload), "data")
    case Failure(e) => Failure(e)
    case Success(data) =>
      match Key(data, "list")
      case Failure(e) => Failure(e)
      case Success(list) =>
        match Index(list, 0)
        case Failure(e) => Failure(e)
        case Success(infoSet) =>
          match Index(list, 1)
          case Failure(e) => Failure(e)
          case Success(dataSet) =>
            match Iterate(infoSet)
            case Failure(e) => Failure(e)
            case Success(infos) =>
              match Iterate(dataSet)
              case Failure(e) => Failure(e)
              case Success(groups) => Success((infos, groups))
  }

  /** `get_historic_data(device_id, time_start, time_end, channel_index,
      sensor_id, record_limit)`. */
  function HistoricData(fetch: SenseRequest -> Reply, client: SenseCapClient, deviceId: string, timeStart: string,
                        timeEnd: string, channelIndex: string, sensorId: string, recordLimit: int)
    : Result<seq<HistoricRow>>
  {
    match HistoricParams(deviceId, timeStart, timeEnd, channelIndex, sensorId, recordLimit)
    case Failure(e) => Failure(e)
    case Success(params) =>
      match Get(fetch, client, "list_telemetry_data", params)
      case Failure(e) => Failure(e)
      case Success(payload) =>
        match HistoricLists(payload)
        case Failure(e) => Failure(e)
        case Success(lists) => HistoricRows(lists.0, lists.1)
  }

  /** `get_historic_data`: builds the parameters, sends the request, picks
      out the two lists and flattens them (`FlattenHistoric`). */
  method GetHistoricData(fetch: SenseRequest -> Reply, client: SenseCapClient, deviceId: string, timeStart: string,
                         timeEnd: string, channelIndex: string, sensorId: string, recordLimit: int)
    returns (r: Result<seq<HistoricRow>>)
    ensures r == HistoricData(fetch, client, deviceId, timeStart, timeEnd, channelIndex, sensorId, recordLimit)
  {
    var payload := BuildHistoricPayload(deviceId, timeStart, timeEnd, channelIndex, sensorId, recordLimit);
    if payload.Failure? {
      return Failure(payload.error);
    }
    var response := Get(fetch, client, "list_telemetry_data", payload.value);
    if response.Failure? {
      return Failure(response.error);
    }
    var lists := HistoricLists(response.value);
    if lists.Failure? {
      return Failure(lists.error);
    }
    r := FlattenHistoric(lists.value.0, lists.value.1);
  }

  // ---------------------------------------------------------------------
  // `get_aggregate_data`

  /** The parameters of `get_aggregate_data`: the times are cut to whole
      milliseconds, and `interval` is sent only when not 0. */
  function AggregateParams(deviceId: string, timeStart: string, timeEnd: string, channelIndex: string,
                           sensorId: string, interval: int): Result<map<string, Param>>
  {
    if timeStart != "" && !IsoReads(timeStart) then Failure(ParseError)
    else if timeEnd != "" && !IsoReads(timeEnd) then Failure(ParseError)
    else Success(AggregateMap(deviceId, timeStart, timeEnd, channelIndex, sensorId, interval))
  }

  /** The dictionary `get_aggregate_data` sends once both times read. */
  function AggregateMap(deviceId: string, timeStart: string, timeEnd: string, channelIndex: string,
                        sensorId: string, interval: int): map<string, Param>
  {
    var p := map["device_eui" := PStr(deviceId)];
    var p := if timeStart != "" then p["time_start" := PMillis(timeStart, true)] else p;
    var p := if timeEnd != "" then p["time_end" := PMillis(timeEnd, true)] else p;
    var p := if channelIndex != "" then p["channel_index" := PStr(channelIndex)] else p;
    var p := if sensorId != "" then p["measurement_id" := PStr(sensorId)] else p;
    if interval != 0 then p["interval" := PInt(interval)] else p
  }

  /** The parameter dictionary of `get_aggregate_data`, filled key by key. */
  method BuildAggregatePayload(deviceId: string, timeStart: string, timeEnd: string, channelIndex: string,
                               sensorId: string, interval: int)
    returns (r: Result<map<string, Param>>)
    ensures r == AggregateParams(deviceId, timeStart, timeEnd, channelIndex, sensorId, interval)
  {
    var payload := map["device_eui" := PStr(deviceId)];
    if timeStart != "" {
      if !IsoReads(timeStart) {
        return Failure(ParseError);
      }
      payload := payload["time_start" := PMillis(timeStart, true)];
    }
    if timeEnd != "" {
      if !IsoReads(timeEnd) {
        return Failure(ParseError);
      }
      payload := payload["time_end" := PMillis(timeEnd, true)];
    }
    if channelIndex != "" {
      payload := payload["channel_index" := PStr(channelIndex)];
    }
    if sensorId != "" {
      payload := payload["measurement_id" := PStr(sensorId)];
    }
    if interval != 0 {
      payload := payload["interval" := PInt(interval)];
    }
    return Success(payload);
  }

  /** `get_aggregate_data` rejects exactly the times `fromisoformat` cannot
      read, sends the times as whole milliseconds, and sends each optional
      key only for a non-default argument. */
  lemma AggregateParamsKeys(deviceId: string, timeStart: string, timeEnd: string, channelIndex: string,
                            sensorId: string, interval: int)
    ensures var r := AggregateParams(deviceId, timeStart, timeEnd, channelIndex, sensorId, interval);
      && (r.Failure? <==> (timeStart != "" && !IsoReads(timeStart)) || (timeEnd != "" && !IsoReads(timeEnd)))
      && (r.Failure? ==> r.error == ParseError)
      && (r.Success? ==>
            && r.value.Keys <= {"device_eui", "time_start", "time_end", "channel_index", "measurement_id", "interval"}
            && "device_eui" in r.value && r.value["device_eui"] == PStr(deviceId)
            && ("time_start" in r.value <==> timeStart != "")
            && ("time_end" in r.value <==> timeEnd != "")
            && ("channel_index" in r.value <==> channelIndex != "")
            && ("measurement_id" in r.value <==> sensorId != "")
            && ("interval" in r.value <==> interval != 0)
            && (timeStart != "" ==> r.value["time_start"] == PMillis(timeStart, true))
            && (timeEnd != "" ==> r.value["time_end"] == PMillis(timeEnd, true))
            && (channelIndex != "" ==> r.value["channel_index"] == PStr(channelIndex))
            && (sensorId != "" ==> r.value["measurement_id"] == PStr(sensorId))
            && (interval != 0 ==> r.value["interval"] == PInt(interval)))
  {
    AggregateMapKeys(deviceId, timeStart, timeEnd, channelIndex, sensorId, interval);
  }

  lemma AggregateMapKeys(deviceId: string, timeStart: string, timeEnd: string, channelIndex: string,
                         sensorId: string, interval: int)
    ensures var p := AggregateMap(deviceId, timeStart, timeEnd, channelIndex, sensorId, interval);
      && p.Keys <= {"device_eui", "time_start", "time_end", "channel_index", "measurement_id", "interval"}
      && "device_eui" in p && p["device_eui"] == PStr(deviceId)
      && ("time_start" in p <==> timeStart != "")
      && ("time_end" in p <==> timeEnd != "")
      && ("channel_index" in p <==> channelIndex != "")
      && ("measurement_id" in p <==> sensorId != "")
      && ("interval" in p <==> interval != 0)
      && (timeStart != "" ==> p["time_start"] == PMillis(timeStart, true))
      && (timeEnd != "" ==> p["time_end"] == PMillis(timeEnd, true))
      && (channelIndex != "" ==> p["channel_index"] == PStr(channelIndex))
      && (sensorId != "" ==> p["measurement_id"] == PStr(sensorId))
      && (interval != 0 ==> p["interval"] == PInt(interval))
  {
  }

  /** A row of `get_aggregate_data`'s output; `None` is NaN, for a row
      whose object lacked the column. */
  datatype AggregateRow = AggregateRow(time: Option<Json>, channel: Json, measurementId: Option<Json>, averageValue: Option<Json>)

  function Column(row: Row, column: string): Option<Json>
  {
    if column in row then Some(row[column]) else None
  }

  /** Whether some row has `column`: otherwise selecting it raises. */
  predicate HasColumn(rows: seq<Row>, column: string)
  {
    exists k :: 0 <= k < |rows| && column in rows[k]
  }

  /** `df[["time", "channel", "measurement_id", "average_value"]]`. */
  function SelectAggregate(rows: seq<Row>): (r: Result<seq<AggregateRow>>)
    requires forall k :: 0 <= k < |rows| ==> "channel" in rows[k]
    ensures r.Success? <==> HasColumn(rows, "time") && HasColumn(rows, "measurement_id") && HasColumn(rows, "average_value")
    ensures r.Success? ==> |r.value| == |rows| && forall k :: 0 <= k < |rows| ==>
      r.value[k] == AggregateRow(Column(rows[k], "time"), rows[k]["channel"], Column(rows[k], "measurement_id"),
                                 Column(rows[k], "average_value"))
  {
    if !(HasColumn(rows, "time") && HasColumn(rows, "measurement_id") && HasColumn(rows, "average_value")) then Failure(KeyError)
    else
      Success(seq(|rows|, k requires 0 <= k < |rows| =>
        AggregateRow(Column(rows[k], "time"), rows[k]["channel"], Column(rows[k], "measurement_id"), Column(rows[k], "average_value"))))
  }

  /** `get_aggregate_data(device_id, time_start, time_end, channel_index,
      sensor_id, interval)`: each channel's `lists` tagged with its
      `channel`, concatenated in channel order, then four columns selected. */
  function AggregateData(fetch: SenseRequest -> Reply, client: SenseCapClient, deviceId: string, timeStart: string,
                         timeEnd: string, channelIndex: string, sensorId: string, interval: int)
    : Result<seq<AggregateRow>>
  {
    match AggregateParams(deviceId, timeStart, timeEnd, channelIndex, sensorId, interval)
    case Failure(e) => Failure(e)
    case Success(params) =>
      match Get(fetch, client, "aggregate_chart_points", params)
      case Failure(e) => Failure(e)
      case Success(payload) =>
        match Key(JObj(payload), "data")
        case Failure(e) => Failure(e)
        case Success(data) =>
          match TaggedRows(data, "lists", "channel", "channel")
          case Failure(e) => Failure(e)
          case Success(rows) =>
            TaggedHaveColumn(data, "lists", "channel", "channel");
            SelectAggregate(rows)
  }

  /** Every row of the concatenation has the tag column. */
  lemma TaggedHaveColumn(data: Json, rowsKey: string, tagKey: string, column: string)
    requires TaggedRows(data, rowsKey, tagKey, column).Success?
    ensures var rows := TaggedRows(data, rowsKey, tagKey, column).value;
      forall k :: 0 <= k < |rows| ==> column in rows[k]
  {
    var rows := TaggedRows(data, rowsKey, tagKey, column).value;
    forall k | 0 <= k < |rows|
      ensures column in rows[k]
    {
      TaggedRowsFrom(data, rowsKey, tagKey, column, rows[k]);
    }
  }

  // ---------------------------------------------------------------------
  // `list_device_channels`

  /** `list_device_channels(device_eui)`: the payload's `data`, `[]` when
      missing; anything but a list raises. */
  function ListDeviceChannels(fetch: SenseRequest -> Reply, client: SenseCapClient, deviceEui: string)
    : (r: Result<seq<Json>>)
    ensures var g := Get(fetch, client, "channel/list/" + deviceEui, map[]);
      && (g.Failure? ==> r == Failure(g.error))
      && (g.Success? ==>
            var data := MemberOr(g.value, "data", JArr([]));
            && (r.Success? <==> data.JArr?)
            && (r.Failure? ==> r.error == ShapeError)
            && (r.Success? ==> r.value == data.items)
            && ("data" !in g.value ==> r == Success([])))
  {
    match Get(fetch, client, "channel/list/" + deviceEui, map[])
    case Failure(e) => Failure(e)
    case Success(payload) =>
      match MemberOr(payload, "data", JArr([]))
      case JArr(channels) => Success(channels)
      case _ => Failure(ShapeError)
  }
}
