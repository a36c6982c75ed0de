# ND Living Lab API access — a verified model

The repository collects environmental-sensor data for the Notre Dame Living
Lab from four vendor web APIs: HOBOlink, LI-COR, TELLUS and SenseCAP. It
adds a few helpers around that:
- calendar weeks of a month;
- a time-of-day filter;
- a TELLUS day-range workflow;
- the conversion of Picarro files to CSV;
- a simple moving average.

This project models that core in Dafny and proves properties of the model.
One module stands for each source file:

| module | source |
|---|---|
| `HoboLink` | `hobolink.py` |
| `HoboLinkUtils` | `hobolinkutils.py` |
| `Licor` | `licor.py` |
| `Tellus` | `tellus.py` |
| `Utils` | `utils.py` |
| `TellusWorkflows` | `tellus_workflows.py` |
| `SenseCap` | `sensecap.py` |
| `Picarro` | `workflows/convert_picaro_data.py` |
| `Smoothing` | `workflows/smoothing_comparison.py` |

Three support modules sit underneath:
- `Common` holds the shared values:
  - `Option`, `Result` and the error kinds;
  - the `Outcome` of a retrieval: `Done`, `Fail` or `OutOfFuel`;
  - a `Record`, stamped with wall-clock seconds since 0001-01-01 00:00:00;
  - the HTTP `Response`;
  - the `Run` trace: an outcome plus the requests issued, in order;
  - comma `Join` and `Split`.
- `Calendar` is a proleptic Gregorian day-number calendar. It covers dates, date-times with an optional UTC offset in minutes, wall-clock seconds and weekdays.
- `IsoTime` parses and formats the ISO 8601 subset the code relies on:
  - the parse stands for `datetime.fromisoformat` and `pd.to_datetime` on strings of that subset. The model takes Python 3.11 or later, whose `fromisoformat` reads the offsets `Z` and `±HHMM` as well as `±HH:MM`;
  - the formats stand for the `strftime` patterns `%Y-%m-%d %H:%M:%S` and `%Y-%m-%dT%H:%M:%S%z`, and for `isoformat()`.

**The three retrieval recursions.** Each is a total function over an HTTP
oracle `fetch`, with a `fuel` bound. It returns the outcome together with the
list of requests made.
- HOBOlink follows a page of exactly 100000 records with a request that starts one second after the page's latest timestamp.
- LI-COR throws a capped page away and bisects the range.
- TELLUS bisects on status 413, "Content Too Large" (section 15.5.14 of RFC 9110). Status 403 yields no data (`None`). Two `None` halves make `pd.concat` raise.

With no precondition on the server these recursions need not terminate. The
model proves:
- the ways they fail to terminate (an always-capped server, a capped one-second range);
- termination under stated conditions: for LI-COR and TELLUS fuel larger than the range's width in seconds suffices, for HOBOlink fuel larger than the width in seconds plus one;
- completeness, the "retrieve all data" the docstrings promise: against a server backed by a fixed list of records, a retrieval that finishes holds every record of the list inside the requested range. For LI-COR this needs only that a page under the cap holds the list's records in its range; for TELLUS, that a 200 page does, and that a range holding some of them is not refused with 403. For HOBOlink it needs that a capped page ends on a whole second, and a concrete server shows records lost without that (see "## Findings").

**Loops.** Each loop in the source is an imperative method proved against a
specification function:
- `get_month_weeks`;
- the per-device loop of `retrieve_data_between_days`;
- the payload building and the zip loop in SenseCAP;
- the line loop of `convert_to_csv`, which writes rows through a `CsvWriter` object.

## Model

| member | source | states |
|---|---|---|
| Common.MaxTimestamp | hobolink.py:91 | the latest timestamp of a non-empty page is the timestamp of some record of it, and no record is later |
| Common.Prepend | hobolink.py:96-97 | putting a page in front of a continuation result is done exactly when the continuation is, and gives the page followed by the continuation's records; a failure passes through unchanged |
| Common.SplitJoin | tellus.py:35-38 | splitting a comma-joined list of items (devices or metrics) that contain no comma gives back the items |
| Common.AllWithinConcat | hobolink.py:97 | concatenating two record lists that both lie within a range gives a list within that range |
| Calendar.FromToDays | utils.py:73-75 | converting a valid date to its day number and back gives the same date, so `timedelta(days=…)` arithmetic on day numbers is faithful |
| Calendar.FromDays | utils.py:74-75 | every day number in range is the number of exactly one valid date |
| Calendar.FromWallSeconds | hobolink.py:92 | a count of wall-clock seconds is a date-time exactly when it is in datetime's range; that date-time is naive, whole-second and counts back to the same second |
| Calendar.FromWallSecondsOf | hobolink.py:92 | converting a valid date-time to seconds and back drops only its fraction and offset |
| Calendar.WallSecondsInjective | hobolink.py:92 | two date-times at the same wall-clock second agree on date, hour, minute and second |
| Calendar.SameMonthNumber | utils.py:85-86 | a date carrying a month's number is either inside that month or far away from it, more than 300 days |
| IsoTime.ParseFormatWall | hobolinkutils.py:25-26 | reading back the `%Y-%m-%d %H:%M:%S` rendering of a date-time gives its naive wall-clock time to the second |
| IsoTime.ParseRenderedSecond | licor.py:58 | the naive rendering of a whole second reads back as that second |
| IsoTime.ParseFormatIsoBasic | tellus.py:59 | the `%Y-%m-%dT%H:%M:%S%z` rendering reads back as the same date-time with its offset and without its fraction |
| IsoTime.ParseIsoFormat | tellus_workflows.py:42 | `isoformat()` output reads back as the same date-time, fraction and offset included |
| IsoTime.ParseIsoFraction | tellus_workflows.py:42 | `isoformat()` of a date-time with a non-zero fraction reads back exactly |
| IsoTime.ParseIsoWhole | tellus_workflows.py:46 | `isoformat()` of a whole-second date-time reads back exactly |
| IsoTime.ParseOffsetBasic | tellus.py:59 | the basic `+HHMM` offset text reads back as the offset |
| IsoTime.ParseOffsetExtended | tellus_workflows.py:41-42 | the extended `+HH:MM` offset text reads back as the offset |
| IsoTime.ParseDatePart | utils.py:53-62 | the `YYYY-MM-DD` text of a valid date reads back as that date |
| IsoTime.ParseTimeOfDay | utils.py:43-44 | a time of day that reads is a second within the day |
| IsoTime.NumberPad | hobolinkutils.py:26 | a zero-padded field of a number that fits reads back as that number |
| IsoTime.ParseIso | hobolink.py:61 | every string that parses yields a valid date-time |
| IsoTime.ParseDate | utils.py:60 | `strptime(s, "%Y-%m-%d")` on the padded form: a real date in four, two and two digits; stated by `ParseDatePart` |
| IsoTime.ParseOffset | hobolink.py:61 | the UTC offset of an ISO string: none, `Z`, `±HH:MM` or `±HHMM`, in minutes; stated by `ParseOffsetBasic` and `ParseOffsetExtended` |
| IsoTime.FormatWall | hobolinkutils.py:26 | `%Y-%m-%d %H:%M:%S`; stated by `ParseFormatWall`, `WallShape` and `ParseRenderedSecond` |
| IsoTime.FormatIsoBasic | tellus.py:59 | `%Y-%m-%dT%H:%M:%S%z`; stated by `ParseFormatIsoBasic` |
| IsoTime.IsoFormat | tellus_workflows.py:42 | `isoformat()`, microseconds only when non-zero and the offset as `±HH:MM`; stated by `ParseIsoFormat`, `ParseIsoFraction` and `ParseIsoWhole` |
| HoboLinkUtils.TimeFormatterHobolink | hobolinkutils.py:23-27 | the formatter yields a string exactly when its input parses as ISO 8601 |
| HoboLinkUtils.FormatterShape | hobolinkutils.py:26 | the output is 19 characters: digit fields for year, month, day, hour, minute and second, with `-`, ` ` and `:` separators in the `YYYY-MM-DD HH:MM:SS` places |
| HoboLinkUtils.WallShape | hobolinkutils.py:26 | the wall-clock rendering of any valid date-time has the `YYYY-MM-DD HH:MM:SS` layout |
| HoboLinkUtils.FormatterReparse | hobolinkutils.py:25-26 | re-parsing the output gives the input's wall-clock date and time to the second, with the offset and the fraction dropped |
| HoboLinkUtils.FormatterIgnoresOffset | hobolinkutils.py:25-26 | two inputs with the same wall-clock second format identically, whatever their offsets: fields are copied, not converted to UTC |
| HoboLinkUtils.FormatterIdempotent | hobolinkutils.py:23-27 | formatting an already formatted time changes nothing |
| HoboLink.ContinuationStart | hobolink.py:91-93 | the continuation start exists exactly when one second after the page's latest timestamp is still in range, and it reads back as that second |
| HoboLink.SecondText | hobolink.py:93 | a second has an ISO rendering exactly when it is in range, and the rendering reads back as that second |
| HoboLink.BasicOf | hobolink.py:93 | the `%Y-%m-%dT%H:%M:%S%z` rendering of a naive whole-second time reads back as that time |
| HoboLink.RequestFor | hobolink.py:67-73 | a request goes to the user's endpoint with the logger serial and the given start and end |
| HoboLink.QueryDeterminesRequest | hobolink.py:69-73 | two requests with the same endpoint, loggers and query time strings are the same request, so a server answering strings is captured by one answering requests |
| HoboLink.ContinuationAsSource | hobolink.py:61-96 | retrieving between two ISO strings is retrieving between their wall-clock seconds; the recursive call on the re-rendered start behaves the same |
| HoboLink.FirstRequestSent | hobolink.py:61-80 | an unparsable start or end fails with no request made; otherwise the first request carries the endpoint, the logger serial and the parsed start and end |
| HoboLink.FirstRequestQuery | hobolink.py:61-73 | the first request's time strings are exactly `time_formatter_hobolink` of the inputs: both are rewritten to naive wall-clock form before the request |
| HoboLink.Rendered | hobolink.py:62-65 | rendering a time through its wall-clock second gives the same `YYYY-MM-DD HH:MM:SS` text as rendering it directly |
| HoboLink.ErrorStatusExits | hobolink.py:101-106 | any non-200 status exits after exactly that one request, with no data |
| HoboLink.UncappedSingleRequest | hobolink.py:82-100 | a 200 page of any size other than 100000 is returned unchanged after one request |
| HoboLink.CappedContinues | hobolink.py:87-97 | a 200 page of exactly 100000 records is followed by one request from its latest timestamp plus one second to the same end for the same logger; the result is the page followed by the continuation's records in order, and an out-of-range continuation fails |
| HoboLink.HonestWithinRange | hobolink.py:80-97 | against a server whose records lie within the requested range, every record returned lies within the original range |
| HoboLink.HonestPagesAscend | hobolink.py:91-97 | against such a server the capped page comes first, unchanged, and every later record is strictly later than every record of that page: no boundary record is repeated |
| HoboLink.HonestTerminates | hobolink.py:87-96 | against such a server, fuel larger than the range's width in seconds plus one is never exhausted: each continuation starts strictly later |
| HoboLink.AlwaysCappedNeverDone | hobolink.py:87-96 | against a server that always answers a full page, the recursion never completes |
| HoboLink.RetrieveData | hobolink.py:46-100 | `retrieve_data`: both strings are read with `fromisoformat`, an unreadable one failing before any request, and the retrieval runs on their wall-clock seconds; its behaviour is stated by `FirstRequestSent`, `FirstRequestQuery` and `ContinuationAsSource` |
| HoboLink.RetrieveFrom | hobolink.py:80-106 | the request-and-continue recursion: a non-200 status exits, a page under the cap is the result, a capped one is followed by the request from its latest second plus one; stated by `ErrorStatusExits`, `UncappedSingleRequest`, `CappedContinues` and the lemmas against honest servers |
| HoboLink.BoundarySecondLost | hobolink.py:87-97 | on a server holding 100001 records at one second, the run from second 0 to 200 finishes with data that lacks a record of the server inside the range: the continuation one second past a capped page's latest timestamp skips the rest of that second |
| HoboLink.CompleteWhenSecondsWhole | hobolink.py:49-97 | against a server backed by a fixed record list whose capped pages end on a whole second, data a run finishes with holds every record of the list between the start and end seconds |
| Licor.RequestFor | licor.py:37-44 | the request carries the device list joined by commas as `loggers`, and the given start and end |
| Licor.Midpoint | licor.py:53-58 | the split second lies in `[start, end]`, strictly inside once the range is 2 s wide, and is the floor of the middle |
| Licor.OneSecondSplitsToItself | licor.py:57-58 | a one-second range splits at its own start, so its right half is the whole range again |
| Licor.RecursiveCallAsSource | licor.py:27-62 | retrieving between two ISO strings is retrieving between their wall-clock seconds |
| Licor.FirstRequestSent | licor.py:27-44 | an unparsable start or end fails with no request made; otherwise the first request carries the joined devices and the parsed start and end |
| Licor.FirstRequestQuery | licor.py:27-41 | the first request's time strings are the naive `YYYY-MM-DD HH:MM:SS` renderings of the inputs |
| Licor.ErrorStatusExits | licor.py:71-75 | any non-200 status exits after exactly that one request, with no data |
| Licor.UncappedSingleRequest | licor.py:46-70 | a 200 page of any size other than 100000 is returned unchanged after one request |
| Licor.CappedSplits | licor.py:49-67 | a capped page is discarded: the range is split at the midpoint and `[start, mid]` is fetched, then `[mid, end]`; the result is done exactly when both halves are, and is the left records followed by the right ones |
| Licor.HonestWithinRange | licor.py:46-67 | for a range whose start is not after its end, against a server whose records lie within the requested range, every record returned lies within the original range |
| Licor.AllWithinWiden | licor.py:65 | records within a range are within any wider range |
| Licor.HonestHalvesOrdered | licor.py:61-66 | against such a server the halves' records lie in `[start, mid]` and `[mid, end]` and are concatenated left first |
| Licor.CappedSecondNeverDone | licor.py:53-62 | if a one-second range is capped, its retrieval never completes: it requests the same range forever |
| Licor.NarrowTerminates | licor.py:49-62 | if every range under 2 s wide fits under the cap, fuel larger than the width in seconds is never exhausted |
| Licor.RetrieveData | licor.py:13-44 | `retrieve_data`: both strings are read with `fromisoformat`, an unreadable one failing before any request, and the retrieval runs on their wall-clock seconds; stated by `FirstRequestSent`, `FirstRequestQuery` and `RecursiveCallAsSource` |
| Licor.RetrieveFrom | licor.py:44-75 | the bisection: a non-200 status exits, a page under the cap is the result, a capped page is dropped and the two halves are retrieved left first; stated by `ErrorStatusExits`, `UncappedSingleRequest`, `CappedSplits` and the lemmas against honest servers |
| Licor.CompleteRetrieval | licor.py:16-67 | against a server backed by a fixed record list whose pages under the cap hold every record of the list in the requested range, data a run finishes with holds every record of the list between the start and end seconds, however the range was bisected |
| Tellus.MomentOf | tellus.py:54-55 | the reading of a date-time keeps its offset and denotes the same instant |
| Tellus.ReadText | tellus.py:54-55 | the reading of a bound that parses has an offset under a day |
| Tellus.ParseBound | tellus.py:54-55 | a split bound reads as its whole second at its offset |
| Tellus.SplitTime | tellus.py:58-59 | a split bound is a valid whole-second date-time at its offset |
| Tellus.QueryFor | tellus.py:30-39 | a query goes to `/data` with the API key, devices and metrics joined by commas, and the start and end passed through as given |
| Tellus.Midpoint | tellus.py:54-59 | the split fails exactly when one bound has an offset and the other has none (the subtraction raises) or the midpoint leaves the datetime range; otherwise it is `start + (end - start)/2` truncated to whole seconds, carrying the start's offset |
| Tellus.MidAbsolute | tellus.py:56-58 | the split second, read at the start's offset, denotes the truncated middle instant |
| Tellus.ConcatHalves | tellus.py:66 | concatenating the halves fails exactly when both are `None`; otherwise it gives the left records followed by the right ones, a `None` half counting as empty |
| Tellus.SplitPoint | tellus.py:54-59 | a split point, when there is one, is a well-formed split bound |
| Tellus.SplitReparses | tellus.py:59-63 | the rendered split point is read by the recursive calls exactly as the bound it came from |
| Tellus.FirstRequest | tellus.py:33-41 | the first query carries the API key, the comma-joined devices and metrics, and the start and end strings unconverted |
| Tellus.FirstRangeRequest | tellus.py:41 | every retrieval with fuel starts with the query for its own range |
| Tellus.SingleResponse | tellus.py:43-71 | one request only, unless the status is 413: 200 returns that response's records, 403 yields no data (`None`), and any other status exits |
| Tellus.TooLargeSplits | tellus.py:50-68 | on 413 the left half `[start, mid]` is requested, then the right half `[mid, end]`, with the same devices and metrics; the result is the left records followed by the right ones, and two `None` halves fail |
| Tellus.TooLargeUnsplittable | tellus.py:50-59 | on 413 with a midpoint that cannot be computed, the error is raised after that one request |
| Tellus.MidpointWithin | tellus.py:58 | for a start not after the end, the split instant lies between the start, truncated to the second, and the end |
| Tellus.Halving | tellus.py:58-59 | for a start not after the end, the truncated middle lies within the range and at most at the exact middle; for a range at least 2 s wide it is at least one second after the truncated start |
| Tellus.OneSecondSplitsToItself | tellus.py:58-63 | a one-second range splits at its own start, so its right half is the whole range again |
| Tellus.UnsplitOutcome | tellus.py:43-71 | a response other than 413, or a 413 that cannot be split, ends without exhausting fuel; a 413 of that kind fails |
| Tellus.SplitOutcome | tellus.py:62-68 | after a split the result is done only when both halves are; it runs out of fuel only when the left half does, or the right one after a completed left |
| Tellus.AlwaysTooLargeNeverDone | tellus.py:50-68 | against a server that always answers 413 the recursion never completes |
| Tellus.NarrowTerminates | tellus.py:50-68 | if the server answers every range under 2 s wide with something other than 413, fuel larger than the range's span is never exhausted |
| Tellus.NarrowStep | tellus.py:62-63 | on a 413 that splits, both halves' spans leave room within one less fuel |
| Tellus.SplitNarrows | tellus.py:58-63 | splitting a range at least 2 s wide gives two halves of strictly smaller span |
| Tellus.SpanStep | tellus.py:58 | the span in seconds shrinks on both sides of the truncated middle |
| Tellus.RetrieveData | tellus.py:15-41 | `retrieve_data`: the two strings are sent as they are and read with `pd.to_datetime` only when a split needs them; stated by `FirstRequest` and the lemmas about `RetrieveRange` |
| Tellus.RetrieveRange | tellus.py:41-71 | the bisection on 413: 200 returns the records, 403 yields `None`, any other status exits, 413 splits at the midpoint and concatenates the halves; stated by `SingleResponse`, `TooLargeSplits`, `TooLargeUnsplittable`, `SplitOutcome` and `UnsplitOutcome` |
| Tellus.CompleteRetrieval | tellus.py:18-68 | against a server backed by a fixed record list that never answers 403 for a range holding a record of the list and whose 200 pages hold every record of the list in the range, data a run finishes with is a frame holding every record of the list between the two bounds |
| Tellus.HalvesComplete | tellus.py:62-66 | at a split, a record between the bounds lies in the left half or the right one, so it is in their concatenation |
| Utils.TimeOfDay | utils.py:45 | a row's time of day is a second within the day |
| Utils.TimeOfDayIgnoresDate | utils.py:45 | moving a row by whole days does not change its time of day |
| Utils.ExtractTimePeriod | utils.py:35-51 | the filter fails, with a parse error, exactly when a bound does not read as a time of day |
| Utils.InWindowMembers | utils.py:48-51 | a row is kept exactly when it is in the data and its time of day lies between the bounds, inclusive at both ends |
| Utils.InWindowSubsequence | utils.py:51 | the kept rows are a subsequence of the input, in its order |
| Utils.InWindowConcat | utils.py:48-51 | filtering two tables one after the other is filtering their concatenation |
| Utils.EmptyWindow | utils.py:48 | when the start is after the end nothing is kept |
| Utils.InWindowIdempotent | utils.py:48-51 | filtering twice keeps the same rows as filtering once |
| Utils.InWindow | utils.py:45-51 | the mask `start <= time <= end` on each row's time of day, applied in row order; stated by `InWindowMembers`, `InWindowSubsequence`, `InWindowConcat`, `EmptyWindow` and `InWindowIdempotent` |
| Utils.NextMonth | utils.py:74 | the month after exists unless it is after December 9999; it is the first of a different month, December rolling to January of the next year |
| Utils.LastDayOfMonth | utils.py:75 | the day before the next month's first is the month's last day, `first + days_in_month - 1` |
| Utils.MonthRange | utils.py:73-78 | the month's first day, the Sunday on or before it and its last day: the Sunday is at most 6 days before the 1st and at or after day 0, with a week of room after the last day; failures stated by `MonthRangeFailures` |
| Utils.MonthStarts | utils.py:78-94 | the kept week starts of the month ascend at least 7 days apart and leave room for their weeks; stated in full by `MonthStartsCharacterized` |
| Utils.MonthWeeks | utils.py:65-96 | `get_month_weeks` as a value: the week of each kept start; stated by `MonthWeeksAre`, `MonthWeeksFrom` and `MonthWeeksFailures`, and the loop `GetMonthWeeks` computes it |
| Utils.NextFollowsLast | utils.py:75 | the next month's first day comes right after this month's last |
| Utils.SundayOnOrBefore | utils.py:78 | the first candidate week starts on the Sunday on or before the 1st, 0 to 6 days earlier |
| Utils.SundaysFrom | utils.py:78-94 | candidate starts, 7 days apart from that Sunday, are exactly the Sundays from 6 days before the 1st on |
| Utils.CountMatches | utils.py:85-89 | counting the week's days whose month is the target month equals counting its days between the month's first and last, so a week is kept exactly when 4 or more of its days lie in the month |
| Utils.MonthNear | utils.py:85-86 | near the month, a day carries the month's number exactly when it lies inside the month |
| Utils.MonthRangeFailures | utils.py:73-78 | constructing the month fails exactly for a year or month out of range, for December 9999 (no next month), and for January of year 1 (the Sunday before lies before year 1, an overflow) |
| Utils.MonthWeeksFailures | utils.py:73-78 | `get_month_weeks` fails in exactly those cases |
| Utils.MonthStartsCharacterized | utils.py:78-94 | a candidate start is kept exactly when it is a Sunday between 6 days before the 1st and the month's last day with 4 or more of its days in the month; kept starts ascend at least 7 days apart |
| Utils.KeptStartsRange | utils.py:81-94 | kept starts lie between the first candidate and the last day, ascend 7 days apart or more, and leave room for their weeks |
| Utils.KeptStartsMembers | utils.py:81-94 | a day is kept exactly when it is a 7-day multiple from the first candidate, not after the last day, and passes the test |
| Utils.WeekShape | utils.py:82-91 | each week runs from a day at 00:00:00.000000 to six days later at 23:59:59.999999, one microsecond short of 7 days |
| Utils.MonthWeeksAre | utils.py:90-92 | the k-th week returned is the week of the k-th kept start |
| Utils.MonthWeeksFrom | utils.py:73-96 | the weeks of a month are the weeks of the kept starts from the Sunday on or before the 1st |
| Utils.GetMonthWeeks | utils.py:65-96 | the `while` loop returns exactly the month's weeks as specified, or the specified failure |
| Utils.CollectWeeks | utils.py:80-96 | the loop from a candidate start collects the weeks of the kept starts from there to the last day |
| Utils.CollectWeek | utils.py:82-92 | one iteration appends the candidate's week exactly when 4 or more of its days lie in the month |
| Utils.WeekDaysInMonth | utils.py:85-86 | the loop counting a week's days in the month counts exactly the days whose month is the target month |
| Utils.WeeksAfterIs | utils.py:80-94 | appending weeks to an accumulator from a start gives the accumulator followed by the weeks of the kept starts |
| TellusWorkflows.AtOffset | tellus_workflows.py:41-45 | a day at a clock time with a fixed offset of `time_zone_delta` hours is a valid date-time on that day |
| TellusWorkflows.ValidateDate | utils.py:53-62 | `validate_date`: a day string passes exactly when it is a valid `YYYY-MM-DD` date; its consequences are stated by `DayBounds` and `RejectedBeforeRequests` |
| TellusWorkflows.DayBounds | tellus_workflows.py:37-46 | the range fails exactly when a day string is not a valid `YYYY-MM-DD` date (a parse error) or the hour offset is not under a day (a value error) |
| TellusWorkflows.DayBoundsRead | tellus_workflows.py:40-46 | the range start reads as `start_day` at 00:00:00 and the end as `end_day` at 23:59:59, both at an offset of `time_zone_delta` hours |
| TellusWorkflows.RejectedBeforeRequests | tellus_workflows.py:37-38 | an invalid day string or offset fails before any request is made |
| TellusWorkflows.RetrieveDataBetweenDays | tellus_workflows.py:25-55 | the method computes exactly the specified result: validate, build the range, one retrieval per device, concatenate |
| TellusWorkflows.CollectDevices | tellus_workflows.py:48-52 | the `for` loop over devices computes exactly the specified per-device results |
| TellusWorkflows.ResultsStep | tellus_workflows.py:49-52 | each device adds its own retrieval to the results built so far |
| TellusWorkflows.AfterDevice | tellus_workflows.py:49-52 | one pass of the device loop: after a completed prefix the device's run adds its requests and, when it has records, its frame; a `None` result raises on `.empty`; stated by `ResultsStep` and `StopsAfter` |
| TellusWorkflows.DeviceResults | tellus_workflows.py:48-52 | the device loop as a value: each device's retrieval in list order, stopping at the first that does not return; stated by `DeviceResultsDone`, `DeviceResultsComplete`, `DeviceResultsKept` and `DeviceResultsStop` |
| TellusWorkflows.BetweenDays | tellus_workflows.py:25-55 | `retrieve_data_between_days` as a value: validate, build the range, run the devices, concatenate the kept frames; stated by `BetweenDaysDone` and `RejectedBeforeRequests`, and the method `RetrieveDataBetweenDays` computes it |
| TellusWorkflows.StopsAfter | tellus_workflows.py:50 | once a retrieval has failed, the remaining devices are not queried |
| TellusWorkflows.DeviceResultsDone | tellus_workflows.py:48-54 | the loop completes exactly when every device's retrieval returns; it then issues each device's requests in list order, drops only empty results, keeps the non-empty ones in device order, and their concatenation is all the records |
| TellusWorkflows.DeviceResultsComplete | tellus_workflows.py:48-52 | the loop completes exactly when every device's retrieval returns |
| TellusWorkflows.DeviceResultsKept | tellus_workflows.py:48-54 | a completed loop's requests are every device's requests in order, its kept frames are non-empty and concatenate to all the records |
| TellusWorkflows.DeviceResultsStop | tellus_workflows.py:49-50 | an unfinished loop stopped at some device whose retrieval did not return |
| TellusWorkflows.ConcatEmpty | tellus_workflows.py:54 | non-empty frames concatenate to nothing exactly when there are none |
| TellusWorkflows.BetweenDaysDone | tellus_workflows.py:48-55 | for a valid range the workflow succeeds exactly when every device's retrieval returns and some records came back (with none kept, `pd.concat` raises); the result is all records in device order |
| TellusWorkflows.DeviceRequest | tellus_workflows.py:50 | each device's first query is for that one device, the same metrics, and exactly the range's start and end strings |
| TellusWorkflows.NightWindow | tellus_workflows.py:20 | the night filter is the time-of-day filter from 02:00 to 04:00 |
| TellusWorkflows.ClockOfDay | tellus_workflows.py:20 | `0H:00` reads as hour H |
| TellusWorkflows.NightData | tellus_workflows.py:18-20 | every night row used lies between 02:00 and 04:00, inclusive |
| SenseCap.StrIsZeroExactly | sensecap.py:17 | `str(code) == "0"` holds exactly for the integer 0 and the string `"0"` |
| SenseCap.Digits | sensecap.py:17 | the decimal text of a number has one digit exactly when the number is under 10 |
| SenseCap.Get | sensecap.py:12-22 | a reply succeeds exactly when its status is not a 4xx or 5xx error, its payload is an object, and its `code` is 0 or `"0"`; the payload is returned unchanged; otherwise an HTTP error, an attribute error (a payload that is not an object) or an API error is raised |
| SenseCap.RetrieveDeviceIds | sensecap.py:24-38 | a missing `data` counts as an empty object, and missing gateway or node lists default to `[]`; a `data` that is not an object raises |
| SenseCap.ObjectRows | sensecap.py:52 | a table of rows builds exactly when every item is an object, and then has one row per item |
| SenseCap.Tag | sensecap.py:93-94 | tagging sets one column in every row and changes nothing else |
| SenseCap.ChannelFrames | sensecap.py:51-56 | per-channel frames build exactly when every channel's does, one per channel in order |
| SenseCap.ChannelFrameRows | sensecap.py:51-54 | a channel's frame has one row per point, each tagged with that channel's index |
| SenseCap.TaggedRowsFrom | sensecap.py:51-56 | a concatenated row comes from some channel's frame and carries that channel's tag |
| SenseCap.ChannelFrame | sensecap.py:51-54 | `construct_df(channel)`: the channel's rows, each tagged with the channel's tag; stated by `ChannelFrameRows` |
| SenseCap.TaggedRows | sensecap.py:51-56 | the tagged frames of every channel, concatenated; no channel at all raises in `pd.concat`; stated by `ChannelFrames`, `TaggedRowsFrom` and `FlattenMembers` |
| SenseCap.FlattenMembers | sensecap.py:96 | a row is in the concatenation exactly when it is in some frame |
| SenseCap.BuildLatestPayload | sensecap.py:43-47 | the payload always has `device_eui`; it has `channel_index` and `measurement_id` exactly when those arguments are non-empty, with their values |
| SenseCap.LatestOneRequest | sensecap.py:49 | the latest data point depends on the one reply to its one request |
| SenseCap.LatestDataPoint | sensecap.py:40-57 | `latest_data_point`: one request, then the points of every channel tagged with its `channel_index` and concatenated in channel order; stated by `LatestOneRequest`, `BuildLatestPayload` and the `TaggedRows` lemmas |
| SenseCap.BuildHistoricPayload | sensecap.py:73-81 | the method fills the payload as specified |
| SenseCap.HistoricParamsKeys | sensecap.py:73-81 | the payload fails exactly when a given time does not read as ISO 8601; otherwise it has `device_eui`, and `channel_index`, `measurement_id`, `time_start`, `time_end` and `record_limit` exactly when their arguments are non-default, each with its value |
| SenseCap.HistoricMapKeys | sensecap.py:73-81 | each optional key is present exactly when its argument is non-default |
| SenseCap.Readings | sensecap.py:92 | the readings build exactly when every entry has a first and a second element, one pair per entry |
| SenseCap.SensorRowsAre | sensecap.py:92-94 | each reading `[v, t]` becomes a row with measurement `v`, timestamp `t`, and the sensor's `info[0]` and `info[1]` as channel index and measurement id |
| SenseCap.SensorRows | sensecap.py:92-94 | one sensor's frame: its readings tagged with `info[0]` and `info[1]`; stated by `SensorRowsAre` and `Readings` |
| SenseCap.HistoricRows | sensecap.py:91-97 | the zip of sensors and reading groups, each turned into its frame and concatenated; no frame, or no row, raises; stated by `SensorFramesAre`, `ZipStopsAtShorter`, `SameFrames` and `FlattenHistoric` |
| SenseCap.HistoricLists | sensecap.py:83-90 | `data.list[0]` as the sensor infos and `data.list[1]` as the reading groups; a missing key or index raises |
| SenseCap.HistoricData | sensecap.py:59-98 | `get_historic_data` as a value: the payload, one request, then the historic rows; stated by `HistoricParamsKeys` and the `HistoricRows` lemmas, and the method `GetHistoricData` computes it |
| SenseCap.FlattenHistoric | sensecap.py:88-97 | the zip loop computes exactly the specified concatenation of per-sensor rows |
| SenseCap.SensorFramesAre | sensecap.py:91-95 | the frames of the first n sensors build exactly when each sensor's does, one per sensor in order |
| SenseCap.FramesStop | sensecap.py:91-95 | after a sensor's rows fail to build, later sensors change nothing |
| SenseCap.ZipStopsAtShorter | sensecap.py:91 | infos and groups are paired by position, stopping at the shorter list |
| SenseCap.SameFrames | sensecap.py:91 | the frames depend only on the paired prefixes |
| SenseCap.GetHistoricData | sensecap.py:59-98 | the method computes exactly the specified historic table |
| SenseCap.BuildAggregatePayload | sensecap.py:114-122 | the method fills the payload as specified |
| SenseCap.AggregateParamsKeys | sensecap.py:114-122 | the payload fails exactly when a given time does not read as ISO 8601; otherwise it has `device_eui`, and `time_start`, `time_end`, `channel_index`, `measurement_id` and `interval` exactly when their arguments are non-default, each with its value |
| SenseCap.AggregateMapKeys | sensecap.py:114-122 | each optional key is present exactly when its argument is non-default |
| SenseCap.SelectAggregate | sensecap.py:133 | selecting the columns succeeds exactly when some row has each of `time`, `measurement_id` and `average_value`, and keeps one row per row |
| SenseCap.TaggedHaveColumn | sensecap.py:129-133 | every tagged row has the `channel` column |
| SenseCap.AggregateData | sensecap.py:100-134 | `get_aggregate_data`: the payload, one request, then each channel's `lists` tagged with its `channel` and the four columns selected; stated by `AggregateParamsKeys`, `SelectAggregate` and `TaggedHaveColumn` |
| SenseCap.ListDeviceChannels | sensecap.py:136-141 | the channel list is `data`, `[]` when missing; a `data` that is not a list raises |
| Picarro.StemWithoutDot | workflows/convert_picaro_data.py:14 | a name with no `.` is its own stem |
| Picarro.StemDropsExtension | workflows/convert_picaro_data.py:14 | everything from the last `.` is removed |
| Picarro.NameAfterSlash | workflows/convert_picaro_data.py:14 | a path's name is the part after its last `/` |
| Picarro.BaseName | workflows/convert_picaro_data.py:14 | `path.name`, the part after the last `/`; stated by `NameAfterSlash` |
| Picarro.Stem | workflows/convert_picaro_data.py:14 | `rsplit('.', 1)[0]`, everything before the last `.`; stated by `StemWithoutDot` and `StemDropsExtension` |
| Picarro.OutputNameIs | workflows/convert_picaro_data.py:14-15 | the output is named after the input's stem plus `.csv` (a name with no `.` just gets `.csv`) and lies in `DATA_DIR` whatever the input's directory |
| Picarro.RowOfShape | workflows/convert_picaro_data.py:20-21 | a line's row is its whitespace-separated tokens, none empty and none with whitespace; it is empty exactly for a blank line |
| Picarro.StripKeepsSplit | workflows/convert_picaro_data.py:20 | stripping before splitting changes nothing |
| Picarro.SplitFromTokens | workflows/convert_picaro_data.py:20 | splitting yields tokens only |
| Picarro.SplitFromEmpty | workflows/convert_picaro_data.py:20-21 | splitting yields nothing exactly for whitespace only |
| Picarro.NonEmptyTokens | workflows/convert_picaro_data.py:20 | the `if x` filter keeps every token |
| Picarro.SplitJoinTokens | workflows/convert_picaro_data.py:20 | splitting tokens joined by spaces gives back the tokens |
| Picarro.Strip | workflows/convert_picaro_data.py:20 | `line.strip()`; stated by `StripKeepsSplit` |
| Picarro.SplitWhitespace | workflows/convert_picaro_data.py:20 | `split()`, the maximal runs of non-whitespace in order; stated by `SplitFromTokens`, `SplitFromEmpty` and `SplitJoinTokens` |
| Picarro.RowOf | workflows/convert_picaro_data.py:20 | one line's row; stated by `RowOfShape` |
| Picarro.CsvRows | workflows/convert_picaro_data.py:18-22 | the rows the conversion writes, one per non-blank line in order; stated by `CsvRowsOfLine`, `CsvRowsAppend` and `CsvRowsAreTokens`, and written by `ConvertToCsv` |
| Picarro.CsvRowsOfLine | workflows/convert_picaro_data.py:21-22 | a blank line writes no row, any other line exactly its tokens |
| Picarro.CsvRowsAppend | workflows/convert_picaro_data.py:18-22 | the rows of a file are those of its first part followed by those of the rest, in line order |
| Picarro.CsvRowsAreTokens | workflows/convert_picaro_data.py:18-22 | no more rows than lines, each row a non-empty list of tokens |
| Picarro.CsvWriter.constructor | workflows/convert_picaro_data.py:17 | a new writer has written nothing |
| Picarro.CsvWriter.WriteRow | workflows/convert_picaro_data.py:22 | writing a row appends it to the rows written |
| Picarro.ConvertToCsv | workflows/convert_picaro_data.py:9-22 | the output path is derived from the input name, and the loop writes exactly one row per non-blank line, in order |
| Smoothing.DetermineIndices | workflows/smoothing_comparison.py:21-28 | the window starts at `max(0, i - window_size//2)` and ends at `min(len, i + window_size//2)` |
| Smoothing.WindowBounds | workflows/smoothing_comparison.py:21-30 | for a window size of at least 0 the window lies in the data, holds `i` exactly when `window_size//2 >= 1`, and has at most `2*(window_size//2)` elements |
| Smoothing.SimpleMovingAverage | workflows/smoothing_comparison.py:19-30 | one entry per input element |
| Smoothing.SmaEntry | workflows/smoothing_comparison.py:30 | for a window size of at least 0, entry `i` is the mean of the slice `[max(0, i - w//2), min(len, i + w//2))`; no bound is then negative, so none counts from the end |
| Smoothing.Slice | workflows/smoothing_comparison.py:30 | `data.iloc[a:b]`: a negative bound first counts from the end, then both bounds are clamped to the data, and the slice is empty when they cross; stated by `SmaEntry` and `WindowBounds` |
| Smoothing.Mean | workflows/smoothing_comparison.py:30 | `.mean()`, NaN for an empty slice; stated by `MeanBounds` and `SmaDefined` |
| Smoothing.NegativeWindowCountsFromEnd | workflows/smoothing_comparison.py:21-30 | a negative window size is not rejected: for `[1, 2, 3, 4, 5]` and size -2 the first window is `iloc[1:-1]`, whose end counts from the back, and the entry is the number 3.0 |
| Smoothing.SmaDefined | workflows/smoothing_comparison.py:30 | for a window size of at least 0, every entry is a number exactly when the window size is at least 2; for sizes 0 and 1 the slice is empty and the mean is NaN |
| Smoothing.MeanBounds | workflows/smoothing_comparison.py:30 | the mean of a non-empty list of values in `[lo, hi]` lies in `[lo, hi]` |
| Smoothing.SmaWithin | workflows/smoothing_comparison.py:30 | for a window size of at least 2, smoothing data that lies in `[lo, hi]` gives at every entry a number in `[lo, hi]` |

## Left out

- Network and OAuth I/O are left out: token requests, headers and `requests.get`. Each client takes an oracle `fetch` from its structured request to a response. Every lemma quantifies over all oracles, so a server answering the rendered query strings is covered (`HoboLink.QueryDeterminesRequest`, `Tellus.SplitReparses`).
- `print` logging and warnings are left out. `sys.exit(1)` is the failure `SysExit`; raised exceptions are named failures.
- The recursions are bounded by a `fuel` argument, and running out of it is the outcome `OutOfFuel`. Claims about unbounded runs are stated as "never completes" (`AlwaysCappedNeverDone`, `CappedSecondNeverDone`, `AlwaysTooLargeNeverDone`) or as "enough fuel suffices" (`HonestTerminates`, `NarrowTerminates`).
- The HTTP body is taken to be valid JSON. A JSON decoding error is not modelled.
- `Tellus.RetrieveRange`, `Tellus.SingleResponse`, `HoboLink.RetrieveFrom`, `Licor.RetrieveFrom`: a response is its status and its records, and the key lookups on the JSON body are taken to succeed. A 200 body carries its records under `observation_list` (HOBOlink, hobolink.py:83), under `data` (LI-COR, licor.py:47), or as the list itself (TELLUS, tellus.py:44). An error body is a JSON object; TELLUS's error bodies carry `detail`. The model therefore leaves out four failures. A TELLUS error without `detail` raises KeyError instead of yielding `None` on 403 (tellus.py:48) or exiting (tellus.py:70). A 200 body without its records key raises KeyError (hobolink.py:83, licor.py:47). An error body that is not an object raises AttributeError on `.get` (hobolink.py:103, licor.py:72).
- A DataFrame is a sequence of records, or for SenseCAP of JSON-object rows. Column dtypes, indexes and `ignore_index` are not modelled.
- Non-object rows, and iteration over a non-empty JSON object, are modelled as a `ShapeError`. pandas would build odd tables from them instead.
- A JSON number with a fraction or an exponent (a Python float) is carried as its literal text (`JReal`), not as a value.
- The ISO reading covers only the formats the code emits and documents: a `YYYY-MM-DD` date, optionally followed by `T` or a space, `HH:MM[:SS[.f]]` with one to six fraction digits, and an offset `Z`, `±HH:MM` or `±HHMM`. The rest of `fromisoformat` and all of `pd.to_datetime` (other formats, nanoseconds, years outside 1 to 9999) are left out.
- `IsoTime.ParseIso`, `IsoTime.ParseOffset`: Python 3.11 or later is assumed. Earlier versions of `fromisoformat` raise on `Z` and on `±HHMM`: on the continuation start rendered with `%z` at hobolink.py:93 when the timestamps carry an offset, and on the `Z` end time built at hobolink.py:118.
- `IsoTime.ParseTimeOfDay`: reads only `HH:MM` and `HH:MM:SS`, the forms the code passes. A fraction, which `pd.to_datetime` accepts, and its other time formats are read as a parse error.
- `Tellus.Midpoint`, `Licor.RetrieveFrom`, `TellusWorkflows.DayBounds`, `HoboLink.ContinuationStart`: date-times range over years 1 to 9999, as Python's `datetime`. pandas' nanosecond `Timestamp` range, 1677-09-21 to 2262-04-11, is not modelled: the model does not fail where `pd.to_datetime` raises outside it (tellus.py:54-55, licor.py:53-54, tellus_workflows.py:40 and 44), or where `latest + 1 s` overflows it (hobolink.py:91-92).
- `HoboLink.RetrieveFrom`: every record carries a readable timestamp. `errors="coerce"` turns an unreadable one into NaT, which `max` skips, and a capped page of nothing but NaT makes `strftime` raise; neither is modelled. Records are compared by wall-clock second, while pandas compares timestamps with different UTC offsets (across a daylight-saving change, say) by instant.
- `Utils.TimeOfDay`, `Utils.ExtractTimePeriod`: a record's time is a whole wall-clock second. `.dt.time` keeps microseconds, so a row at 04:00:00.5 fails `<= 04:00:00` in pandas, which the model cannot express.
- `Tellus.RetrieveData` reads each caller bound once with `ReadText`, and split bounds carry their second and offset. Each recursive call's re-reading of the rendered midpoint is proved equal to the bound (`SplitReparses`).
- `SenseCap.HistoricParams`: `fromisoformat(..).timestamp() * 1000` is the abstract value `PMillis`, kept undivided. It uses floating point and the host's local time zone for naive strings.
- `SenseCap.AggregateParams`: the same conversion, truncated by `int`, is also the abstract value `PMillis`.
- `strptime("%Y-%m-%d")` in `validate_date` is the strict `YYYY-MM-DD` reading `ParseDate`. strptime also accepts one-digit months and days, and a day padded with a space (`2024-01- 5`).
- `require_env`, `tellus.py`'s `retrieve_device_metrics` and `retrieve_raw_request_data` are left out. The last two are debug helpers.
- Not modelled: `pivot_table` and the per-date mean in `generate_night_temperature_averages` (float aggregation), the EMA, the Butterworth filters, resampling and plotting in `smoothing_comparison.py`, `methane_data_processing.py` and `combo.py`.
- Smoothing works over `real`, not floating point. A NaN mean is `None`. pandas' skipping of NaN inputs is not modelled.
- `convert_to_csv` returns the undefined name `output_file`, which raises. The model returns the derived output path and the rows written instead.
- CSV quoting, file opening and `Path` normalisation are not modelled; `DATA_DIR` is the literal placeholder string.
- Whitespace is the set of characters Python's `str.isspace` accepts, listed explicitly. No other Unicode handling is modelled.
- `Utils.GetMonthWeeks`: weeks are returned as day number plus clock fields (`Moment`), not as `datetime` objects. `WeekShape` proves they are the valid date-times the source builds.
- `Utils.MonthStarts`: the "4 or more days in the month" test is specified over day ranges. `CountMatches` proves it equal to the source's `.month` count for every candidate week.

## Findings

| source | as written | input that shows it | evidently intended | confidence | as-written member | corrected member |
|---|---|---|---|---|---|---|
| hobolink.py:90-96 | after a capped page of 100000 records the next request starts one second after the page's latest timestamp, so records of that second that did not fit on the page are never asked for | a server holding 100001 records at second 100, asked for seconds 0 to 200: it returns the first 100000, the continuation asks for 101 to 200 and gets none, and the run finishes without the 100001st record | "retrieve all data" (hobolink.py:50-51), which holds only when a capped page ends on a whole second; the continuation's comment (line 92) takes that for granted | not executed | HoboLink.BoundarySecondLost | HoboLink.CompleteWhenSecondsWhole |
