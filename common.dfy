/** Values shared by the vendor clients: optional values, failure results,
    records, HTTP responses, request traces and comma-joined lists. */
module Common {

  datatype Option<T> = None | Some(value: T)

  /** Why a call did not produce a value. `SysExit` is the source's
      `sys.exit(1)`; the others stand for the Python exception raised. */
  datatype Error =
    | SysExit          // the script prints a message and exits with status 1
    | ParseError       // ValueError from parsing a date or time string
    | ValueError       // ValueError for an argument out of range
    | OverflowError    // a date outside years 1..9999
    | TypeError        // e.g. subtracting a naive from an aware timestamp
    | ConcatError      // pd.concat of no frames, or of frames that are all None
    | AttributeError   // attribute access on a value of the wrong kind
    | KeyError         // a missing dictionary key or DataFrame column
    | IndexError       // indexing past the end of a list
    | HttpError        // requests' raise_for_status on a 4xx/5xx status
    | ApiError         // a vendor payload that reports an error code
    | ShapeError       // an unexpected payload shape

  datatype Result<T> = Success(value: T) | Failure(error: Error)

  /** The outcome of a retrieval that is cut off after `fuel` nested requests:
      a value, a failure, or `OutOfFuel` when the recursion went deeper. */
  datatype Outcome<T> = Done(value: T) | Fail(error: Error) | OutOfFuel

  /** A record of a vendor response. `timestamp` is the record's wall-clock
      time in whole seconds since 0001-01-01 00:00:00; the other columns are
      carried along unchanged. */
  datatype Record = Record(timestamp: int, fields: seq<(string, string)>)

  /** An HTTP response: its status code and, for a 200, the decoded records. */
  datatype Response = Response(status: int, records: seq<Record>)

  /** What a retrieval returned, with every request it issued, in order. */
  datatype Run<T, Q> = Run(outcome: Outcome<T>, requests: seq<Q>)

  /** The most records a HoboLINK or LI-COR response carries. */
  const RecordCap: int := 100000

  /** The largest timestamp of a non-empty page. */
  function MaxTimestamp(page: seq<Record>): (m: int)
    requires page != []
    ensures exists k :: 0 <= k < |page| && page[k].timestamp == m
    ensures forall k :: 0 <= k < |page| ==> page[k].timestamp <= m
  {
    if |page| == 1 then page[0].timestamp
    else
      var rest := MaxTimestamp(page[1..]);
      assert forall k :: 1 <= k < |page| ==> page[k] == page[1..][k - 1];
      if page[0].timestamp >= rest then page[0].timestamp else rest
  }

  /** Python's `max` and `min` of two integers. */
  function Max(a: int, b: int): int { if a >= b then a else b }

  function Min(a: int, b: int): int { if a <= b then a else b }

  /** Python's `sep.join(items)`. */
  function Join(items: seq<string>, sep: char): string
  {
    if items == [] then ""
    else if |items| == 1 then items[0]
    else items[0] + [sep] + Join(items[1..], sep)
  }

  /** Python's `s.split(sep)`: the pieces between separators, keeping empty
      ones; the split of "" is [""]. */
  function Split(s: string, sep: char): (pieces: seq<string>)
    ensures |pieces| >= 1
    ensures forall k :: 0 <= k < |pieces| ==> sep !in pieces[k]
    decreases |s|
  {
    if s == [] then [""]
    else
      var rest := Split(s[1..], sep);
      if s[0] == sep then [""] + rest
      else [[s[0]] + rest[0]] + rest[1..]
  }

  lemma {:induction false} SplitAppend(a: string, b: string, sep: char)
    requires sep !in a
    ensures Split(a + [sep] + b, sep) == [a] + Split(b, sep)
    decreases |a|
  {
    if a == [] {
      assert a + [sep] + b == [sep] + b;
      assert ([sep] + b)[1..] == b;
    } else {
      assert (a + [sep] + b)[1..] == a[1..] + [sep] + b;
      SplitAppend(a[1..], b, sep);
      assert [a[0]] + a[1..] == a;
    }
  }

  lemma {:induction false} SplitNoSep(a: string, sep: char)
    requires sep !in a
    ensures Split(a, sep) == [a]
    decreases |a|
  {
    if a != [] {
      SplitNoSep(a[1..], sep);
      assert [a[0]] + a[1..] == a;
    }
  }

  /** Splitting a comma-joined list of names that hold no comma gives the
      list back: the joined `deviceId`, `metric` and `loggers` parameters
      name exactly the devices and metrics passed in. */
  lemma {:induction false} SplitJoin(items: seq<string>, sep: char)
    requires items != []
    requires forall k :: 0 <= k < |items| ==> sep !in items[k]
    ensures Split(Join(items, sep), sep) == items
    decreases |items|
  {
    if |items| == 1 {
      SplitNoSep(items[0], sep);
    } else {
      SplitJoin(items[1..], sep);
      SplitAppend(items[0], Join(items[1..], sep), sep);
      assert [items[0]] + items[1..] == items;
    }
  }

  /** Whether every record's timestamp lies in `lo..hi`. */
  predicate AllWithin(records: seq<Record>, lo: int, hi: int)
  {
    forall k :: 0 <= k < |records| ==> lo <= records[k].timestamp <= hi
  }

  lemma AllWithinConcat(a: seq<Record>, b: seq<Record>, lo: int, hi: int)
    requires AllWithin(a, lo, hi) && AllWithin(b, lo, hi)
    ensures AllWithin(a + b, lo, hi)
  {
    assert forall k :: 0 <= k < |a + b| ==> (a + b)[k] == if k < |a| then a[k] else b[k - |a|];
  }

  /** Appends the first page to the outcome of what followed it. */
  function Prepend(page: seq<Record>, rest: Outcome<seq<Record>>): (r: Outcome<seq<Record>>)
    ensures r.Done? <==> rest.Done?
    ensures r.Done? ==> r.value == page + rest.value
    ensures rest.Fail? ==> r == rest
    ensures rest.OutOfFuel? ==> r.OutOfFuel?
  {
    match rest
    case Done(more) => Done(page + more)
    case Fail(e) => Fail(e)
    case OutOfFuel => OutOfFuel
  }
}
