/** `simple_moving_average`: entry `i` is the mean of the data in the
    half-open window `[i - window_size // 2, i + window_size // 2)`, clamped
    to the data: `window_size // 2` places before `i`, `i` itself and
    `window_size // 2 - 1` places after it. */
module Smoothing {
  import opened Common

  /** `determine_indicies(i, window_size, data_length)`: `i -/+ window_size
      // 2`, the start raised to 0 and the end lowered to the length. Python's
      `//` floors, as `/` does here for the divisor 2. */
  function DetermineIndices(i: int, windowSize: int, dataLength: int): (bounds: (int, int))
    ensures bounds.0 == Max(0, i - windowSize / 2)
    ensures bounds.1 == Min(dataLength, i + windowSize / 2)
  {
    var startIndex := i - windowSize / 2;
    var endIndex := i + windowSize / 2;
    (if startIndex < 0 then 0 else startIndex, if endIndex > dataLength then dataLength else endIndex)
  }

  /** For a window size of at least 0, an index's window lies inside the
      data, holds the index exactly when it reaches one place either side,
      and is at most `2 * (window_size // 2)` long. */
  lemma WindowBounds(i: int, windowSize: int, dataLength: int)
    requires windowSize >= 0 && 0 <= i < dataLength
    ensures var (start, end) := DetermineIndices(i, windowSize, dataLength);
      && 0 <= start <= i <= end <= dataLength
      && (start <= i < end <==> windowSize / 2 >= 1)
      && end - start <= 2 * (windowSize / 2)
  {
  }

  /** A Python slice bound: a negative one counts from the end; both are
      clamped to the sequence. */
  function SliceBound(k: int, length: nat): (b: nat)
    ensures b <= length
  {
    if k < 0 then Max(0, k + length) else Min(k, length)
  }

  /** `data.iloc[a:b]`. */
  function Slice(data: seq<real>, a: int, b: int): seq<real>
  {
    var lo, hi := SliceBound(a, |data|), SliceBound(b, |data|);
    if lo < hi then data[lo..hi] else []
  }

  function Sum(s: seq<real>): real
    decreases |s|
  {
    if s == [] then 0.0 else s[0] + Sum(s[1..])
  }

  /** `.mean()`: `None` (NaN) for an empty slice. */
  function Mean(s: seq<real>): Option<real>
  {
    if s == [] then None else Some(Sum(s) / (|s| as real))
  }

  /** `simple_moving_average(data, window_size)`. */
  function SimpleMovingAverage(data: seq<real>, windowSize: int): (sma: seq<Option<real>>)
    ensures |sma| == |data|
  {
    seq(|data|, i requires 0 <= i < |data| =>
      Mean(Slice(data, DetermineIndices(i, windowSize, |data|).0, DetermineIndices(i, windowSize, |data|).1)))
  }

  /** For a window size of at least 0, entry `i` is the mean of
      `data[max(0, i - w//2) .. min(len, i + w//2)]`: no bound is negative,
      so none counts from the end. */
  lemma SmaEntry(data: seq<real>, windowSize: int, i: int)
    requires windowSize >= 0 && 0 <= i < |data|
    ensures SimpleMovingAverage(data, windowSize)[i]
         == Mean(data[Max(0, i - windowSize / 2)..Min(|data|, i + windowSize / 2)])
  {
    WindowBounds(i, windowSize, |data|);
  }

  /** A negative window size makes the bounds cross zero: `i - w//2` exceeds
      `i + w//2`, and the negative end counts from the back of the data, so
      the first entry of `[1, 2, 3, 4, 5]` under size -2 averages `iloc[1:-1]`. */
  lemma NegativeWindowCountsFromEnd()
    ensures Slice([1.0, 2.0, 3.0, 4.0, 5.0], 1, -1) == [2.0, 3.0, 4.0]
    ensures SimpleMovingAverage([1.0, 2.0, 3.0, 4.0, 5.0], -2)[0] == Some(3.0)
  {
    var data := [1.0, 2.0, 3.0, 4.0, 5.0];
    assert DetermineIndices(0, -2, 5) == (1, -1);
    assert data[1..4] == [2.0, 3.0, 4.0];
    assert Sum([2.0, 3.0, 4.0]) == 9.0 by {
      assert [2.0, 3.0, 4.0][1..] == [3.0, 4.0];
      assert [3.0, 4.0][1..] == [4.0];
      assert [4.0][1..] == [];
    }
  }

  /** Windows of size 0 or 1 reach no neighbour and are empty, so every
      entry is NaN; from size 2 on every entry is a number. */
  lemma SmaDefined(data: seq<real>, windowSize: int, i: int)
    requires windowSize >= 0 && 0 <= i < |data|
    ensures SimpleMovingAverage(data, windowSize)[i].Some? <==> windowSize >= 2
  {
    SmaEntry(data, windowSize, i);
    WindowBounds(i, windowSize, |data|);
  }

  /** The sum of values in `[lo, hi]` lies between `n * lo` and `n * hi`. */
  lemma {:induction false} SumBounds(s: seq<real>, lo: real, hi: real)
    requires forall k :: 0 <= k < |s| ==> lo <= s[k] <= hi
    ensures (|s| as real) * lo <= Sum(s) <= (|s| as real) * hi
    decreases |s|
  {
    if s != [] {
      SumBounds(s[1..], lo, hi);
    }
  }

  /** The mean of values in `[lo, hi]` lies in `[lo, hi]`. */
  lemma MeanBounds(s: seq<real>, lo: real, hi: real)
    requires s != []
    requires forall k :: 0 <= k < |s| ==> lo <= s[k] <= hi
    ensures lo <= Mean(s).value <= hi
  {
    SumBounds(s, lo, hi);
    var n := |s| as real;
    var m := Sum(s) / n;
    assert m * n == Sum(s);
    if m < lo {
      assert m * n < lo * n;
    }
    if m > hi {
      assert m * n > hi * n;
    }
  }

  /** Smoothing data that lies in `[lo, hi]` gives values in `[lo, hi]`; in
      particular constant data is its own moving average. */
  lemma SmaWithin(data: seq<real>, windowSize: int, lo: real, hi: real, i: int)
    requires windowSize >= 2 && 0 <= i < |data|
    requires forall k :: 0 <= k < |data| ==> lo <= data[k] <= hi
    ensures SimpleMovingAverage(data, windowSize)[i].Some?
    ensures lo <= SimpleMovingAverage(data, windowSize)[i].value <= hi
  {
    SmaEntry(data, windowSize, i);
    WindowBounds(i, windowSize, |data|);
    var window := data[Max(0, i - windowSize / 2)..Min(|data|, i + windowSize / 2)];
    assert forall k :: 0 <= k < |window| ==> window[k] == data[Max(0, i - windowSize / 2) + k];
    MeanBounds(window, lo, hi);
  }
}
