/** Signal generation of the moving-average crossover strategy. */
module Signals {
  import opened Wrappers
  import opened Dates

  /** One row of the downloaded price table: its date and closing price. */
  datatype Bar = Bar(date: Date, close: real)

  /** One row of the table `calculate_signals` returns: the bar, both moving
      averages, the +1/-1 signal and its first difference. */
  datatype SignalRow = SignalRow(date: Date, close: real, smaShort: real, smaLong: real, signal: int, position: int)

  /** The sum of the closing prices of rows lo .. hi-1. */
  function SumCloses(bars: seq<Bar>, lo: int, hi: int): real
    requires 0 <= lo <= hi <= |bars|
    decreases hi - lo
  {
    if lo == hi then 0.0 else SumCloses(bars, lo, hi - 1) + bars[hi - 1].close
  }

  /** The arithmetic mean of the closing prices of the w rows ending at row i. */
  function MeanClose(bars: seq<Bar>, w: int, i: int): real
    requires 1 <= w <= i + 1 <= |bars|
  {
    SumCloses(bars, i + 1 - w, i + 1) / w as real
  }

  /** `Close.rolling(window=w).mean()` at row i: undefined (NaN) until w rows
      are available, and for a window below 1. */
  function RollingMean(bars: seq<Bar>, w: int, i: int): Option<real>
    requires 0 <= i < |bars|
  {
    if 1 <= w <= i + 1 then Some(MeanClose(bars, w, i)) else None
  }

  /** `np.where(SMA_short > SMA_long, 1, -1)` at row i: a comparison with NaN is false. */
  function SignalAt(bars: seq<Bar>, s: int, l: int, i: int): int
    requires 0 <= i < |bars|
  {
    var a := RollingMean(bars, s, i);
    var b := RollingMean(bars, l, i);
    if a.Some? && b.Some? && a.value > b.value then 1 else -1
  }

  function Max(a: int, b: int): int { if a >= b then a else b }

  /** The first row that survives `dropna`: both averages are defined and
      the difference has a predecessor. */
  function FirstRow(s: int, l: int): int
  {
    Max(s, Max(l, 2)) - 1
  }

  /** The surviving row at index i of the price table. */
  function RowAt(bars: seq<Bar>, s: int, l: int, i: int): (row: SignalRow)
    requires 1 <= s && 1 <= l && FirstRow(s, l) <= i < |bars|
    ensures row.date == bars[i].date && row.close == bars[i].close
    ensures 1 <= s <= i + 1 && 1 <= l <= i + 1
    ensures row.smaShort == MeanClose(bars, s, i)
    ensures row.smaLong == MeanClose(bars, l, i)
    ensures row.signal == SignalAt(bars, s, l, i)
    ensures row.position == row.signal - SignalAt(bars, s, l, i - 1)
  {
    var a := RollingMean(bars, s, i).value;
    var b := RollingMean(bars, l, i).value;
    SignalRow(bars[i].date, bars[i].close, a, b,
      SignalAt(bars, s, l, i), SignalAt(bars, s, l, i) - SignalAt(bars, s, l, i - 1))
  }

  /** Both windows are usable and the table is long enough for one row to survive. */
  predicate Retains(bars: seq<Bar>, s: int, l: int)
  {
    1 <= s && 1 <= l && FirstRow(s, l) < |bars|
  }

  /** The rows from index `first` to the end of the price table. */
  function RowsFrom(bars: seq<Bar>, s: int, l: int, first: int): (r: seq<SignalRow>)
    requires 1 <= s && 1 <= l && FirstRow(s, l) == first < |bars|
    ensures |r| == |bars| - first
    ensures forall k :: 0 <= k < |r| ==> r[k] == RowAt(bars, s, l, first + k)
  {
    seq(|bars| - first, k requires 0 <= k < |bars| - first => RowAt(bars, s, l, first + k))
  }

  /** `calculate_signals`: the rows that survive `dropna`, in order, each with
      its averages, its signal and the change of signal from the row before. */
  function CalculateSignals(bars: seq<Bar>, s: int, l: int): (r: seq<SignalRow>)
    ensures r == [] <==> !Retains(bars, s, l)
    ensures Retains(bars, s, l) ==> |bars| - |r| == FirstRow(s, l)
    ensures forall k :: 0 <= k < |r| ==>
      Retains(bars, s, l) && FirstRow(s, l) + k < |bars| && r[k] == RowAt(bars, s, l, FirstRow(s, l) + k)
  {
    if Retains(bars, s, l) then RowsFrom(bars, s, l, FirstRow(s, l)) else []
  }

  /** The surviving rows are the suffix of the price table from the first
      row at which both averages are defined (and not the very first row),
      with each row's date and close and the means of the s and l closes
      ending at it. */
  lemma SignalRowsAreSuffix(bars: seq<Bar>, s: int, l: int)
    ensures var r := CalculateSignals(bars, s, l);
      forall k :: 0 <= k < |r| ==>
        var i := |bars| - |r| + k;
        r[k].date == bars[i].date && r[k].close == bars[i].close
        && 1 <= s <= i + 1 && 1 <= l <= i + 1
        && r[k].smaShort == MeanClose(bars, s, i) && r[k].smaLong == MeanClose(bars, l, i)
  {
    var r := CalculateSignals(bars, s, l);
    if r != [] {
      var first := FirstRow(s, l);
      assert |bars| - |r| == first;
      forall k | 0 <= k < |r|
        ensures var i := first + k;
          r[k].date == bars[i].date && r[k].close == bars[i].close
          && 1 <= s <= i + 1 && 1 <= l <= i + 1
          && r[k].smaShort == MeanClose(bars, s, i) && r[k].smaLong == MeanClose(bars, l, i)
      {
        var row := RowAt(bars, s, l, first + k);
        assert r[k] == row;
      }
    }
  }

  /** Each surviving row's signal is +1 exactly when the short average is
      above the long one, its position is -2, 0 or +2, and from the second
      row on the position is the change of signal from the row before. */
  lemma SignalsAreCrossings(bars: seq<Bar>, s: int, l: int)
    ensures var r := CalculateSignals(bars, s, l);
      (forall k :: 0 <= k < |r| ==> r[k].signal == (if r[k].smaShort > r[k].smaLong then 1 else -1))
      && (forall k :: 0 <= k < |r| ==> r[k].position == -2 || r[k].position == 0 || r[k].position == 2)
      && (forall k :: 0 < k < |r| ==> r[k].position == r[k].signal - r[k - 1].signal)
  {
    var r := CalculateSignals(bars, s, l);
    forall k | 0 <= k < |r|
      ensures r[k].signal == (if r[k].smaShort > r[k].smaLong then 1 else -1)
      ensures r[k].position == -2 || r[k].position == 0 || r[k].position == 2
    {
      var i := |bars| - |r| + k;
      assert r[k] == RowAt(bars, s, l, i);
      assert RollingMean(bars, s, i) == Some(r[k].smaShort);
      assert RollingMean(bars, l, i) == Some(r[k].smaLong);
    }
    forall k | 0 < k < |r|
      ensures r[k].position == r[k].signal - r[k - 1].signal
    {
      var i := |bars| - |r| + k;
      assert r[k] == RowAt(bars, s, l, i);
      assert r[k - 1] == RowAt(bars, s, l, i - 1);
    }
  }

  /** The first surviving row buys exactly when the short average is above the
      long one: the row before it has an undefined average, so its signal is -1
      (with both windows 1 the averages coincide and no row is ever a buy). */
  lemma FirstPositionIsCrossUp(bars: seq<Bar>, s: int, l: int)
    requires CalculateSignals(bars, s, l) != []
    ensures var r := CalculateSignals(bars, s, l);
      (r[0].position == 2 <==> r[0].smaShort > r[0].smaLong)
      && (r[0].position == 0 <==> !(r[0].smaShort > r[0].smaLong))
  {
    var first := FirstRow(s, l);
    assert CalculateSignals(bars, s, l)[0] == RowAt(bars, s, l, first);
    if Max(s, l) >= 2 {
      assert RollingMean(bars, Max(s, l), first - 1).None?;
      assert SignalAt(bars, s, l, first - 1) == -1;
    } else {
      assert SignalAt(bars, s, l, first - 1) == -1;
      assert RollingMean(bars, s, first) == RollingMean(bars, l, first);
    }
  }
}
