/** The performance metrics computed from a run's portfolio values. */
module Metrics {
  import opened Wrappers
  import opened Signals
  import opened Errors

  /** Division in which a zero divisor gives 0 (numpy's inf/nan for a zero
      divisor are not modelled; a run from positive cash never divides by zero). */
  function SafeDiv(a: real, b: real): real
  {
    if b == 0.0 then 0.0 else a / b
  }

  /** The largest of the values v[0..i]. */
  function PrefixMax(v: seq<real>, i: int): (r: real)
    requires 0 <= i < |v|
    ensures forall j :: 0 <= j <= i ==> v[j] <= r
    ensures exists j :: 0 <= j <= i && r == v[j]
  {
    if i == 0 then v[0]
    else
      var p := PrefixMax(v, i - 1);
      if p >= v[i] then p else v[i]
  }

  /** `np.maximum.accumulate`: the running maximum. */
  function RunningMax(v: seq<real>): (m: seq<real>)
    ensures |m| == |v|
    ensures forall i :: 0 <= i < |v| ==> m[i] == PrefixMax(v, i)
  {
    seq(|v|, i requires 0 <= i < |v| => PrefixMax(v, i))
  }

  /** The running maximum never decreases and lies at or above each value. */
  lemma RunningMaxNonDecreasing(v: seq<real>)
    ensures NonDecreasing(RunningMax(v))
    ensures forall i :: 0 <= i < |v| ==> v[i] <= RunningMax(v)[i]
  {
    var m := RunningMax(v);
    forall i | 0 < i < |v| ensures m[i - 1] <= m[i] {
      assert m[i] == PrefixMax(v, i) && m[i - 1] == PrefixMax(v, i - 1);
    }
  }

  /** How far value i has fallen below the peak so far, as a fraction of it. */
  function DrawdownAt(v: seq<real>, i: int): real
    requires 0 <= i < |v|
  {
    SafeDiv(v[i] - PrefixMax(v, i), PrefixMax(v, i))
  }

  /** `(v - running_max) / running_max`, element-wise. */
  function Drawdowns(v: seq<real>): (d: seq<real>)
    ensures |d| == |v|
    ensures forall i :: 0 <= i < |v| ==> d[i] == DrawdownAt(v, i)
  {
    seq(|v|, i requires 0 <= i < |v| => DrawdownAt(v, i))
  }

  /** The smallest of s[0..n]. */
  function MinUpTo(s: seq<real>, n: int): (r: real)
    requires 0 < n <= |s|
    ensures forall i :: 0 <= i < n ==> r <= s[i]
    ensures exists i :: 0 <= i < n && r == s[i]
  {
    if n == 1 then s[0]
    else
      var rest := MinUpTo(s, n - 1);
      if s[n - 1] <= rest then s[n - 1] else rest
  }

  /** `drawdown.min() * 100`. */
  function MaxDrawdown(v: seq<real>): real
    requires |v| > 0
  {
    MinUpTo(Drawdowns(v), |v|) * 100.0
  }

  ghost predicate NonDecreasing(v: seq<real>)
  {
    forall i :: 0 < i < |v| ==> v[i - 1] <= v[i]
  }

  /** In a never-decreasing series every value is the largest so far. */
  lemma {:induction false} PrefixMaxOfNonDecreasing(v: seq<real>, i: int)
    requires 0 <= i < |v| && NonDecreasing(v)
    ensures PrefixMax(v, i) == v[i]
  {
    if i > 0 {
      PrefixMaxOfNonDecreasing(v, i - 1);
    }
  }

  /** With positive values each drawdown is at most zero, and zero exactly
      at a new peak. */
  lemma DrawdownsAtPeaks(v: seq<real>)
    requires forall i :: 0 <= i < |v| ==> v[i] > 0.0
    ensures forall i :: 0 <= i < |v| ==>
      DrawdownAt(v, i) <= 0.0 && (DrawdownAt(v, i) == 0.0 <==> v[i] == PrefixMax(v, i))
  {
    forall i | 0 <= i < |v|
      ensures DrawdownAt(v, i) <= 0.0 && (DrawdownAt(v, i) == 0.0 <==> v[i] == PrefixMax(v, i))
    {
      DrawdownOfPoint(v[i], PrefixMax(v, i));
    }
  }

  /** A series never decreases exactly when every value is a new peak. */
  lemma NonDecreasingIffAllPeaks(v: seq<real>)
    ensures NonDecreasing(v) <==> forall i :: 0 <= i < |v| ==> v[i] == PrefixMax(v, i)
  {
    if NonDecreasing(v) {
      forall i | 0 <= i < |v| ensures v[i] == PrefixMax(v, i) {
        PrefixMaxOfNonDecreasing(v, i);
      }
    }
    if forall i :: 0 <= i < |v| ==> v[i] == PrefixMax(v, i) {
      forall i | 0 < i < |v| ensures v[i - 1] <= v[i] {
        assert v[i - 1] <= PrefixMax(v, i);
      }
    }
  }

  /** With positive portfolio values the maximum drawdown is never positive,
      and it is zero exactly when the values never decrease. */
  lemma MaxDrawdownSign(v: seq<real>)
    requires |v| > 0
    requires forall i :: 0 <= i < |v| ==> v[i] > 0.0
    ensures MaxDrawdown(v) <= 0.0
    ensures MaxDrawdown(v) == 0.0 <==> NonDecreasing(v)
  {
    var d := Drawdowns(v);
    DrawdownsAtPeaks(v);
    NonDecreasingIffAllPeaks(v);
    var mn := MinUpTo(d, |v|);
    var j :| 0 <= j < |v| && mn == d[j];
    assert mn <= 0.0;
    if mn == 0.0 {
      assert forall i :: 0 <= i < |v| ==> d[i] == 0.0;
    }
    if NonDecreasing(v) {
      assert d[j] == 0.0;
    }
  }

  /** The drawdown of one positive value below a peak at or above it. */
  lemma DrawdownOfPoint(x: real, m: real)
    requires 0.0 < x <= m
    ensures SafeDiv(x - m, m) <= 0.0
    ensures SafeDiv(x - m, m) == 0.0 <==> x == m
  {
  }

  /** The relative change from value i to value i + 1. */
  function ReturnAt(v: seq<real>, i: int): real
    requires 0 <= i < |v| - 1
  {
    SafeDiv(v[i + 1] - v[i], v[i])
  }

  /** `pct_change().dropna()`: the relative change from each value to the next. */
  function Returns(v: seq<real>): (r: seq<real>)
    ensures |r| == if |v| == 0 then 0 else |v| - 1
    ensures forall i :: 0 <= i < |r| ==> r[i] == ReturnAt(v, i)
  {
    if |v| <= 1 then [] else seq(|v| - 1, i requires 0 <= i < |v| - 1 => ReturnAt(v, i))
  }

  ghost predicate AllEqual(s: seq<real>)
  {
    forall i :: 0 <= i < |s| ==> s[i] == s[0]
  }

  /** The Sharpe ratio: `ratio` stands for the annualised mean/std arithmetic,
      which applies only when there are at least two returns (the sample
      standard deviation of one return is NaN) and they are not all equal
      (zero standard deviation); otherwise 0.0. */
  function SharpeRatio(v: seq<real>, ratio: seq<real> -> real): (r: real)
    ensures |Returns(v)| < 2 ==> r == 0.0
    ensures AllEqual(Returns(v)) ==> r == 0.0
    ensures !(|Returns(v)| < 2 || AllEqual(Returns(v))) ==> r == ratio(Returns(v))
  {
    var rs := Returns(v);
    if |rs| >= 2 && exists i :: 0 <= i < |rs| && rs[i] != rs[0] then ratio(rs) else 0.0
  }

  /** The performance numbers `calculate_metrics` stores. */
  datatype Metrics = Metrics(finalValue: real, totalReturn: real, maxDrawdown: real, sharpeRatio: real, numTrades: nat)

  /** `(final - initial) / initial * 100`: growth in percent, which scales
      the initial capital back to the final value. */
  function TotalReturn(finalValue: real, initial: real): (r: real)
    requires initial != 0.0
    ensures initial * (1.0 + r / 100.0) == finalValue
    ensures r == 0.0 <==> finalValue == initial
  {
    (finalValue - initial) / initial * 100.0
  }

  /** `calculate_metrics` on the portfolio values (one per signal row): the
      last value is read first (IndexError when there is none), then the total
      return divides by the initial capital and the buy-and-hold return by the
      first close (ZeroDivisionError on a zero). */
  function CalculateMetrics(rows: seq<SignalRow>, values: seq<real>, initial: real, numTrades: nat,
                            ratio: seq<real> -> real): (r: Result<Metrics, RunError>)
    requires |rows| == |values|
    ensures values == [] <==> r == Failure(IndexOutOfRange)
    ensures r.Failure? <==> (values == [] || initial == 0.0 || rows[0].close == 0.0)
    ensures r.Failure? && values != [] ==> r.error == ZeroDivision
    ensures r.Success? ==> r.value.finalValue == values[|values| - 1]
    ensures r.Success? ==> r.value.totalReturn == TotalReturn(r.value.finalValue, initial)
    ensures r.Success? ==> r.value.maxDrawdown == MaxDrawdown(values)
    ensures r.Success? ==> r.value.sharpeRatio == SharpeRatio(values, ratio)
    ensures r.Success? ==> r.value.numTrades == numTrades
  {
    if values == [] then Failure(IndexOutOfRange)
    else if initial == 0.0 || rows[0].close == 0.0 then Failure(ZeroDivision)
    else
      var finalValue := values[|values| - 1];
      Success(Metrics(finalValue, TotalReturn(finalValue, initial), MaxDrawdown(values), SharpeRatio(values, ratio), numTrades))
  }

  /** A run whose portfolio never moved reports a zero return, a zero drawdown
      and the zero Sharpe fallback. */
  lemma FlatSeriesMetrics(rows: seq<SignalRow>, values: seq<real>, initial: real, numTrades: nat,
                          ratio: seq<real> -> real)
    requires |rows| == |values|
    requires forall k :: 0 <= k < |values| ==> values[k] == initial
    requires CalculateMetrics(rows, values, initial, numTrades, ratio).Success?
    ensures var m := CalculateMetrics(rows, values, initial, numTrades, ratio).value;
      m.totalReturn == 0.0 && m.maxDrawdown == 0.0 && m.sharpeRatio == 0.0
  {
    var d := Drawdowns(values);
    forall i | 0 <= i < |values| ensures d[i] == 0.0 {
      var j :| 0 <= j <= i && PrefixMax(values, i) == values[j];
    }
    var mn := MinUpTo(d, |values|);
    var rs := Returns(values);
    assert forall i :: 0 <= i < |rs| ==> rs[i] == 0.0;
  }
}
