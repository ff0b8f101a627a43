/** The strategy object of one back-test request and the outcome of its run. */
module Strategy {
  import opened Wrappers
  import opened Dates
  import opened JsonValue
  import opened Errors
  import opened Signals
  import opened Simulation
  import opened Metrics
  import Text
  import Models

  const TwoTo64: int := 0x1_0000_0000_0000_0000
  const TwoTo256: int := TwoTo64 * TwoTo64 * TwoTo64 * TwoTo64
  const TwoTo1024: int := TwoTo256 * TwoTo256 * TwoTo256 * TwoTo256

  /** 2^1024 - 2^970, half-way between the largest finite double
      (2^1024 - 2^971) and 2^1024: an integer at least this large in
      magnitude rounds beyond the doubles, so `float(i)` raises OverflowError. */
  const FloatIntLimit: int := TwoTo1024 - TwoTo1024 / 0x40_0000_0000_0000

  predicate TooLargeForFloat(i: int)
  {
    i >= FloatIntLimit || -i >= FloatIntLimit
  }

  /** Formatting the initial capital as `{x:,.2f}` (the run's banner does this
      before anything else): booleans, floats and integers within float range
      format; an integer beyond it fails its conversion to float, and anything
      else raises a format error. */
  function CapitalValue(j: Json): (r: Result<real, RunError>)
    ensures r.Success? <==> PyNumber(j).Some? && !(j.JInt? && TooLargeForFloat(j.i))
    ensures r.Success? ==> r.value == PyNumber(j).value
    ensures j.JInt? && TooLargeForFloat(j.i) ==> r == Failure(CapitalFormat("int too large to convert to float"))
    ensures r.Failure? ==> r.error.CapitalFormat? && r.error.message != ""
  {
    match j
    case JStr(_) => Failure(CapitalFormat("Unknown format code 'f' for object of type 'str'"))
    case JNull => Failure(CapitalFormat("unsupported format string passed to NoneType.__format__"))
    case JArray(_) => Failure(CapitalFormat("unsupported format string passed to list.__format__"))
    case JObject(_) => Failure(CapitalFormat("unsupported format string passed to dict.__format__"))
    case JInt(i) =>
      if TooLargeForFloat(i) then Failure(CapitalFormat("int too large to convert to float"))
      else Success(i as real)
    case _ => Success(PyNumber(j).value)
  }

  /** Every integer below 2^64 in magnitude formats, with its own value. */
  lemma SmallIntegerCapital(i: int)
    requires -TwoTo64 < i < TwoTo64
    ensures CapitalValue(JInt(i)) == Success(i as real)
  {
    assert TwoTo64 < FloatIntLimit;
  }

  /** 2^63: pandas holds a fixed window and its `min_periods` in int64. */
  const Int64Limit: int := 0x8000_0000_0000_0000

  /** pandas accepts a rolling window only if it is a non-negative integer;
      one that does not fit in int64 overflows when the mean is computed. */
  function WindowValue(j: Json): (r: Result<nat, RunError>)
    ensures r.Success? <==> (j.JInt? && 0 <= j.i < Int64Limit)
    ensures r.Success? ==> r.value == j.i
    ensures r.Failure? ==> (r.error == WindowOverflow <==> (j.JInt? && j.i >= Int64Limit))
    ensures r.Failure? ==> r.error == BadWindow || r.error == WindowOverflow
  {
    if j.JInt? && j.i >= 0 then
      if j.i < Int64Limit then Success(j.i) else Failure(WindowOverflow)
    else Failure(BadWindow)
  }

  /** The commit of the new record: `initial_capital` is a `Numeric(12, 2)`
      column, so PostgreSQL refuses a boolean, and a value that rounds to
      10^10 or more in magnitude at two decimals. */
  function CapitalColumnError(capital: Json, c: real): (r: Option<RunError>)
    ensures r.None? <==> (!capital.JBool? && -9999999999.995 < c < 9999999999.995)
    ensures capital.JBool? ==> r == Some(BooleanCapital)
    ensures !capital.JBool? && r.Some? ==> r == Some(CapitalOverflow)
  {
    if capital.JBool? then Some(BooleanCapital)
    else if c <= -9999999999.995 || c >= 9999999999.995 then Some(CapitalOverflow)
    else None
  }

  /** `f"MA_Crossover_{short}_{long}"`. */
  function StrategyName(s: nat, l: nat): string
  {
    "MA_Crossover_" + Text.NatToString(s) + "_" + Text.NatToString(l)
  }

  /** The `backtests` row created before the simulation starts. */
  function RunningRecord(stock: Models.Stock, btId: int, s: nat, l: nat, start: Date, end: Date,
                         capital: real, createdAt: DateTime): Models.Backtest
  {
    Models.Backtest(btId, stock.id, Some(stock), StrategyName(s, l), start, end, capital,
      None, None, None, None, None, Some("running"), Some(createdAt), None)
  }

  /** The row after `calculate_metrics` has assigned its results. */
  function CompletedRecord(b: Models.Backtest, m: Metrics, completedAt: DateTime): Models.Backtest
  {
    b.(finalValue := Some(m.finalValue), totalReturn := Some(m.totalReturn),
       maxDrawdown := Some(m.maxDrawdown), sharpeRatio := Some(m.sharpeRatio),
       numTrades := Some(m.numTrades), status := Some("completed"), completedAt := Some(completedAt))
  }

  function PortfolioValues(hs: seq<Models.PortfolioHistory>): (v: seq<real>)
    ensures |v| == |hs|
    ensures forall k :: 0 <= k < |hs| ==> v[k] == hs[k].portfolioValue
  {
    seq(|hs|, k requires 0 <= k < |hs| => hs[k].portfolioValue)
  }

  /** Everything one run leaves behind: its result, the `backtests` row it
      saved (if it got that far), and the trade and history rows of a
      simulation that finished. */
  datatype Outcome = Outcome(
    result: Result<Models.Backtest, RunError>,
    saved: Option<Models.Backtest>,
    rows: Option<(seq<Models.Trade>, seq<Models.PortfolioHistory>)>)

  /** The part of `run_backtest` after the record is created: the loop over
      the signal rows, then the metrics. */
  function Finish(record: Models.Backtest, rows: seq<SignalRow>, c: real, btId: int,
                  completedAt: DateTime, ratio: seq<real> -> real): Outcome
  {
    match Run(rows, c, btId, |rows|)
    case Failure(e) => Outcome(Failure(e), Some(record), None)
    case Success(h) =>
      assert |h.history| == |rows| by { RunKeepsInvariant(rows, c, btId, |rows|); }
      match CalculateMetrics(rows, PortfolioValues(h.history), c, |h.trades|, ratio)
      case Failure(e) => Outcome(Failure(e), Some(record), Some((h.trades, h.history)))
      case Success(m) =>
        var done := CompletedRecord(record, m, completedAt);
        Outcome(Success(done), Some(done), Some((h.trades, h.history)))
  }

  /** Everything `run_backtest` checks before its record exists, in source
      order: the banner formats the capital, the download is non-empty, pandas
      takes the short and then the long window, and the record's commit takes
      the capital. Success carries the capital and both windows. */
  predicate Admitted(capital: Json, short: Json, long: Json, bars: seq<Bar>)
  {
    CapitalValue(capital).Success? && bars != [] && WindowValue(short).Success? && WindowValue(long).Success?
    && CapitalColumnError(capital, CapitalValue(capital).value).None?
  }

  function PreRecord(ticker: string, capital: Json, short: Json, long: Json, bars: seq<Bar>): (r: Result<(real, nat, nat), RunError>)
    ensures r.Success? <==> Admitted(capital, short, long, bars)
    ensures r.Success? ==> r.value == (CapitalValue(capital).value, short.i, long.i)
    ensures CapitalValue(capital).Failure? ==> r == Failure(CapitalValue(capital).error)
    ensures CapitalValue(capital).Success? && bars == [] ==> r == Failure(NoData(ticker))
    ensures r.Failure? ==>
      (CapitalValue(capital).Failure? && r.error == CapitalValue(capital).error)
      || r.error == NoData(ticker) || r.error == BadWindow || r.error == WindowOverflow
      || r.error == BooleanCapital || r.error == CapitalOverflow
  {
    match CapitalValue(capital)
    case Failure(e) => Failure(e)
    case Success(c) =>
      if bars == [] then Failure(NoData(ticker))
      else
        match WindowValue(short)
        case Failure(e) => Failure(e)
        case Success(s) =>
          match WindowValue(long)
          case Failure(e) => Failure(e)
          case Success(l) =>
            match CapitalColumnError(capital, c)
            case Some(e) => Failure(e)
            case None => Success((c, s, l))
  }

  /** The outcome of `run_backtest` on a downloaded price table `bars`.
      `stock`, `btId` and `createdAt` are what the database assigns, and
      `completedAt` is the clock reading at completion. */
  function BacktestOutcome(ticker: string, start: Date, end: Date, capital: Json, short: Json, long: Json,
                           bars: seq<Bar>, stock: Models.Stock, btId: int,
                           createdAt: DateTime, completedAt: DateTime, ratio: seq<real> -> real): Outcome
  {
    match PreRecord(ticker, capital, short, long, bars)
    case Failure(e) => Outcome(Failure(e), None, None)
    case Success((c, s, l)) =>
      Finish(RunningRecord(stock, btId, s, l, start, end, c, createdAt), CalculateSignals(bars, s, l),
             c, btId, completedAt, ratio)
  }

  /** What a completed `Finish` stored: the record completed with the last
      portfolio value, its total return and the number of trades. */
  lemma FinishCompleted(record: Models.Backtest, rows: seq<SignalRow>, c: real, btId: int,
                        completedAt: DateTime, ratio: seq<real> -> real)
    requires Finish(record, rows, c, btId, completedAt, ratio).result.Success?
    ensures var o := Finish(record, rows, c, btId, completedAt, ratio);
      var b := o.result.value;
      o.saved == Some(b) && o.rows.Some?
      && b.id == record.id && b.stock == record.stock && b.strategyName == record.strategyName
      && b.createdAt == record.createdAt && b.initialCapital == record.initialCapital
      && b.status == Some("completed") && b.completedAt == Some(completedAt)
      && b.numTrades == Some(|o.rows.value.0|)
      && |o.rows.value.1| > 0
      && b.finalValue == Some(o.rows.value.1[|o.rows.value.1| - 1].portfolioValue)
      && b.totalReturn.Some? && c != 0.0
      && b.totalReturn.value == TotalReturn(b.finalValue.value, c)
      && b.maxDrawdown.Some? && b.sharpeRatio.Some?
  {
    var h := Run(rows, c, btId, |rows|).value;
    RunKeepsInvariant(rows, c, btId, |rows|);
    var values := PortfolioValues(h.history);
    var m := CalculateMetrics(rows, values, c, |h.trades|, ratio).value;
    var done := CompletedRecord(record, m, completedAt);
    assert Finish(record, rows, c, btId, completedAt, ratio) == Outcome(Success(done), Some(done), Some((h.trades, h.history)));
    assert m.finalValue == values[|values| - 1] == h.history[|h.history| - 1].portfolioValue;
  }

  /** A completed run: status 'completed', the crossover name, the number of
      stored trades, the last portfolio value as final value, and a total
      return consistent with it. */
  lemma CompletedOutcome(ticker: string, start: Date, end: Date, capital: Json, short: Json, long: Json,
                         bars: seq<Bar>, stock: Models.Stock, btId: int,
                         createdAt: DateTime, completedAt: DateTime, ratio: seq<real> -> real)
    requires BacktestOutcome(ticker, start, end, capital, short, long, bars, stock, btId, createdAt, completedAt, ratio).result.Success?
    ensures var o := BacktestOutcome(ticker, start, end, capital, short, long, bars, stock, btId, createdAt, completedAt, ratio);
      var b := o.result.value;
      o.saved == Some(b) && o.rows.Some?
      && b.status == Some("completed") && b.completedAt == Some(completedAt)
      && b.createdAt == Some(createdAt) && b.id == btId && b.stock == Some(stock)
      && short.JInt? && long.JInt? && 0 <= short.i < Int64Limit && 0 <= long.i < Int64Limit
      && !capital.JBool? && -9999999999.995 < b.initialCapital < 9999999999.995
      && b.strategyName == StrategyName(short.i, long.i)
      && b.numTrades == Some(|o.rows.value.0|)
      && |o.rows.value.1| > 0
      && b.finalValue == Some(o.rows.value.1[|o.rows.value.1| - 1].portfolioValue)
      && b.totalReturn.Some? && b.initialCapital != 0.0
      && b.totalReturn.value == TotalReturn(b.finalValue.value, b.initialCapital)
  {
    var c := CapitalValue(capital).value;
    var record := RunningRecord(stock, btId, short.i, long.i, start, end, c, createdAt);
    FinishCompleted(record, CalculateSignals(bars, short.i, long.i), c, btId, completedAt, ratio);
  }

  /** A completed `Finish` that recorded no trade stores the starting cash
      as final value and zero results. */
  lemma FinishFlat(record: Models.Backtest, rows: seq<SignalRow>, c: real, btId: int,
                   completedAt: DateTime, ratio: seq<real> -> real)
    requires Finish(record, rows, c, btId, completedAt, ratio).result.Success?
    requires Finish(record, rows, c, btId, completedAt, ratio).rows.value.0 == []
    ensures var b := Finish(record, rows, c, btId, completedAt, ratio).result.value;
      b.numTrades == Some(0) && b.finalValue == Some(c)
      && b.totalReturn == Some(0.0) && b.maxDrawdown == Some(0.0) && b.sharpeRatio == Some(0.0)
  {
    var h := Run(rows, c, btId, |rows|).value;
    RunKeepsInvariant(rows, c, btId, |rows|);
    NoTradeFlatValue(rows, c, btId, |rows|);
    FlatSeriesMetrics(rows, PortfolioValues(h.history), c, |h.trades|, ratio);
  }

  /** A completed run that never traded stores a zero total return, a zero
      maximum drawdown and the zero Sharpe fallback, with a final value
      equal to the initial capital. */
  lemma ZeroTradeRunIsFlat(ticker: string, start: Date, end: Date, capital: Json, short: Json, long: Json,
                           bars: seq<Bar>, stock: Models.Stock, btId: int,
                           createdAt: DateTime, completedAt: DateTime, ratio: seq<real> -> real)
    requires BacktestOutcome(ticker, start, end, capital, short, long, bars, stock, btId, createdAt, completedAt, ratio).result.Success?
    requires BacktestOutcome(ticker, start, end, capital, short, long, bars, stock, btId, createdAt, completedAt, ratio).rows.value.0 == []
    ensures var b := BacktestOutcome(ticker, start, end, capital, short, long, bars, stock, btId, createdAt, completedAt, ratio).result.value;
      b.numTrades == Some(0) && b.finalValue == Some(b.initialCapital)
      && b.totalReturn == Some(0.0) && b.maxDrawdown == Some(0.0) && b.sharpeRatio == Some(0.0)
  {
    var c := CapitalValue(capital).value;
    var record := RunningRecord(stock, btId, short.i, long.i, start, end, c, createdAt);
    FinishFlat(record, CalculateSignals(bars, short.i, long.i), c, btId, completedAt, ratio);
  }

  /** A run that fails after the record was created leaves that record
      behind with status 'running'; it saves no record exactly when the
      capital, the price table or a window was rejected first, or the
      record's own commit refused the capital. */
  lemma FailedOutcome(ticker: string, start: Date, end: Date, capital: Json, short: Json, long: Json,
                      bars: seq<Bar>, stock: Models.Stock, btId: int,
                      createdAt: DateTime, completedAt: DateTime, ratio: seq<real> -> real)
    ensures var o := BacktestOutcome(ticker, start, end, capital, short, long, bars, stock, btId, createdAt, completedAt, ratio);
      (o.result.Failure? && o.saved.Some? ==> o.saved.value.status == Some("running") && o.saved.value.completedAt.None?)
      && (o.saved.None? <==> !Admitted(capital, short, long, bars))
      && (o.saved.None? ==> o.result.Failure? && o.rows.None?)
  {
    if Admitted(capital, short, long, bars) {
      var c := CapitalValue(capital).value;
      FinishSaves(RunningRecord(stock, btId, short.i, long.i, start, end, c, createdAt),
                  CalculateSignals(bars, short.i, long.i), c, btId, completedAt, ratio);
    }
  }

  /** Once the record exists it is always saved, and a run that fails after
      that leaves it exactly as it was created. */
  lemma FinishSaves(record: Models.Backtest, rows: seq<SignalRow>, c: real, btId: int,
                    completedAt: DateTime, ratio: seq<real> -> real)
    ensures var o := Finish(record, rows, c, btId, completedAt, ratio);
      o.saved.Some? && (o.result.Failure? ==> o.saved == Some(record))
  {
  }

  /** A run fails only by the capital's format error, an empty price table,
      a bad or overflowing window, the record's commit refusing the capital,
      an empty history or a division by zero. */
  lemma FailureKinds(ticker: string, start: Date, end: Date, capital: Json, short: Json, long: Json,
                     bars: seq<Bar>, stock: Models.Stock, btId: int,
                     createdAt: DateTime, completedAt: DateTime, ratio: seq<real> -> real)
    ensures var o := BacktestOutcome(ticker, start, end, capital, short, long, bars, stock, btId, createdAt, completedAt, ratio);
      o.result.Failure? ==>
        (CapitalValue(capital).Failure? && o.result.error == CapitalValue(capital).error)
        || o.result.error == NoData(ticker) || o.result.error == BadWindow || o.result.error == WindowOverflow
        || o.result.error == BooleanCapital || o.result.error == CapitalOverflow
        || o.result.error == IndexOutOfRange || o.result.error == ZeroDivision
  {
    if Admitted(capital, short, long, bars) {
      var c := CapitalValue(capital).value;
      var rows := CalculateSignals(bars, short.i, long.i);
      if Run(rows, c, btId, |rows|).Failure? {
        RunFailsOnlyAtZeroPrice(rows, c, btId, |rows|);
      }
    }
  }

  /** The strategy object of one request: its parameters as the request
      gave them, and the rows it adds to the database session. */
  class MovingAverageCrossover {
    const ticker: string
    const startDate: Date
    const endDate: Date
    const initialCapital: Json
    const shortWindow: Json
    const longWindow: Json
    /** The committed record, once the run has committed it. `self.backtest`
        is assigned just before the first commit, so a failed first commit
        leaves it set in Python; nothing reads it then, and here it stays as
        it was. */
    var backtest: Option<Models.Backtest>
    /** The trade and history rows the run has committed, once it has. */
    var committedRows: Option<(seq<Models.Trade>, seq<Models.PortfolioHistory>)>

    /** `__init__`: the ticker is upper-cased, the rest is stored as given. */
    constructor (ticker: string, startDate: Date, endDate: Date, initialCapital: Json, shortWindow: Json, longWindow: Json)
      ensures this.ticker == Text.Upper(ticker)
      ensures this.startDate == startDate && this.endDate == endDate
      ensures this.initialCapital == initialCapital
      ensures this.shortWindow == shortWindow && this.longWindow == longWindow
      ensures backtest.None? && committedRows.None?
    {
      this.ticker := Text.Upper(ticker);
      this.startDate := startDate;
      this.endDate := endDate;
      this.initialCapital := initialCapital;
      this.shortWindow := shortWindow;
      this.longWindow := longWindow;
      backtest := None;
      committedRows := None;
    }

    /** `run_backtest` followed by `calculate_metrics`. */
    method RunBacktest(bars: seq<Bar>, stock: Models.Stock, btId: int,
                       createdAt: DateTime, completedAt: DateTime, ratio: seq<real> -> real)
      returns (r: Result<Models.Backtest, RunError>)
      modifies this
      ensures var o := BacktestOutcome(ticker, startDate, endDate, initialCapital, shortWindow, longWindow,
                                       bars, stock, btId, createdAt, completedAt, ratio);
        r == o.result
        && backtest == (if o.saved.Some? then o.saved else old(backtest))
        && committedRows == (if o.rows.Some? then o.rows else old(committedRows))
    {
      var c := CapitalValue(initialCapital);
      if c.Failure? {
        return Failure(c.error);
      }
      if bars == [] {
        return Failure(NoData(ticker));
      }
      var s := WindowValue(shortWindow);
      if s.Failure? {
        return Failure(s.error);
      }
      var l := WindowValue(longWindow);
      if l.Failure? {
        return Failure(l.error);
      }
      var rejected := CapitalColumnError(initialCapital, c.value);
      if rejected.Some? {
        return Failure(rejected.value);
      }
      var rows := CalculateSignals(bars, s.value, l.value);
      var record := RunningRecord(stock, btId, s.value, l.value, startDate, endDate, c.value, createdAt);
      backtest := Some(record);
      var sim := Simulate(rows, c.value, btId);
      if sim.Failure? {
        return Failure(sim.error);
      }
      RunKeepsInvariant(rows, c.value, btId, |rows|);
      var trades, history := sim.value.trades, sim.value.history;
      committedRows := Some((trades, history));
      var metrics := CalculateMetrics(rows, PortfolioValues(history), c.value, |trades|, ratio);
      if metrics.Failure? {
        return Failure(metrics.error);
      }
      var done := CompletedRecord(record, metrics.value, completedAt);
      backtest := Some(done);
      r := Success(done);
    }
  }
}
