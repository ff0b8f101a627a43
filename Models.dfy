/** The database rows of the back end and their `to_dict` serialisations.
    A serialised row is the JSON object the HTTP API returns; JSON null is
    `None`. */
module Models {
  import opened Wrappers
  import opened Dates

  /** A row of `stocks`. */
  datatype Stock = Stock(id: int, ticker: string, name: Option<string>, createdAt: Option<DateTime>)

  /** A row of `stock_prices`; the price columns are nullable. */
  datatype StockPrice = StockPrice(
    id: int, stockId: int, date: Date,
    open: Option<real>, high: Option<real>, low: Option<real>, close: Option<real>,
    volume: Option<int>)

  /** A row of `backtests`. `stock` is the related `Stock`, if any.
      The result columns stay null until the run completes. */
  datatype Backtest = Backtest(
    id: int, stockId: int, stock: Option<Stock>, strategyName: string,
    startDate: Date, endDate: Date, initialCapital: real,
    finalValue: Option<real>, totalReturn: Option<real>, maxDrawdown: Option<real>,
    sharpeRatio: Option<real>, numTrades: Option<int>, status: Option<string>,
    createdAt: Option<DateTime>, completedAt: Option<DateTime>)

  /** A row of `trades`. `id` is None until the session is flushed. */
  datatype Trade = Trade(
    id: Option<int>, backtestId: int, tradeType: string, date: Date,
    price: real, shares: real, capital: Option<real>)

  /** A row of `portfolio_history`. */
  datatype PortfolioHistory = PortfolioHistory(
    id: Option<int>, backtestId: int, date: Date,
    portfolioValue: real, stockPrice: real, sharesHeld: Option<real>)

  /** The JSON object of `StockPrice.to_dict`. */
  datatype StockPriceDict = StockPriceDict(
    id: int, stockId: int, date: Option<string>,
    open: Option<real>, high: Option<real>, low: Option<real>, close: Option<real>,
    volume: Option<int>)

  /** The JSON object of `Backtest.to_dict`. */
  datatype BacktestDict = BacktestDict(
    id: int, stockId: int, ticker: Option<string>, strategyName: string,
    startDate: Option<string>, endDate: Option<string>,
    initialCapital: Option<real>, finalValue: Option<real>, totalReturn: Option<real>,
    maxDrawdown: Option<real>, sharpeRatio: Option<real>, numTrades: Option<int>,
    status: Option<string>, createdAt: Option<string>, completedAt: Option<string>)

  /** The JSON object of `Trade.to_dict`. */
  datatype TradeDict = TradeDict(
    id: Option<int>, backtestId: int, tradeType: string, date: Option<string>,
    price: Option<real>, shares: Option<real>, capital: Option<real>)

  /** The JSON object of `PortfolioHistory.to_dict`. */
  datatype HistoryDict = HistoryDict(
    id: Option<int>, backtestId: int, date: Option<string>,
    portfolioValue: Option<real>, stockPrice: Option<real>, sharesHeld: Option<real>)

  /** `float(x) if x else None`: a null column and a stored zero both become null. */
  function FloatOrNull(x: Option<real>): (r: Option<real>)
    ensures r.Some? <==> (x.Some? && x.value != 0.0)
    ensures r.Some? ==> r.value == x.value
  {
    if x.Some? && x.value != 0.0 then Some(x.value) else None
  }

  /** The same rule on a NOT NULL column: only a zero becomes null. */
  function NonZero(x: real): (r: Option<real>)
    ensures r.None? <==> x == 0.0
    ensures r.Some? ==> r.value == x
  {
    FloatOrNull(Some(x))
  }

  /** `d.isoformat() if d else None` (a date object is always truthy). */
  function IsoOrNull(d: Option<Date>): (r: Option<string>)
    ensures r.Some? <==> d.Some?
    ensures d.Some? ==> r.value == IsoDate(d.value)
  {
    if d.Some? then Some(IsoDate(d.value)) else None
  }

  function IsoTimeOrNull(t: Option<DateTime>): (r: Option<string>)
    ensures r.Some? <==> t.Some?
    ensures t.Some? ==> r.value == IsoDateTime(t.value)
  {
    if t.Some? then Some(IsoDateTime(t.value)) else None
  }

  /** `StockPrice.to_dict`. */
  function StockPriceToDict(p: StockPrice): (d: StockPriceDict)
    ensures d.id == p.id && d.stockId == p.stockId && d.volume == p.volume
    ensures d.date == Some(IsoDate(p.date))
    ensures d.open.Some? <==> (p.open.Some? && p.open.value != 0.0)
    ensures d.high.Some? <==> (p.high.Some? && p.high.value != 0.0)
    ensures d.low.Some? <==> (p.low.Some? && p.low.value != 0.0)
    ensures d.close.Some? <==> (p.close.Some? && p.close.value != 0.0)
    ensures d.open.Some? ==> d.open == p.open
    ensures d.high.Some? ==> d.high == p.high
    ensures d.low.Some? ==> d.low == p.low
    ensures d.close.Some? ==> d.close == p.close
  {
    StockPriceDict(p.id, p.stockId, IsoOrNull(Some(p.date)),
      FloatOrNull(p.open), FloatOrNull(p.high), FloatOrNull(p.low), FloatOrNull(p.close),
      p.volume)
  }

  /** `Backtest.to_dict`: every numeric field is present exactly when the
      column holds a non-zero value; the ticker comes from the related stock. */
  function BacktestToDict(b: Backtest): (d: BacktestDict)
    ensures d.id == b.id && d.stockId == b.stockId && d.strategyName == b.strategyName
    ensures d.ticker.Some? <==> b.stock.Some?
    ensures b.stock.Some? ==> d.ticker == Some(b.stock.value.ticker)
    ensures d.startDate == Some(IsoDate(b.startDate)) && d.endDate == Some(IsoDate(b.endDate))
    ensures d.initialCapital.Some? <==> b.initialCapital != 0.0
    ensures d.initialCapital.Some? ==> d.initialCapital.value == b.initialCapital
    ensures d.finalValue.Some? <==> (b.finalValue.Some? && b.finalValue.value != 0.0)
    ensures d.totalReturn.Some? <==> (b.totalReturn.Some? && b.totalReturn.value != 0.0)
    ensures d.maxDrawdown.Some? <==> (b.maxDrawdown.Some? && b.maxDrawdown.value != 0.0)
    ensures d.sharpeRatio.Some? <==> (b.sharpeRatio.Some? && b.sharpeRatio.value != 0.0)
    ensures d.finalValue.Some? ==> d.finalValue == b.finalValue
    ensures d.totalReturn.Some? ==> d.totalReturn == b.totalReturn
    ensures d.maxDrawdown.Some? ==> d.maxDrawdown == b.maxDrawdown
    ensures d.sharpeRatio.Some? ==> d.sharpeRatio == b.sharpeRatio
    ensures d.numTrades == b.numTrades && d.status == b.status
    ensures d.createdAt == IsoTimeOrNull(b.createdAt) && d.completedAt == IsoTimeOrNull(b.completedAt)
  {
    BacktestDict(
      b.id, b.stockId,
      if b.stock.Some? then Some(b.stock.value.ticker) else None,
      b.strategyName,
      IsoOrNull(Some(b.startDate)), IsoOrNull(Some(b.endDate)),
      NonZero(b.initialCapital), FloatOrNull(b.finalValue), FloatOrNull(b.totalReturn),
      FloatOrNull(b.maxDrawdown), FloatOrNull(b.sharpeRatio),
      b.numTrades, b.status,
      IsoTimeOrNull(b.createdAt), IsoTimeOrNull(b.completedAt))
  }

  /** `Trade.to_dict`. */
  function TradeToDict(t: Trade): (d: TradeDict)
    ensures d.id == t.id && d.backtestId == t.backtestId && d.tradeType == t.tradeType
    ensures d.date == Some(IsoDate(t.date))
    ensures d.price.Some? <==> t.price != 0.0
    ensures d.shares.Some? <==> t.shares != 0.0
    ensures d.capital.Some? <==> (t.capital.Some? && t.capital.value != 0.0)
    ensures d.price.Some? ==> d.price.value == t.price
    ensures d.shares.Some? ==> d.shares.value == t.shares
    ensures d.capital.Some? ==> d.capital == t.capital
  {
    TradeDict(t.id, t.backtestId, t.tradeType, IsoOrNull(Some(t.date)),
      NonZero(t.price), NonZero(t.shares), FloatOrNull(t.capital))
  }

  /** `PortfolioHistory.to_dict`. */
  function HistoryToDict(h: PortfolioHistory): (d: HistoryDict)
    ensures d.id == h.id && d.backtestId == h.backtestId
    ensures d.date == Some(IsoDate(h.date))
    ensures d.portfolioValue.Some? <==> h.portfolioValue != 0.0
    ensures d.stockPrice.Some? <==> h.stockPrice != 0.0
    ensures d.sharesHeld.Some? <==> (h.sharesHeld.Some? && h.sharesHeld.value != 0.0)
    ensures d.portfolioValue.Some? ==> d.portfolioValue.value == h.portfolioValue
    ensures d.stockPrice.Some? ==> d.stockPrice.value == h.stockPrice
    ensures d.sharesHeld.Some? ==> d.sharesHeld == h.sharesHeld
  {
    HistoryDict(h.id, h.backtestId, IsoOrNull(Some(h.date)),
      NonZero(h.portfolioValue), NonZero(h.stockPrice), FloatOrNull(h.sharesHeld))
  }

  /** `[t.to_dict() for t in rows]`. */
  function TradesToDicts(ts: seq<Trade>): (ds: seq<TradeDict>)
    ensures |ds| == |ts|
    ensures forall k :: 0 <= k < |ts| ==> ds[k] == TradeToDict(ts[k])
  {
    if ts == [] then [] else [TradeToDict(ts[0])] + TradesToDicts(ts[1..])
  }

  /** `[h.to_dict() for h in rows]`. */
  function HistoriesToDicts(hs: seq<PortfolioHistory>): (ds: seq<HistoryDict>)
    ensures |ds| == |hs|
    ensures forall k :: 0 <= k < |hs| ==> ds[k] == HistoryToDict(hs[k])
  {
    if hs == [] then [] else [HistoryToDict(hs[0])] + HistoriesToDicts(hs[1..])
  }

  /** The serialisation cannot tell a stored zero from a null column: two
      trades that differ only there give the same JSON. */
  lemma ZeroCapitalLooksNull(t: Trade)
    ensures TradeToDict(t.(capital := Some(0.0))) == TradeToDict(t.(capital := None))
  {
  }

  /** `float(x) if x is not None else None`: only a null column becomes null. */
  function FloatUnlessNone(x: Option<real>): (r: Option<real>)
    ensures r == x
  {
    if x.Some? then Some(x.value) else None
  }

  /** `Backtest.to_dict` with the null test the result columns need: a zero
      return, drawdown or Sharpe ratio stays a number. */
  function BacktestToDictNullOnly(b: Backtest): (d: BacktestDict)
    ensures d.finalValue == b.finalValue && d.totalReturn == b.totalReturn
    ensures d.maxDrawdown == b.maxDrawdown && d.sharpeRatio == b.sharpeRatio
    ensures d.initialCapital == Some(b.initialCapital)
    ensures d.id == b.id && d.strategyName == b.strategyName
    ensures d.numTrades == b.numTrades && d.status == b.status
    ensures d.ticker == BacktestToDict(b).ticker
  {
    BacktestToDict(b).(
      initialCapital := Some(b.initialCapital),
      finalValue := FloatUnlessNone(b.finalValue),
      totalReturn := FloatUnlessNone(b.totalReturn),
      maxDrawdown := FloatUnlessNone(b.maxDrawdown),
      sharpeRatio := FloatUnlessNone(b.sharpeRatio))
  }
}
