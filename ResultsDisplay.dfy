/** The results page of one back-test: the headline numbers derived from the
    back-test dict, and the fetch of its trades. `fixed2` stands for
    `Number.toFixed(2)` and `currency` for the en-US dollar formatter. */
module ResultsDisplay {
  import opened Wrappers
  import Models
  import TradeTimeline

  const Green := "#10b981"
  const Red := "#ef4444"

  /** `formatPercent`: a '+' before non-negative values (zero included), the
      fixed-point text, then '%'. */
  function FormatPercent(fixed2: real -> string, v: real): (r: string)
    ensures |r| >= 1 && r[|r| - 1] == '%'
    ensures v >= 0.0 ==> r[0] == '+' && r[1..|r| - 1] == fixed2(v)
    ensures v < 0.0 ==> r[..|r| - 1] == fixed2(v)
  {
    (if v >= 0.0 then "+" else "") + fixed2(v) + "%"
  }

  /** If the fixed-point text never starts with '+' itself, the '+' appears
      exactly for non-negative values. */
  lemma PlusSignExactlyForNonNegative(fixed2: real -> string, v: real)
    requires fixed2(v) == [] || fixed2(v)[0] != '+'
    ensures FormatPercent(fixed2, v)[0] == '+' <==> v >= 0.0
  {
    var r := FormatPercent(fixed2, v);
    if v < 0.0 && fixed2(v) != [] {
      assert r[0] == fixed2(v)[0];
    }
  }

  /** `getReturnColor`: green for non-negative values, zero included. */
  function ReturnColor(v: real): (c: string)
    ensures c == Green <==> v >= 0.0
    ensures c == Red <==> v < 0.0
  {
    if v >= 0.0 then Green else Red
  }

  /** A JSON number as JavaScript arithmetic sees it: null counts as 0. */
  function JsArith(x: Option<real>): real
  {
    if x.Some? then x.value else 0.0
  }

  /** `final_value - initial_capital`, with null read as 0. */
  function Profit(b: Models.BacktestDict): (p: real)
    ensures b.finalValue.Some? && b.initialCapital.Some? ==> p == b.finalValue.value - b.initialCapital.value
    ensures b.finalValue.None? ==> p == -JsArith(b.initialCapital)
  {
    JsArith(b.finalValue) - JsArith(b.initialCapital)
  }

  /** The "win rate" cell: 100% exactly for a strictly positive profit. */
  function WinRate(profit: real): (r: string)
    ensures r == "100%" <==> profit > 0.0
    ensures r == "0%" <==> profit <= 0.0
  {
    if profit > 0.0 then "100%" else "0%"
  }

  /** The Sharpe band: Excellent above 1, Good above 0.5, Poor otherwise
      (1.0 itself is Good and 0.5 itself is Poor). */
  function SharpeLabel(s: real): (r: string)
    ensures r == "Excellent 🎯" <==> s > 1.0
    ensures r == "Good ✓" <==> 0.5 < s <= 1.0
    ensures r == "Poor" <==> s <= 0.5
  {
    if s > 1.0 then "Excellent 🎯" else if s > 0.5 then "Good ✓" else "Poor"
  }

  /** `replace(/_/g, ' ')`. */
  function ReplaceUnderscores(s: string): (r: string)
    ensures |r| == |s|
    ensures forall k :: 0 <= k < |s| ==> r[k] == (if s[k] == '_' then ' ' else s[k])
    ensures forall k :: 0 <= k < |r| ==> r[k] != '_'
  {
    if s == [] then [] else [if s[0] == '_' then ' ' else s[0]] + ReplaceUnderscores(s[1..])
  }

  /** The trades section: a loading line or the timeline. */
  datatype TradesPanel = LoadingTrades | Trades(view: TradeTimeline.View)

  /** What the page shows. */
  datatype Page = Page(
    ticker: Option<string>, profitText: string, totalReturnText: string,
    sharpeText: string, sharpeBand: string, drawdownText: string, numTrades: Option<int>,
    strategyText: string, winRate: string, chartFor: int, tradesPanel: TradesPanel)

  /** Nothing without a back-test; a TypeError (`null.toFixed`) when the total
      return, the Sharpe ratio or the drawdown is null; the page otherwise. */
  datatype Rendered = Nothing | TypeError | Shown(page: Page)

  function Render(backtest: Option<Models.BacktestDict>, trades: seq<Models.TradeDict>, loading: bool,
                  fixed2: real -> string, currency: real -> string): (r: Rendered)
    ensures r == Nothing <==> backtest.None?
    ensures r == TypeError <==>
      backtest.Some?
      && (backtest.value.totalReturn.None? || backtest.value.sharpeRatio.None? || backtest.value.maxDrawdown.None?)
    ensures r.Shown? ==>
      var b := backtest.value;
      var p := r.page;
      p.totalReturnText == FormatPercent(fixed2, b.totalReturn.value)
      && p.drawdownText == FormatPercent(fixed2, b.maxDrawdown.value)
      && p.sharpeText == fixed2(b.sharpeRatio.value)
      && p.sharpeBand == SharpeLabel(b.sharpeRatio.value)
      && p.profitText == currency(Profit(b))
      && p.winRate == WinRate(Profit(b))
      && p.strategyText == ReplaceUnderscores(b.strategyName)
      && p.ticker == b.ticker && p.numTrades == b.numTrades && p.chartFor == b.id
      && (p.tradesPanel == LoadingTrades <==> loading)
      && (!loading ==> p.tradesPanel == Trades(TradeTimeline.Render(Some(trades), fixed2)))
  {
    if backtest.None? then Nothing
    else
      var b := backtest.value;
      if b.totalReturn.None? || b.sharpeRatio.None? || b.maxDrawdown.None? then TypeError
      else
        var profit := Profit(b);
        Shown(Page(b.ticker, currency(profit), FormatPercent(fixed2, b.totalReturn.value),
          fixed2(b.sharpeRatio.value), SharpeLabel(b.sharpeRatio.value),
          FormatPercent(fixed2, b.maxDrawdown.value), b.numTrades,
          ReplaceUnderscores(b.strategyName), WinRate(profit), b.id,
          if loading then LoadingTrades else Trades(TradeTimeline.Render(Some(trades), fixed2))))
  }

  /** A back-test dict with its return, Sharpe ratio, drawdown, final value and
      capital all set renders the page, with the win rate of its profit. */
  lemma SetResultsRender(b: Models.BacktestDict, trades: seq<Models.TradeDict>, loading: bool,
                         fixed2: real -> string, currency: real -> string)
    requires b.totalReturn.Some? && b.sharpeRatio.Some? && b.maxDrawdown.Some?
    requires b.finalValue.Some? && b.initialCapital.Some?
    ensures var r := Render(Some(b), trades, loading, fixed2, currency);
      r.Shown?
      && r.page.totalReturnText == FormatPercent(fixed2, b.totalReturn.value)
      && r.page.winRate == WinRate(b.finalValue.value - b.initialCapital.value)
  {
  }

  /** The component's state: the back-test it was given, its fetched trades
      and the loading flag. */
  class Results {
    const backtest: Option<Models.BacktestDict>
    var trades: seq<Models.TradeDict>
    var loading: bool

    constructor (backtest: Option<Models.BacktestDict>)
      ensures this.backtest == backtest && trades == [] && !loading
    {
      this.backtest := backtest;
      trades := [];
      loading := false;
    }

    /** The start of `fetchTrades`: skipped without a back-test or with a
        falsy id; otherwise loading starts and the detail of that id is
        requested. */
    method StartFetch() returns (request: Option<int>)
      modifies this
      ensures request.Some? <==> (backtest.Some? && backtest.value.id != 0)
      ensures request.Some? ==> request.value == backtest.value.id && loading
      ensures request.None? ==> loading == old(loading)
      ensures trades == old(trades)
    {
      if backtest.None? || backtest.value.id == 0 {
        return None;
      }
      loading := true;
      request := Some(backtest.value.id);
    }

    /** The fetch settles: on success the detail's trades replace the list,
        on failure (None) the list is kept; either way loading ends. */
    method FinishFetch(response: Option<seq<Models.TradeDict>>)
      modifies this
      ensures !loading
      ensures response.Some? ==> trades == response.value
      ensures response.None? ==> trades == old(trades)
    {
      if response.Some? {
        trades := response.value;
      }
      loading := false;
    }

    /** What the component renders in its current state. */
    function View(fixed2: real -> string, currency: real -> string): Rendered
      reads this
    {
      Render(backtest, trades, loading, fixed2, currency)
    }
  }
}
