/** The all-in/all-out trading loop of a back-test run. Money is exact (`real`). */
module Simulation {
  import opened Wrappers
  import opened Signals
  import opened Errors
  import Models

  /** The loop state of `run_backtest`: cash, shares held, the trade counter,
      and the trade and portfolio-history rows added to the session so far. */
  datatype Holdings = Holdings(
    capital: real, shares: real, tradeCount: nat,
    trades: seq<Models.Trade>, history: seq<Models.PortfolioHistory>)

  function Start(c0: real): Holdings
  {
    Holdings(c0, 0.0, 0, [], [])
  }

  /** Appends the day's portfolio point, valued after the day's trade. */
  function RecordDay(h: Holdings, row: SignalRow, btId: int): Holdings
  {
    h.(history := h.history + [DayRecord(btId, row, h.capital, h.shares)])
  }

  /** The `trades` row of an all-in buy. */
  function BuyRecord(btId: int, row: SignalRow, shares: real): Models.Trade
  {
    Models.Trade(None, btId, "BUY", row.date, row.close, shares, Some(0.0))
  }

  /** The `trades` row of an all-out sell. */
  function SellRecord(btId: int, row: SignalRow, proceeds: real): Models.Trade
  {
    Models.Trade(None, btId, "SELL", row.date, row.close, 0.0, Some(proceeds))
  }

  /** The `portfolio_history` row of one day. */
  function DayRecord(btId: int, row: SignalRow, capital: real, shares: real): Models.PortfolioHistory
  {
    Models.PortfolioHistory(None, btId, row.date, capital + shares * row.close, row.close, Some(shares))
  }

  /** One iteration of the loop: all-in buy on a +2 position while holding
      cash, all-out sell on a -2 position while holding shares, then the
      day's portfolio point. A buy at a zero price raises ZeroDivisionError. */
  function Step(h: Holdings, row: SignalRow, btId: int): Result<Holdings, RunError>
  {
    if row.position == 2 && h.capital > 0.0 then
      if row.close == 0.0 then Failure(ZeroDivision)
      else
        var shares := h.capital / row.close;
        Success(RecordDay(Holdings(0.0, shares, h.tradeCount + 1, h.trades + [BuyRecord(btId, row, shares)], h.history), row, btId))
    else if row.position == -2 && h.shares > 0.0 then
      var capital := h.shares * row.close;
      Success(RecordDay(Holdings(capital, 0.0, h.tradeCount + 1, h.trades + [SellRecord(btId, row, capital)], h.history), row, btId))
    else
      Success(RecordDay(h, row, btId))
  }

  /** The loop state after the first n rows, or the error that stopped it. */
  function Run(rows: seq<SignalRow>, c0: real, btId: int, n: nat): Result<Holdings, RunError>
    requires n <= |rows|
  {
    if n == 0 then Success(Start(c0))
    else
      match Run(rows, c0, btId, n - 1)
      case Failure(e) => Failure(e)
      case Success(h) => Step(h, rows[n - 1], btId)
  }

  /** Once the loop has raised, later rows are never reached. */
  lemma {:induction false} RunFailureSticks(rows: seq<SignalRow>, c0: real, btId: int, i: nat, j: nat)
    requires i <= j <= |rows|
    requires Run(rows, c0, btId, i).Failure?
    ensures Run(rows, c0, btId, j) == Run(rows, c0, btId, i)
  {
    if i < j {
      RunFailureSticks(rows, c0, btId, i, j - 1);
    }
  }

  /** The only error the loop raises is the division of a buy at a zero
      closing price on a +2 row. */
  lemma {:induction false} RunFailsOnlyAtZeroPrice(rows: seq<SignalRow>, c0: real, btId: int, n: nat)
    requires n <= |rows|
    requires Run(rows, c0, btId, n).Failure?
    ensures Run(rows, c0, btId, n).error == ZeroDivision
    ensures exists k :: 0 <= k < n && rows[k].close == 0.0 && rows[k].position == 2
  {
    if Run(rows, c0, btId, n - 1).Failure? {
      RunFailsOnlyAtZeroPrice(rows, c0, btId, n - 1);
    } else {
      assert rows[n - 1].close == 0.0 && rows[n - 1].position == 2;
    }
  }

  /** The simulation loop of `run_backtest` over the signal rows. */
  method Simulate(rows: seq<SignalRow>, c0: real, btId: int) returns (res: Result<Holdings, RunError>)
    ensures res == Run(rows, c0, btId, |rows|)
  {
    var capital, shares, tradeCount := c0, 0.0, 0;
    var trades: seq<Models.Trade> := [];
    var history: seq<Models.PortfolioHistory> := [];
    var i := 0;
    while i < |rows|
      invariant 0 <= i <= |rows|
      invariant Run(rows, c0, btId, i) == Success(Holdings(capital, shares, tradeCount, trades, history))
    {
      ghost var before := Holdings(capital, shares, tradeCount, trades, history);
      var position, close := rows[i].position, rows[i].close;
      if position == 2 && capital > 0.0 {
        if close == 0.0 {
          RunFailureSticks(rows, c0, btId, i + 1, |rows|);
          return Failure(ZeroDivision);
        }
        shares := capital / close;
        capital := 0.0;
        tradeCount := tradeCount + 1;
        trades := trades + [BuyRecord(btId, rows[i], shares)];
      } else if position == -2 && shares > 0.0 {
        capital := shares * close;
        shares := 0.0;
        tradeCount := tradeCount + 1;
        trades := trades + [SellRecord(btId, rows[i], capital)];
      }
      history := history + [DayRecord(btId, rows[i], capital, shares)];
      assert Run(rows, c0, btId, i + 1) == Step(before, rows[i], btId);
      assert Step(before, rows[i], btId).Success?;
      assert Step(before, rows[i], btId).value.capital == capital;
      assert Step(before, rows[i], btId).value.shares == shares;
      assert Step(before, rows[i], btId).value.tradeCount == tradeCount;
      assert Step(before, rows[i], btId).value.trades == trades;
      assert Step(before, rows[i], btId).value.history == history;
      i := i + 1;
    }
    res := Success(Holdings(capital, shares, tradeCount, trades, history));
  }

  /** Recorded trades read BUY, SELL, BUY, ... from the first. */
  ghost predicate Alternates(trades: seq<Models.Trade>)
  {
    forall k :: 0 <= k < |trades| ==> trades[k].tradeType == (if k % 2 == 0 then "BUY" else "SELL")
  }

  /** What holds of the loop state after n rows. */
  ghost predicate LoopInvariant(h: Holdings, rows: seq<SignalRow>, btId: int, n: nat)
    requires n <= |rows|
  {
    (h.capital == 0.0 || h.shares == 0.0)
    && (if |h.trades| % 2 == 0 then h.shares == 0.0 else h.capital == 0.0)
    && Alternates(h.trades)
    && h.tradeCount == |h.trades|
    && (forall k :: 0 <= k < |h.trades| ==> h.trades[k].backtestId == btId)
    && |h.history| == n
    && (forall k :: 0 <= k < n ==>
          h.history[k].date == rows[k].date && h.history[k].stockPrice == rows[k].close
          && h.history[k].backtestId == btId)
  }

  /** A step either leaves the trades alone or appends one; a BUY is taken
      only on a +2 position with cash in hand and spends all of it, a SELL
      only on a -2 position with shares in hand and sells all of them, and
      the day's point is worth what the holdings were worth before the trade. */
  lemma StepTradeRule(h: Holdings, row: SignalRow, btId: int)
    requires h.capital == 0.0 || h.shares == 0.0
    requires Step(h, row, btId).Success?
    ensures var h' := Step(h, row, btId).value;
      |h'.history| == |h.history| + 1 && h'.history[..|h.history|] == h.history
      && h'.history[|h.history|].portfolioValue == h.capital + h.shares * row.close
      && h'.history[|h.history|].portfolioValue == h'.capital + h'.shares * row.close
      && (|h'.trades| == |h.trades| || |h'.trades| == |h.trades| + 1)
      && h'.trades[..|h.trades|] == h.trades
      && (|h'.trades| == |h.trades| ==> h'.capital == h.capital && h'.shares == h.shares)
      && (|h'.trades| == |h.trades| + 1 && h'.trades[|h.trades|].tradeType == "BUY" ==>
            row.position == 2 && h.capital > 0.0 && h'.capital == 0.0
            && h'.shares * row.close == h.capital && h'.trades[|h.trades|].price == row.close)
      && (|h'.trades| == |h.trades| + 1 && h'.trades[|h.trades|].tradeType != "BUY" ==>
            h'.trades[|h.trades|].tradeType == "SELL"
            && row.position == -2 && h.shares > 0.0 && h'.shares == 0.0
            && h'.capital == h.shares * row.close && h'.trades[|h.trades|].price == row.close)
  {
    if row.position == 2 && h.capital > 0.0 {
      var sh := h.capital / row.close;
      assert sh * row.close == h.capital;
    }
  }

  /** The loop invariant: never cash and shares at once, trades alternating
      from a BUY, the counter equal to the number of trades, and one history
      point per row in row order. */
  lemma {:induction false} RunKeepsInvariant(rows: seq<SignalRow>, c0: real, btId: int, n: nat)
    requires n <= |rows|
    requires Run(rows, c0, btId, n).Success?
    ensures LoopInvariant(Run(rows, c0, btId, n).value, rows, btId, n)
  {
    if n > 0 {
      RunKeepsInvariant(rows, c0, btId, n - 1);
      StepKeepsInvariant(Run(rows, c0, btId, n - 1).value, rows, btId, n - 1);
    }
  }

  /** One step from a state satisfying the invariant after n rows gives a
      state satisfying it after n + 1. */
  lemma StepKeepsInvariant(h: Holdings, rows: seq<SignalRow>, btId: int, n: nat)
    requires n < |rows|
    requires LoopInvariant(h, rows, btId, n)
    requires Step(h, rows[n], btId).Success?
    ensures LoopInvariant(Step(h, rows[n], btId).value, rows, btId, n + 1)
  {
    var h' := Step(h, rows[n], btId).value;
    StepTradeRule(h, rows[n], btId);
    if |h'.trades| == |h.trades| + 1 {
      assert h'.trades == h.trades + [h'.trades[|h.trades|]];
    } else {
      assert h'.trades == h.trades;
    }
    assert h'.history == h.history + [h'.history[|h.history|]];
  }

  /** Holdings a run from positive cash at positive prices keeps: nothing
      negative, cash after an even number of trades and shares after an odd
      one, and a positive value every day. */
  ghost predicate PositiveHoldings(h: Holdings)
  {
    h.capital >= 0.0 && h.shares >= 0.0
    && (|h.trades| % 2 == 0 ==> h.capital > 0.0)
    && (|h.trades| % 2 == 1 ==> h.shares > 0.0)
    && (forall k :: 0 <= k < |h.history| ==> h.history[k].portfolioValue > 0.0)
  }

  /** A trade row as a run at positive prices records it: a positive price,
      a BUY with a positive number of shares and zero cash left, a SELL with
      zero shares left and positive proceeds. */
  ghost predicate PositiveTrade(t: Models.Trade)
  {
    t.price > 0.0
    && (t.tradeType == "BUY" ==> t.shares > 0.0 && t.capital.Some? && t.capital.value == 0.0)
    && (t.tradeType != "BUY" ==> t.shares == 0.0 && t.capital.Some? && t.capital.value > 0.0)
  }

  ghost predicate PositiveTrades(trades: seq<Models.Trade>)
  {
    forall k :: 0 <= k < |trades| ==> PositiveTrade(trades[k])
  }

  /** One step at a positive price from non-negative holdings never raises,
      and it appends at most one trade, of the shape `PositiveTrade`. */
  lemma StepAddsPositiveTrade(h: Holdings, row: SignalRow, btId: int)
    requires row.close > 0.0 && h.capital >= 0.0 && h.shares >= 0.0
    ensures Step(h, row, btId).Success?
    ensures var t' := Step(h, row, btId).value.trades;
      t' == h.trades || (|t'| == |h.trades| + 1 && t' == h.trades + [t'[|h.trades|]] && PositiveTrade(t'[|h.trades|]))
  {
    if row.position == 2 && h.capital > 0.0 {
      var sh := h.capital / row.close;
      assert sh > 0.0;
    } else if row.position == -2 && h.shares > 0.0 {
      assert h.shares * row.close > 0.0;
    }
  }

  /** With a positive starting capital and positive prices the loop never
      raises and its holdings stay positive. */
  lemma {:induction false} RunPositive(rows: seq<SignalRow>, c0: real, btId: int, n: nat)
    requires n <= |rows|
    requires c0 > 0.0
    requires forall k :: 0 <= k < |rows| ==> rows[k].close > 0.0
    ensures Run(rows, c0, btId, n).Success?
    ensures PositiveHoldings(Run(rows, c0, btId, n).value)
  {
    if n > 0 {
      RunPositive(rows, c0, btId, n - 1);
      RunKeepsInvariant(rows, c0, btId, n - 1);
      StepKeepsPositive(Run(rows, c0, btId, n - 1).value, rows[n - 1], btId);
    }
  }

  /** One step at a positive price keeps the holdings positive. */
  lemma StepKeepsPositive(h: Holdings, row: SignalRow, btId: int)
    requires row.close > 0.0
    requires PositiveHoldings(h) && (h.capital == 0.0 || h.shares == 0.0)
    ensures Step(h, row, btId).Success?
    ensures PositiveHoldings(Step(h, row, btId).value)
  {
    var h' := Step(h, row, btId).value;
    StepTradeRule(h, row, btId);
    if row.position == 2 && h.capital > 0.0 {
      var sh := h.capital / row.close;
      assert sh > 0.0;
      assert h'.shares == sh;
    } else if row.position == -2 && h.shares > 0.0 {
      assert h.shares * row.close > 0.0;
    } else {
      assert h.capital + h.shares * row.close > 0.0 by {
        if |h.trades| % 2 == 1 { assert h.shares * row.close > 0.0; }
      }
    }
    assert h'.history == h.history + [h'.history[|h.history|]];
  }

  /** With a positive starting capital and positive prices every recorded
      trade row has the shape `PositiveTrade` describes. */
  lemma {:induction false} RunPositiveTrades(rows: seq<SignalRow>, c0: real, btId: int, n: nat)
    requires n <= |rows|
    requires c0 > 0.0
    requires forall k :: 0 <= k < |rows| ==> rows[k].close > 0.0
    ensures Run(rows, c0, btId, n).Success?
    ensures PositiveTrades(Run(rows, c0, btId, n).value.trades)
  {
    RunPositive(rows, c0, btId, n);
    if n > 0 {
      RunPositiveTrades(rows, c0, btId, n - 1);
      RunPositive(rows, c0, btId, n - 1);
      var h := Run(rows, c0, btId, n - 1).value;
      StepAddsPositiveTrade(h, rows[n - 1], btId);
    }
  }

  /** Without any trade the portfolio is the untouched starting cash every day. */
  lemma {:induction false} NoTradeFlatValue(rows: seq<SignalRow>, c0: real, btId: int, n: nat)
    requires n <= |rows|
    requires Run(rows, c0, btId, n).Success?
    requires Run(rows, c0, btId, n).value.trades == []
    ensures var h := Run(rows, c0, btId, n).value;
      h.capital == c0 && h.shares == 0.0
      && forall k :: 0 <= k < |h.history| ==> h.history[k].portfolioValue == c0
  {
    if n > 0 {
      var h := Run(rows, c0, btId, n - 1).value;
      RunKeepsInvariant(rows, c0, btId, n - 1);
      StepTradeRule(h, rows[n - 1], btId);
      assert |h.trades| == 0;
      NoTradeFlatValue(rows, c0, btId, n - 1);
    }
  }
}
