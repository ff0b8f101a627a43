/** Properties that cross the HTTP boundary: what the engine stores, how the
    back end serialises it, and what the front-end components then show. */
module Pipeline {
  import opened Wrappers
  import opened Dates
  import opened JsonValue
  import opened Errors
  import Text
  import Models
  import Signals
  import Simulation
  import Metrics
  import Strategy
  import Routes
  import ResultsDisplay
  import TradeTimeline
  import BacktestForm

  // The zero-result finding
  // ---------------------------------------------------------------------

  /** As written, a completed run that never traded stores a zero return,
      drawdown and Sharpe ratio; `to_dict` turns them into null and the
      results page throws on `null.toFixed`. */
  lemma ZeroTradeRunCrashesResults(ticker: string, start: Date, end: Date, capital: Json, short: Json, long: Json,
                                   bars: seq<Signals.Bar>, stock: Models.Stock, btId: int,
                                   createdAt: DateTime, completedAt: DateTime, ratio: seq<real> -> real,
                                   trades: seq<Models.TradeDict>, loading: bool,
                                   fixed2: real -> string, currency: real -> string)
    requires Strategy.BacktestOutcome(ticker, start, end, capital, short, long, bars, stock, btId, createdAt, completedAt, ratio).result.Success?
    requires Strategy.BacktestOutcome(ticker, start, end, capital, short, long, bars, stock, btId, createdAt, completedAt, ratio).rows.value.0 == []
    ensures var b := Strategy.BacktestOutcome(ticker, start, end, capital, short, long, bars, stock, btId, createdAt, completedAt, ratio).result.value;
      ResultsDisplay.Render(Some(Models.BacktestToDict(b)), trades, loading, fixed2, currency) == ResultsDisplay.TypeError
  {
    Strategy.ZeroTradeRunIsFlat(ticker, start, end, capital, short, long, bars, stock, btId, createdAt, completedAt, ratio);
  }

  const FlatDay0 := Date(2024, 1, 2)
  const FlatDay1 := Date(2024, 1, 3)
  const FlatDay2 := Date(2024, 1, 4)

  /** Three days at one price. */
  function FlatBars(): (bars: seq<Signals.Bar>)
    ensures |bars| == 3 && forall k :: 0 <= k < 3 ==> bars[k].close == 100.0
  {
    [Signals.Bar(FlatDay0, 100.0), Signals.Bar(FlatDay1, 100.0), Signals.Bar(FlatDay2, 100.0)]
  }

  /** A run the finding applies to: on a flat price series with windows 1
      and 2 the averages never cross, the run completes, and it records no
      trade. */
  lemma FlatPricesCompleteWithoutTrades(stock: Models.Stock, btId: int, createdAt: DateTime,
                                        completedAt: DateTime, ratio: seq<real> -> real)
    ensures var o := Strategy.BacktestOutcome("AAPL", FlatDay0, FlatDay2, JInt(10000), JInt(1), JInt(2),
                                              FlatBars(), stock, btId, createdAt, completedAt, ratio);
      o.result.Success? && o.rows.Some? && o.rows.value.0 == []
  {
    Strategy.SmallIntegerCapital(10000);
    FlatRunFinishesWithoutTrades(
      Strategy.RunningRecord(stock, btId, 1, 2, FlatDay0, FlatDay2, 10000.0, createdAt), btId, completedAt, ratio);
  }

  /** On the flat series with windows 1 and 2 both surviving rows hold (no
      crossing), so the loop and the metrics complete with no trade. */
  lemma FlatRunFinishesWithoutTrades(record: Models.Backtest, btId: int, completedAt: DateTime,
                                     ratio: seq<real> -> real)
    ensures var o := Strategy.Finish(record, Signals.CalculateSignals(FlatBars(), 1, 2), 10000.0, btId, completedAt, ratio);
      o.result.Success? && o.rows.Some? && o.rows.value.0 == []
  {
    var bars := FlatBars();
    var rows := Signals.CalculateSignals(bars, 1, 2);
    assert |rows| == 2;
    assert Signals.SumCloses(bars, 0, 1) == 100.0;
    assert Signals.SumCloses(bars, 1, 2) == 100.0;
    assert Signals.SumCloses(bars, 2, 3) == 100.0;
    assert Signals.SumCloses(bars, 0, 2) == 200.0;
    assert Signals.SumCloses(bars, 1, 3) == 200.0;
    assert rows[0] == Signals.RowAt(bars, 1, 2, 1);
    assert rows[1] == Signals.RowAt(bars, 1, 2, 2);
    assert rows[0].position == 0 && rows[1].position == 0;
    var h0 := Simulation.Start(10000.0);
    assert Simulation.Run(rows, 10000.0, btId, 0) == Success(h0);
    assert Simulation.Run(rows, 10000.0, btId, 1).value.trades == [];
    assert Simulation.Run(rows, 10000.0, btId, 2).value.trades == [];
  }

  /** With the serialisation that keeps zeros, every completed run renders,
      its return is shown as `formatPercent` of the stored return, and the
      win rate is 100% exactly when the return is positive. */
  lemma CompletedRunRenders(ticker: string, start: Date, end: Date, capital: Json, short: Json, long: Json,
                            bars: seq<Signals.Bar>, stock: Models.Stock, btId: int,
                            createdAt: DateTime, completedAt: DateTime, ratio: seq<real> -> real,
                            trades: seq<Models.TradeDict>, loading: bool,
                            fixed2: real -> string, currency: real -> string)
    requires Strategy.BacktestOutcome(ticker, start, end, capital, short, long, bars, stock, btId, createdAt, completedAt, ratio).result.Success?
    ensures var b := Strategy.BacktestOutcome(ticker, start, end, capital, short, long, bars, stock, btId, createdAt, completedAt, ratio).result.value;
      var r := ResultsDisplay.Render(Some(Models.BacktestToDictNullOnly(b)), trades, loading, fixed2, currency);
      r.Shown?
      && r.page.totalReturnText == ResultsDisplay.FormatPercent(fixed2, b.totalReturn.value)
      && (b.initialCapital > 0.0 ==> (r.page.winRate == "100%" <==> b.totalReturn.value > 0.0))
  {
    Strategy.CompletedOutcome(ticker, start, end, capital, short, long, bars, stock, btId, createdAt, completedAt, ratio);
    var b := Strategy.BacktestOutcome(ticker, start, end, capital, short, long, bars, stock, btId, createdAt, completedAt, ratio).result.value;
    CompletedRecordRenders(b, trades, loading, fixed2, currency);
    if b.initialCapital > 0.0 {
      ReturnSignIsProfitSign(b.finalValue.value, b.initialCapital);
    }
  }

  /** A record whose results are all set renders under the corrected
      serialiser, with its own return and its own profit. */
  lemma CompletedRecordRenders(b: Models.Backtest, trades: seq<Models.TradeDict>, loading: bool,
                               fixed2: real -> string, currency: real -> string)
    requires b.finalValue.Some? && b.totalReturn.Some? && b.maxDrawdown.Some? && b.sharpeRatio.Some?
    ensures var r := ResultsDisplay.Render(Some(Models.BacktestToDictNullOnly(b)), trades, loading, fixed2, currency);
      r.Shown?
      && r.page.totalReturnText == ResultsDisplay.FormatPercent(fixed2, b.totalReturn.value)
      && r.page.winRate == ResultsDisplay.WinRate(b.finalValue.value - b.initialCapital)
  {
    var d := Models.BacktestToDictNullOnly(b);
    assert d.totalReturn == b.totalReturn && d.finalValue == b.finalValue && d.initialCapital == Some(b.initialCapital);
    ResultsDisplay.SetResultsRender(d, trades, loading, fixed2, currency);
  }

  /** A positive total return is a positive profit, for a positive stake. */
  lemma ReturnSignIsProfitSign(finalValue: real, initial: real)
    requires initial > 0.0
    ensures Metrics.TotalReturn(finalValue, initial) > 0.0 <==> finalValue - initial > 0.0
  {
    var r := Metrics.TotalReturn(finalValue, initial);
    assert finalValue - initial == initial * (r / 100.0);
  }

  /** The same through the route: the 201 answer of a run request always
      renders on the results page. */
  lemma RunResponseRenders(body: Json, parse: string -> Option<Date>, db: Routes.Db, bars: seq<Signals.Bar>,
                           stock: Models.Stock, btId: int, createdAt: DateTime, completedAt: DateTime,
                           ratio: seq<real> -> real, firstTradeId: int, firstHistoryId: int,
                           trades: seq<Models.TradeDict>, loading: bool,
                           fixed2: real -> string, currency: real -> string)
    requires Routes.RunRequest(body, parse, db, bars, stock, btId, createdAt, completedAt, ratio,
                                      firstTradeId, firstHistoryId).0.status == 201
    ensures var resp := Routes.RunRequest(body, parse, db, bars, stock, btId, createdAt, completedAt, ratio,
                                      firstTradeId, firstHistoryId).0;
      resp.body.RunBody?
      && ResultsDisplay.Render(Some(resp.body.backtest), trades, loading, fixed2, currency).Shown?
  {
    var p := Routes.ValidateRun(body, parse).value;
    CompletedRunRenders(Text.Upper(p.ticker), p.start, p.end, p.initialCapital, p.shortWindow, p.longWindow,
                        bars, stock, btId, createdAt, completedAt, ratio, trades, loading, fixed2, currency);
  }

  // Trades on the timeline
  // ---------------------------------------------------------------------

  /** From positive cash at positive prices, every stored trade serialises
      with its price; a BUY's zero remaining cash comes out as null, so its
      card shows shares and no capital, and a SELL's zero shares come out as
      null, so its card shows the proceeds and no shares. */
  lemma EngineTradesOnTimeline(rows: seq<Signals.SignalRow>, c0: real, btId: int, fixed2: real -> string)
    requires c0 > 0.0
    requires forall k :: 0 <= k < |rows| ==> rows[k].close > 0.0
    ensures Simulation.Run(rows, c0, btId, |rows|).Success?
    ensures var trades := Simulation.Run(rows, c0, btId, |rows|).value.trades;
      forall k :: 0 <= k < |trades| ==>
        var d := Models.TradeToDict(trades[k]);
        var c := TradeTimeline.CardFor(d, fixed2);
        d.price == Some(trades[k].price)
        && (trades[k].tradeType == "BUY" ==>
              d.shares == Some(trades[k].shares) && d.capital.None? && c.shares.Some? && c.capital.None?)
        && (trades[k].tradeType != "BUY" ==>
              d.shares.None? && d.capital == trades[k].capital && c.shares.None? && c.capital.Some?)
  {
    Simulation.RunPositiveTrades(rows, c0, btId, |rows|);
  }

  // The form and the run route
  // ---------------------------------------------------------------------

  /** Every body the form posts has the three required fields, with string
      values, so the route never answers "Missing required field" to it;
      with both dates valid and in order, the answer is 400 only for the
      window order, and the route fails on the comparison exactly when a
      window did not parse (`JSON.stringify` writes NaN as null). */
  lemma FormBodyValidation(form: map<string, BacktestForm.FormValue>,
                           parseFloatText: string -> Option<real>, parseIntText: string -> Option<int>,
                           parse: string -> Option<Date>)
    requires BacktestForm.WellFormed(form)
    ensures var body := BacktestForm.RequestBody(form, parseFloatText, parseIntText);
      Routes.FirstMissing(body, Routes.RequiredFields) == Routes.AllPresent
    ensures var body := BacktestForm.RequestBody(form, parseFloatText, parseIntText);
      var short := BacktestForm.ParseInt(form["short_window"], parseIntText);
      var long := BacktestForm.ParseInt(form["long_window"], parseIntText);
      (parse(form["start_date"].s).Some? && parse(form["end_date"].s).Some?
       && Before(parse(form["start_date"].s).value, parse(form["end_date"].s).value)) ==>
        (Routes.ValidateRun(body, parse) == Failure(Routes.Crash) <==> (short.None? || long.None?))
        && (short.Some? && long.Some? ==>
              (Routes.ValidateRun(body, parse).Success? <==> short.value < long.value))
  {
    var body := BacktestForm.RequestBody(form, parseFloatText, parseIntText);
    assert Routes.Contains(body, Routes.RequiredFields[0]) == Some(true);
    assert Routes.Contains(body, Routes.RequiredFields[1]) == Some(true);
    assert Routes.Contains(body, Routes.RequiredFields[2]) == Some(true);
    var short := BacktestForm.ParseInt(form["short_window"], parseIntText);
    var long := BacktestForm.ParseInt(form["long_window"], parseIntText);
    assert short.Some? ==> PyNumber(JsNumber(short)) == short;
    assert long.Some? ==> PyNumber(JsNumber(long)) == long;
  }

  /** The form as it first appears posts AAPL over 2024, 10000 dollars and
      windows 20 and 50, which the route accepts as they are. */
  lemma InitialFormIsAccepted(parseFloatText: string -> Option<real>, parseIntText: string -> Option<int>,
                              parse: string -> Option<Date>)
    requires parse("2024-01-01") == Some(Date(2024, 1, 1))
    requires parse("2024-12-01") == Some(Date(2024, 12, 1))
    ensures var body := BacktestForm.RequestBody(BacktestForm.InitialForm, parseFloatText, parseIntText);
      Routes.ValidateRun(body, parse)
      == Success(Routes.RunParams("AAPL", Date(2024, 1, 1), Date(2024, 12, 1), JInt(10000), JInt(20), JInt(50)))
  {
    var form := BacktestForm.InitialForm;
    var body := BacktestForm.RequestBody(form, parseFloatText, parseIntText);
    assert Text.Upper("AAPL") == "AAPL";
    assert Routes.Contains(body, Routes.RequiredFields[0]) == Some(true);
    assert Routes.Contains(body, Routes.RequiredFields[1]) == Some(true);
    assert Routes.Contains(body, Routes.RequiredFields[2]) == Some(true);
    assert body.fields["initial_capital"] == JInt(10000);
    assert body.fields["short_window"] == JInt(20);
    assert body.fields["long_window"] == JInt(50);
  }

  /** Every error a run raises has a non-empty message. */
  lemma RunErrorsHaveText(ticker: string, start: Date, end: Date, capital: Json, short: Json, long: Json,
                          bars: seq<Signals.Bar>, stock: Models.Stock, btId: int,
                          createdAt: DateTime, completedAt: DateTime, ratio: seq<real> -> real)
    ensures var o := Strategy.BacktestOutcome(ticker, start, end, capital, short, long, bars, stock, btId, createdAt, completedAt, ratio);
      o.result.Failure? ==> Message(o.result.error) != ""
  {
    var o := Strategy.BacktestOutcome(ticker, start, end, capital, short, long, bars, stock, btId, createdAt, completedAt, ratio);
    Strategy.FailureKinds(ticker, start, end, capital, short, long, bars, stock, btId, createdAt, completedAt, ratio);
    if o.result.Failure? {
      MessageNonEmpty(o.result.error);
    }
  }

  /** The JSON data of an error answer as the form's request sees it: the
      `{"error": ...}` object, or Flask's HTML error page `page`. */
  function ErrorData(b: Routes.Body, page: string): (d: Option<Json>)
    requires b.ErrorBody? || b.ServerErrorPage?
    ensures b.ErrorBody? ==> d == Some(JObject(map["error" := JStr(b.error)]))
    ensures b.ServerErrorPage? ==> d == Some(JStr(page))
  {
    if b.ErrorBody? then Some(JObject(map["error" := JStr(b.error)])) else Some(JStr(page))
  }

  /** A run request that does not complete is answered with an error the
      form shows as it is; only Flask's own error page leads to the fallback
      text. */
  lemma FailedRunShowsError(body: Json, parse: string -> Option<Date>, db: Routes.Db, bars: seq<Signals.Bar>,
                            stock: Models.Stock, btId: int, createdAt: DateTime, completedAt: DateTime,
                            ratio: seq<real> -> real, firstTradeId: int, firstHistoryId: int, page: string)
    requires Routes.RunRequest(body, parse, db, bars, stock, btId, createdAt, completedAt, ratio,
                                      firstTradeId, firstHistoryId).0.status != 201
    ensures var resp := Routes.RunRequest(body, parse, db, bars, stock, btId, createdAt, completedAt, ratio,
                                      firstTradeId, firstHistoryId).0;
      (resp.body.ErrorBody? || resp.body.ServerErrorPage?)
      && (resp.body.ErrorBody? ==>
            resp.body.error != "" && BacktestForm.ErrorText(ErrorData(resp.body, page)) == JStr(resp.body.error))
      && (resp.body.ServerErrorPage? ==>
            BacktestForm.ErrorText(ErrorData(resp.body, page)) == JStr(BacktestForm.FallbackError))
  {
    var v := Routes.ValidateRun(body, parse);
    if v.Success? {
      var p := v.value;
      RunErrorsHaveText(Text.Upper(p.ticker), p.start, p.end, p.initialCapital, p.shortWindow, p.longWindow,
                        bars, stock, btId, createdAt, completedAt, ratio);
    } else {
      RejectionsHaveText(body, parse);
    }
    var resp := Routes.RunRequest(body, parse, db, bars, stock, btId, createdAt, completedAt, ratio,
                                      firstTradeId, firstHistoryId).0;
    if resp.body.ErrorBody? {
      ErrorTextOfMessage(resp.body.error, page);
    }
  }

  /** Every 400 message of the validation chain is non-empty. */
  lemma RejectionsHaveText(body: Json, parse: string -> Option<Date>)
    ensures var v := Routes.ValidateRun(body, parse);
      v.Failure? && v.error.BadRequest? ==> v.error.message != ""
  {
    var f := Routes.FirstMissing(body, Routes.RequiredFields);
    if f.Missing? {
      assert ("Missing required field: " + f.field)[0] == 'M';
    }
  }

  /** The form shows a non-empty route message as it is. */
  lemma ErrorTextOfMessage(message: string, page: string)
    requires message != ""
    ensures BacktestForm.ErrorText(ErrorData(Routes.ErrorBody(message), page)) == JStr(message)
  {
    var data := Some(JObject(map["error" := JStr(message)]));
    assert data.value.fields["error"] == JStr(message);
  }
}
