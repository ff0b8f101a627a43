/** The HTTP handlers of the back end: validation of a run request, the run
    itself, and fetching and deleting a stored back-test. The database is a
    value: one map per table, keyed by back-test id. */
module Routes {
  import opened Wrappers
  import opened JsonValue
  import opened Dates
  import opened Errors
  import Text
  import Models
  import Signals
  import Strategy

  /** Why a request is refused before any back-test runs: a 400 with a
      message, or an exception the handler does not catch (Flask then
      answers with its own 500 page). */
  datatype Rejection = BadRequest(message: string) | Crash

  /** The parameters handed to the strategy. */
  datatype RunParams = RunParams(
    ticker: string, start: Date, end: Date,
    initialCapital: Json, shortWindow: Json, longWindow: Json)

  const RequiredFields: seq<string> := ["ticker", "start_date", "end_date"]

  /** Python's `key in data` on a decoded JSON body: keys of an object,
      elements of a list, substrings of a string; None when it raises
      TypeError. */
  function Contains(data: Json, key: string): (r: Option<bool>)
    ensures r.Some? <==> (data.JObject? || data.JArray? || data.JStr?)
    ensures data.JObject? ==> r == Some(key in data.fields)
  {
    match data
    case JObject(m) => Some(key in m)
    case JArray(items) => Some(JStr(key) in items)
    case JStr(s) => Some(Text.IsSubstring(key, s))
    case _ => None
  }

  /** The outcome of the required-field loop. */
  datatype FieldCheck = AllPresent | Missing(field: string) | NotAContainer

  /** The first of `fields` that `data` lacks, in order. */
  function FirstMissing(data: Json, fields: seq<string>): (r: FieldCheck)
    ensures r == AllPresent <==> forall k :: 0 <= k < |fields| ==> Contains(data, fields[k]) == Some(true)
    ensures r.Missing? ==>
      exists k :: 0 <= k < |fields| && fields[k] == r.field
        && Contains(data, fields[k]) == Some(false)
        && forall j :: 0 <= j < k ==> Contains(data, fields[j]) == Some(true)
    ensures r == NotAContainer <==> fields != [] && Contains(data, fields[0]).None?
  {
    if fields == [] then AllPresent
    else
      match Contains(data, fields[0])
      case None => NotAContainer
      case Some(false) => Missing(fields[0])
      case Some(true) =>
        var rest := FirstMissing(data, fields[1..]);
        assert forall k :: 1 <= k < |fields| ==> fields[k] == fields[1..][k - 1];
        if rest.Missing? then
          var k :| 0 <= k < |fields[1..]| && fields[1..][k] == rest.field
            && Contains(data, fields[1..][k]) == Some(false)
            && forall j :: 0 <= j < k ==> Contains(data, fields[1..][j]) == Some(true);
          assert fields[k + 1] == rest.field;
          rest
        else
          rest
  }

  /** The `for field in required_fields` loop with its early return. */
  method CheckRequired(data: Json, fields: seq<string>) returns (r: FieldCheck)
    ensures r == FirstMissing(data, fields)
  {
    for i := 0 to |fields|
      invariant FirstMissing(data, fields) == FirstMissing(data, fields[i..])
    {
      assert fields[i..][1..] == fields[i + 1..];
      var present := Contains(data, fields[i]);
      if present.None? {
        return NotAContainer;
      }
      if !present.value {
        return Missing(fields[i]);
      }
    }
    assert fields[|fields|..] == [];
    r := AllPresent;
  }

  /** `data.get(key, default)`. */
  function GetOr(m: map<string, Json>, key: string, default: Json): (r: Json)
    ensures key in m ==> r == m[key]
    ensures key !in m ==> r == default
  {
    if key in m then m[key] else default
  }

  /** A body that passes every check: the three fields present, a string
      ticker, two dates that parse with the start first, and windows that
      Python compares with short < long. */
  predicate Acceptable(m: map<string, Json>, parse: string -> Option<Date>)
  {
    "ticker" in m && "start_date" in m && "end_date" in m
    && m["ticker"].JStr? && m["start_date"].JStr? && m["end_date"].JStr?
    && parse(m["start_date"].s).Some? && parse(m["end_date"].s).Some?
    && Before(parse(m["start_date"].s).value, parse(m["end_date"].s).value)
    && PyGe(GetOr(m, "short_window", JInt(20)), GetOr(m, "long_window", JInt(50))) == Some(false)
  }

  /** The checks of `run_backtest` before the strategy runs, in source order:
      required fields, ticker upper-casing, defaults, both dates parsed (the
      start first), start before end, and the window order. `parse` stands
      for `strptime(s, '%Y-%m-%d')`. */
  function ValidateRun(body: Json, parse: string -> Option<Date>): (r: Result<RunParams, Rejection>)
    ensures FirstMissing(body, RequiredFields).Missing? ==>
      r == Failure(BadRequest("Missing required field: " + FirstMissing(body, RequiredFields).field))
    ensures r.Success? ==>
      body.JObject?
      && "ticker" in body.fields && "start_date" in body.fields && "end_date" in body.fields
      && body.fields["ticker"].JStr? && r.value.ticker == Text.Upper(body.fields["ticker"].s)
      && r.value.initialCapital == GetOr(body.fields, "initial_capital", JInt(10000))
      && r.value.shortWindow == GetOr(body.fields, "short_window", JInt(20))
      && r.value.longWindow == GetOr(body.fields, "long_window", JInt(50))
      && body.fields["start_date"].JStr? && parse(body.fields["start_date"].s) == Some(r.value.start)
      && body.fields["end_date"].JStr? && parse(body.fields["end_date"].s) == Some(r.value.end)
      && Before(r.value.start, r.value.end)
      && PyGe(r.value.shortWindow, r.value.longWindow) == Some(false)
    ensures body.JObject? && Acceptable(body.fields, parse) ==>
      r == Success(RunParams(Text.Upper(body.fields["ticker"].s),
                             parse(body.fields["start_date"].s).value, parse(body.fields["end_date"].s).value,
                             GetOr(body.fields, "initial_capital", JInt(10000)),
                             GetOr(body.fields, "short_window", JInt(20)),
                             GetOr(body.fields, "long_window", JInt(50))))
  {
    assert body.JObject? && Acceptable(body.fields, parse) ==> FirstMissing(body, RequiredFields) == AllPresent by {
      if body.JObject? && Acceptable(body.fields, parse) {
        assert forall k :: 0 <= k < |RequiredFields| ==> Contains(body, RequiredFields[k]) == Some(true);
      }
    }
    match FirstMissing(body, RequiredFields)
    case NotAContainer => Failure(Crash)
    case Missing(f) => Failure(BadRequest("Missing required field: " + f))
    case AllPresent =>
      if !body.JObject? then Failure(Crash)
      else
        var m := body.fields;
        assert "ticker" in m && "start_date" in m && "end_date" in m by {
          assert Contains(body, RequiredFields[0]) == Some(true);
          assert Contains(body, RequiredFields[1]) == Some(true);
          assert Contains(body, RequiredFields[2]) == Some(true);
        }
        if !m["ticker"].JStr? then Failure(Crash)
        else
          var ticker := Text.Upper(m["ticker"].s);
          var capital := GetOr(m, "initial_capital", JInt(10000));
          var short := GetOr(m, "short_window", JInt(20));
          var long := GetOr(m, "long_window", JInt(50));
          if !m["start_date"].JStr? then Failure(Crash)
          else
            match parse(m["start_date"].s)
            case None => Failure(BadRequest("Invalid date format. Use YYYY-MM-DD"))
            case Some(start) =>
              if !m["end_date"].JStr? then Failure(Crash)
              else
                match parse(m["end_date"].s)
                case None => Failure(BadRequest("Invalid date format. Use YYYY-MM-DD"))
                case Some(end) =>
                  if !Before(start, end) then Failure(BadRequest("Start date must be before end date"))
                  else
                    match PyGe(short, long)
                    case None => Failure(Crash)
                    case Some(true) => Failure(BadRequest("Short window must be less than long window"))
                    case Some(false) => Success(RunParams(ticker, start, end, capital, short, long))
  }

  /** The fields are checked in order and the first missing one is named. */
  lemma MissingFieldOrder(m: map<string, Json>, parse: string -> Option<Date>)
    ensures "ticker" !in m ==>
      ValidateRun(JObject(m), parse) == Failure(BadRequest("Missing required field: ticker"))
    ensures "ticker" in m && "start_date" !in m ==>
      ValidateRun(JObject(m), parse) == Failure(BadRequest("Missing required field: start_date"))
    ensures "ticker" in m && "start_date" in m && "end_date" !in m ==>
      ValidateRun(JObject(m), parse) == Failure(BadRequest("Missing required field: end_date"))
  {
    var body := JObject(m);
    var rest := RequiredFields[1..];
    assert rest == ["start_date", "end_date"] && rest[1..] == ["end_date"];
    if "ticker" in m {
      assert FirstMissing(body, RequiredFields) == FirstMissing(body, rest);
      if "start_date" in m {
        assert FirstMissing(body, rest) == FirstMissing(body, rest[1..]);
        if "end_date" !in m {
          assert FirstMissing(body, rest[1..]) == Missing("end_date");
          assert "Missing required field: " + "end_date" == "Missing required field: end_date";
        }
      } else {
        assert FirstMissing(body, rest) == Missing("start_date");
        assert "Missing required field: " + "start_date" == "Missing required field: start_date";
      }
    } else {
      assert FirstMissing(body, RequiredFields) == Missing("ticker");
      assert "Missing required field: " + "ticker" == "Missing required field: ticker";
    }
  }

  /** A date that does not parse is reported before the start/end order, and
      the window order is checked last, on otherwise valid input. */
  lemma DateAndWindowChecks(m: map<string, Json>, parse: string -> Option<Date>)
    requires "ticker" in m && "start_date" in m && "end_date" in m && m["ticker"].JStr?
    requires m["start_date"].JStr? && m["end_date"].JStr?
    ensures parse(m["start_date"].s).None? || parse(m["end_date"].s).None? ==>
      ValidateRun(JObject(m), parse) == Failure(BadRequest("Invalid date format. Use YYYY-MM-DD"))
    ensures (parse(m["start_date"].s).Some? && parse(m["end_date"].s).Some?
             && !Before(parse(m["start_date"].s).value, parse(m["end_date"].s).value)) ==>
      ValidateRun(JObject(m), parse) == Failure(BadRequest("Start date must be before end date"))
    ensures ValidateRun(JObject(m), parse) == Failure(BadRequest("Short window must be less than long window")) <==>
      (parse(m["start_date"].s).Some? && parse(m["end_date"].s).Some?
       && Before(parse(m["start_date"].s).value, parse(m["end_date"].s).value)
       && PyGe(GetOr(m, "short_window", JInt(20)), GetOr(m, "long_window", JInt(50))) == Some(true))
  {
    var body := JObject(m);
    assert FirstMissing(body, RequiredFields) == AllPresent by {
      assert forall k :: 0 <= k < |RequiredFields| ==> Contains(body, RequiredFields[k]) == Some(true);
    }
  }

  // ---------------------------------------------------------------------
  // Responses and the database
  // ---------------------------------------------------------------------

  datatype Body =
    | ErrorBody(error: string)
    | MessageBody(message: string)
    | RunBody(message: string, backtest: Models.BacktestDict)
    | DetailBody(backtest: Models.BacktestDict, trades: seq<Models.TradeDict>, history: seq<Models.HistoryDict>)
    | ServerErrorPage

  datatype Response = Response(status: int, body: Body)

  /** The three tables a back-test owns, keyed by its id. */
  datatype Db = Db(
    backtests: map<int, Models.Backtest>,
    trades: map<int, seq<Models.Trade>>,
    history: map<int, seq<Models.PortfolioHistory>>)

  function Rows<T>(m: map<int, seq<T>>, id: int): seq<T>
  {
    if id in m then m[id] else []
  }

  /** The serial ids the commit gives a run's trade rows: the table's
      sequence hands out consecutive values, in insertion order, from `first`. */
  function TradeIds(ts: seq<Models.Trade>, first: int): (r: seq<Models.Trade>)
    ensures |r| == |ts|
    ensures forall i :: 0 <= i < |ts| ==> r[i] == ts[i].(id := Some(first + i))
  {
    if ts == [] then [] else [ts[0].(id := Some(first))] + TradeIds(ts[1..], first + 1)
  }

  /** The serial ids the commit gives a run's portfolio-history rows. */
  function HistoryIds(hs: seq<Models.PortfolioHistory>, first: int): (r: seq<Models.PortfolioHistory>)
    ensures |r| == |hs|
    ensures forall i :: 0 <= i < |hs| ==> r[i] == hs[i].(id := Some(first + i))
  {
    if hs == [] then [] else [hs[0].(id := Some(first))] + HistoryIds(hs[1..], first + 1)
  }

  /** What a run leaves committed: the record once created, and the trade
      and history rows once the loop finished, with the ids the database
      assigns from `firstTradeId` and `firstHistoryId` (a loop that raised
      has its uncommitted rows rolled back). */
  function Persist(db: Db, btId: int, o: Strategy.Outcome, firstTradeId: int, firstHistoryId: int): (db': Db)
    ensures o.saved.None? && o.rows.None? ==> db' == db
    ensures o.saved.None? ==> db'.backtests == db.backtests
    ensures o.saved.Some? ==> db'.backtests == db.backtests[btId := o.saved.value]
    ensures o.rows.Some? ==>
      db'.trades == db.trades[btId := TradeIds(o.rows.value.0, firstTradeId)]
      && db'.history == db.history[btId := HistoryIds(o.rows.value.1, firstHistoryId)]
    ensures o.rows.None? ==> db'.trades == db.trades && db'.history == db.history
  {
    var withRecord := if o.saved.Some? then db.(backtests := db.backtests[btId := o.saved.value]) else db;
    if o.rows.Some? then
      withRecord.(trades := db.trades[btId := TradeIds(o.rows.value.0, firstTradeId)],
                  history := db.history[btId := HistoryIds(o.rows.value.1, firstHistoryId)])
    else withRecord
  }

  /** A complete `POST /backtests/run`: `bars` is the downloaded price table,
      `stock`, `btId`, `createdAt` and the first ids of the trade and
      history rows what the database assigns, and
      `completedAt` the clock reading at completion. Records are serialised
      with `Models.BacktestToDictNullOnly`, which keeps a zero result a
      number (see `Pipeline.ZeroTradeRunCrashesResults` for what the
      zero-to-null rule of `to_dict` does). */
  function RunRequest(body: Json, parse: string -> Option<Date>, db: Db, bars: seq<Signals.Bar>,
                      stock: Models.Stock, btId: int, createdAt: DateTime, completedAt: DateTime,
                      ratio: seq<real> -> real, firstTradeId: int, firstHistoryId: int): (Response, Db)
  {
    match ValidateRun(body, parse)
    case Failure(BadRequest(msg)) => (Response(400, ErrorBody(msg)), db)
    case Failure(Crash) => (Response(500, ServerErrorPage), db)
    case Success(p) =>
      var o := Strategy.BacktestOutcome(Text.Upper(p.ticker), p.start, p.end, p.initialCapital,
                                        p.shortWindow, p.longWindow, bars, stock, btId, createdAt, completedAt, ratio);
      var resp := match o.result
        case Success(b) => Response(201, RunBody("Backtest completed successfully", Models.BacktestToDictNullOnly(b)))
        case Failure(e) => Response(500, ErrorBody(Message(e)));
      (resp, Persist(db, btId, o, firstTradeId, firstHistoryId))
  }

  /** The handler: validate, build the strategy object, run it, and answer. */
  method HandleRun(body: Json, parse: string -> Option<Date>, db: Db, bars: seq<Signals.Bar>,
                   stock: Models.Stock, btId: int, createdAt: DateTime, completedAt: DateTime,
                   ratio: seq<real> -> real, firstTradeId: int, firstHistoryId: int)
    returns (resp: Response, db': Db)
    ensures (resp, db') == RunRequest(body, parse, db, bars, stock, btId, createdAt, completedAt, ratio,
                                      firstTradeId, firstHistoryId)
  {
    var v := ValidateRun(body, parse);
    if v.Failure? {
      resp := if v.error.BadRequest? then Response(400, ErrorBody(v.error.message)) else Response(500, ServerErrorPage);
      return resp, db;
    }
    var p := v.value;
    var strategy := new Strategy.MovingAverageCrossover(p.ticker, p.start, p.end, p.initialCapital, p.shortWindow, p.longWindow);
    var r := strategy.RunBacktest(bars, stock, btId, createdAt, completedAt, ratio);
    db' := db;
    if strategy.backtest.Some? {
      db' := db'.(backtests := db'.backtests[btId := strategy.backtest.value]);
    }
    if strategy.committedRows.Some? {
      var (trades, history) := strategy.committedRows.value;
      db' := db'.(trades := db.trades[btId := TradeIds(trades, firstTradeId)],
                  history := db.history[btId := HistoryIds(history, firstHistoryId)]);
    }
    if r.Success? {
      resp := Response(201, RunBody("Backtest completed successfully", Models.BacktestToDictNullOnly(r.value)));
    } else {
      resp := Response(500, ErrorBody(Message(r.error)));
    }
  }

  /** The answer to a run request: 400 for a refused request, 201 with the
      completed record's dict when the run completes, 500 with the error
      text when it raises; only an accepted request touches the database. */
  lemma RunRequestStatus(body: Json, parse: string -> Option<Date>, db: Db, bars: seq<Signals.Bar>,
                         stock: Models.Stock, btId: int, createdAt: DateTime, completedAt: DateTime,
                         ratio: seq<real> -> real, firstTradeId: int, firstHistoryId: int)
    ensures var (resp, db') := RunRequest(body, parse, db, bars, stock, btId, createdAt, completedAt, ratio,
                                      firstTradeId, firstHistoryId);
      var v := ValidateRun(body, parse);
      (resp.status == 400 <==> v.Failure? && v.error.BadRequest?)
      && (resp.status == 400 ==> resp.body == ErrorBody(v.error.message) && db' == db)
      && (v.Failure? ==> db' == db)
      && (resp.status == 201 ==>
            v.Success? && resp.body.RunBody?
            && resp.body.message == "Backtest completed successfully"
            && resp.body.backtest.status == Some("completed"))
      && (v.Success? ==> resp.status == 201 || (resp.status == 500 && resp.body.ErrorBody?))
  {
    var v := ValidateRun(body, parse);
    if v.Success? {
      var p := v.value;
      var o := Strategy.BacktestOutcome(Text.Upper(p.ticker), p.start, p.end, p.initialCapital,
                                        p.shortWindow, p.longWindow, bars, stock, btId, createdAt, completedAt, ratio);
      if o.result.Success? {
        Strategy.CompletedOutcome(Text.Upper(p.ticker), p.start, p.end, p.initialCapital,
                                  p.shortWindow, p.longWindow, bars, stock, btId, createdAt, completedAt, ratio);
      }
    }
  }

  /** `GET /backtests/<id>`: 404 for an unknown id, otherwise the record's
      dict with its trades and its history. */
  function GetBacktest(db: Db, id: int): (r: Response)
    ensures r.status == 404 <==> id !in db.backtests
    ensures r.status == 404 ==> r.body == ErrorBody("Backtest not found")
    ensures r.status != 404 ==>
      r.status == 200
      && r.body == DetailBody(Models.BacktestToDictNullOnly(db.backtests[id]),
                              Models.TradesToDicts(Rows(db.trades, id)),
                              Models.HistoriesToDicts(Rows(db.history, id)))
  {
    if id !in db.backtests then Response(404, ErrorBody("Backtest not found"))
    else Response(200, DetailBody(Models.BacktestToDictNullOnly(db.backtests[id]),
                                  Models.TradesToDicts(Rows(db.trades, id)),
                                  Models.HistoriesToDicts(Rows(db.history, id))))
  }

  /** `DELETE /backtests/<id>`: 404 for an unknown id; otherwise the record
      goes, and with it (by the cascade) its trades and history. */
  function DeleteBacktest(db: Db, id: int): (r: (Response, Db))
    ensures r.0.status == 404 <==> id !in db.backtests
    ensures r.0.status == 404 ==> r.0.body == ErrorBody("Backtest not found") && r.1 == db
    ensures r.0.status != 404 ==> r.0 == Response(200, MessageBody("Backtest deleted successfully"))
    ensures id !in r.1.backtests
    ensures r.0.status == 200 ==> id !in r.1.trades && id !in r.1.history
    ensures forall k :: k != id ==>
      Rows(r.1.trades, k) == Rows(db.trades, k) && Rows(r.1.history, k) == Rows(db.history, k)
    ensures forall k :: k != id ==> (k in r.1.backtests <==> k in db.backtests)
    ensures forall k :: k != id && k in db.backtests ==> r.1.backtests[k] == db.backtests[k]
  {
    if id !in db.backtests then (Response(404, ErrorBody("Backtest not found")), db)
    else (Response(200, MessageBody("Backtest deleted successfully")),
          Db(db.backtests - {id}, db.trades - {id}, db.history - {id}))
  }

  /** Deleting makes the id unknown: a later GET or DELETE of it answers 404,
      and every other back-test is still served as before. */
  lemma DeleteThenGet(db: Db, id: int, other: int)
    requires other != id
    ensures var db' := DeleteBacktest(db, id).1;
      GetBacktest(db', id).status == 404
      && DeleteBacktest(db', id).0.status == 404
      && GetBacktest(db', other) == GetBacktest(db, other)
  {
    var db' := DeleteBacktest(db, id).1;
    if id in db.backtests {
      assert Rows(db'.trades, other) == Rows(db.trades, other);
      assert Rows(db'.history, other) == Rows(db.history, other);
    }
  }

  /** After a completed run under a fresh id, GET of that id answers 200 with
      the same record dict the run answered, and its stored trades and history. */
  lemma RunThenGet(body: Json, parse: string -> Option<Date>, db: Db, bars: seq<Signals.Bar>,
                   stock: Models.Stock, btId: int, createdAt: DateTime, completedAt: DateTime,
                   ratio: seq<real> -> real, firstTradeId: int, firstHistoryId: int)
    requires RunRequest(body, parse, db, bars, stock, btId, createdAt, completedAt, ratio,
                                      firstTradeId, firstHistoryId).0.status == 201
    ensures var (resp, db') := RunRequest(body, parse, db, bars, stock, btId, createdAt, completedAt, ratio,
                                      firstTradeId, firstHistoryId);
      GetBacktest(db', btId).status == 200
      && resp.body.RunBody? && GetBacktest(db', btId).body.DetailBody?
      && GetBacktest(db', btId).body.backtest == resp.body.backtest
  {
    var p := ValidateRun(body, parse).value;
    Strategy.CompletedOutcome(Text.Upper(p.ticker), p.start, p.end, p.initialCapital,
                              p.shortWindow, p.longWindow, bars, stock, btId, createdAt, completedAt, ratio);
  }

  /** After a completed run, GET of its id lists as many trades as the
      record counts, and the trade and history rows carry the consecutive
      ids the commit assigned them. */
  lemma RunRowIds(body: Json, parse: string -> Option<Date>, db: Db, bars: seq<Signals.Bar>,
                  stock: Models.Stock, btId: int, createdAt: DateTime, completedAt: DateTime,
                  ratio: seq<real> -> real, firstTradeId: int, firstHistoryId: int)
    requires RunRequest(body, parse, db, bars, stock, btId, createdAt, completedAt, ratio,
                        firstTradeId, firstHistoryId).0.status == 201
    ensures var (resp, db') := RunRequest(body, parse, db, bars, stock, btId, createdAt, completedAt, ratio,
                                          firstTradeId, firstHistoryId);
      var g := GetBacktest(db', btId).body;
      g.DetailBody? && resp.body.RunBody?
      && resp.body.backtest.numTrades == Some(|g.trades|)
      && (forall i :: 0 <= i < |g.trades| ==> g.trades[i].id == Some(firstTradeId + i))
      && (forall i :: 0 <= i < |g.history| ==> g.history[i].id == Some(firstHistoryId + i))
  {
    var p := ValidateRun(body, parse).value;
    var o := Strategy.BacktestOutcome(Text.Upper(p.ticker), p.start, p.end, p.initialCapital,
                                      p.shortWindow, p.longWindow, bars, stock, btId, createdAt, completedAt, ratio);
    Strategy.CompletedOutcome(Text.Upper(p.ticker), p.start, p.end, p.initialCapital,
                              p.shortWindow, p.longWindow, bars, stock, btId, createdAt, completedAt, ratio);
    StoredRowIds(db, btId, o, firstTradeId, firstHistoryId);
  }

  /** GET of a run whose rows were committed lists those rows with their ids. */
  lemma StoredRowIds(db: Db, btId: int, o: Strategy.Outcome, firstTradeId: int, firstHistoryId: int)
    requires o.saved.Some? && o.rows.Some?
    ensures var g := GetBacktest(Persist(db, btId, o, firstTradeId, firstHistoryId), btId).body;
      g.DetailBody?
      && |g.trades| == |o.rows.value.0|
      && (forall i :: 0 <= i < |g.trades| ==> g.trades[i].id == Some(firstTradeId + i))
      && (forall i :: 0 <= i < |g.history| ==> g.history[i].id == Some(firstHistoryId + i))
  {
    var db' := Persist(db, btId, o, firstTradeId, firstHistoryId);
    assert Rows(db'.trades, btId) == TradeIds(o.rows.value.0, firstTradeId);
    assert Rows(db'.history, btId) == HistoryIds(o.rows.value.1, firstHistoryId);
  }
}
