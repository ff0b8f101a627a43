# Trading back-tester: a verified model

This project is a model of a stock back-tester. A Flask back end downloads
daily prices and computes a short and a long simple moving average of the
closing prices. It trades all-in and all-out on their crossovers and stores
the trades, one portfolio point per day and the performance metrics. It
serves them as JSON. A React front end posts the run form, shows the
headline numbers, draws the portfolio chart with one marker per trade, and
lists the trades on a timeline.

The model covers these parts of the system:

- **The moving-average crossover engine**: signal generation, the trading
  loop and the metrics.
  - `Signals` holds the signal generation.
  - `Simulation` holds the trading loop. The pure `Run` specifies it, and
    the imperative `Simulate` is proved equal to `Run`.
  - `Metrics` holds the metrics.
  - `Strategy` holds the whole run and the strategy object. The object
    records which rows the run committed.
- **The run request's validation chain and the handlers** (`Routes`).
  - The handlers are `POST /backtests/run`, `GET /backtests/<id>` and
    `DELETE /backtests/<id>`.
  - The database is a value holding three tables keyed by back-test id.
- **The `to_dict` serialisations** (`Models`), and the JSON values with
  their Python and JavaScript coercions (`JsonValue`).
- **The four front-end components.**
  - `ResultsDisplay`, `TradeTimeline`, `PerformanceChart` and
    `BacktestForm` each model one component.
  - A component's state is a class.
  - Its rendering is a pure function of that state.
- **`Pipeline`**: lemmas across the HTTP boundary. They cover what the
  engine stores, what the serialiser writes and what the components then
  show.

Some parts of the source become parameters:

- date parsing (`strptime`);
- `Number.toFixed(2)` and the currency formatter;
- `parseFloat` and `parseInt` on text;
- the Sharpe ratio's mean-over-deviation arithmetic;
- the values the database assigns (the record's id, the first ids of a run's trade and history rows, the stock row, timestamps);
- the downloaded price table.

Money and prices are exact reals.

## Model

| member | source | states |
|---|---|---|
| Text.Upper | backend/routes.py:89 | upper-casing keeps the length, maps each character, and leaves no lower-case ASCII letter |
| Text.UpperIdempotent | frontend/src/components/BacktestForm.js:31 | upper-casing twice equals upper-casing once, so the back end's second `upper()` changes nothing |
| Text.NatToString | backend/strategy.py:120 | decimal digits only, at least one, and a leading zero only for 0 |
| Text.NatToStringValue | backend/strategy.py:120 | the window numbers written into the strategy name read back as themselves |
| Text.Padded | backend/models.py:93 | the zero-padded field of `isoformat` has at least the width and only digits |
| Text.PaddedValue | backend/models.py:93 | the zero-padded field reads back as the number it pads: padding only adds leading zeros |
| Dates.BeforeStrictTotal | backend/routes.py:101 | the date order is irreflexive, transitive and total on distinct dates |
| JsonValue.PyNumber | backend/strategy.py:109 | exactly booleans, integers and floats are numbers in Python |
| JsonValue.PyGe | backend/routes.py:108 | `>=` is defined exactly on two numbers or two strings, and compares numbers numerically |
| JsonValue.JsNumber | frontend/src/components/BacktestForm.js:34-36 | NaN is written as null; an integral number of magnitude below 10^21 is written as an integer; a fractional number, or one of magnitude 10^21 or more (written in exponent form), reaches Python as a float; either way Python reads back the same number |
| Models.FloatOrNull | backend/models.py:55-58 | the field is present exactly when the column is non-null and non-zero, and then holds the column |
| Models.NonZero | backend/models.py:95 | on a NOT NULL column only a zero becomes null |
| Models.IsoOrNull | backend/models.py:93-94 | a date is present exactly when the column is, as its ISO text |
| Models.IsoTimeOrNull | backend/models.py:102-103 | a timestamp is present exactly when the column is, as its ISO text |
| Models.StockPriceToDict | backend/models.py:50-60 | id, stock id and volume pass through; the date is ISO text; each price is present exactly when it is non-null and non-zero |
| Models.BacktestToDict | backend/models.py:87-104 | the ticker is null exactly without a related stock; each numeric field is present exactly when non-null and non-zero and then equal to the column; both dates and both timestamps are their ISO text (timestamps null when null); trade count and status pass through |
| Models.TradeToDict | backend/models.py:123-132 | price, shares and capital are each present exactly when non-zero, and then equal to the column |
| Models.HistoryToDict | backend/models.py:150-158 | value, price and shares held are each present exactly when non-zero, and then equal to the column |
| Models.TradesToDicts | backend/routes.py:58 | one dict per trade, in order |
| Models.HistoriesToDicts | backend/routes.py:59 | one dict per history point, in order |
| Models.ZeroCapitalLooksNull | backend/models.py:131 | a stored zero capital and a null capital serialise identically |
| Models.FloatUnlessNone | backend/models.py:96-99 | the corrected null test: the value passes through unchanged, zero included |
| Models.BacktestToDictNullOnly | backend/models.py:87-104 | the corrected serialiser: the results and the capital are kept as stored, zeros included; id, name, ticker, trade count and status are as in `to_dict` |
| Signals.RowAt | backend/strategy.py:90-97 | a kept row carries its bar's date and close, both means over the windows ending at it, its signal, and its signal minus the previous one |
| Signals.CalculateSignals | backend/strategy.py:84-102 | no rows exactly when a window is below 1 or the table is too short; otherwise the suffix from the first row where both means and a previous signal exist |
| Signals.RowsFrom | backend/strategy.py:96-101 | the rows kept by `dropna` are as many as the table has from the first row on, and row k is the bar at that row plus k with its means and signals |
| Signals.SignalRowsAreSuffix | backend/strategy.py:90-100 | each kept row is the bar at the same offset from the end, with the means of the s and l closes ending there |
| Signals.SignalsAreCrossings | backend/strategy.py:94-100 | the signal is 1 exactly when the short mean is above the long one; the position is -2, 0 or 2, and the change of signal from the row before |
| Signals.FirstPositionIsCrossUp | backend/strategy.py:94-100 | on the first kept row the position is 2 exactly when short > long, and 0 otherwise |
| Simulation.Step | backend/strategy.py:134-184 | specification of one loop iteration: all-in buy on +2 with cash, all-out sell on -2 with shares, then the day's point (its properties are Simulation.StepTradeRule and Simulation.StepKeepsInvariant) |
| Simulation.Run | backend/strategy.py:130-184 | specification of the loop over the first n rows, stopping at the first error (its properties are Simulation.RunKeepsInvariant, Simulation.RunFailsOnlyAtZeroPrice and Simulation.RunPositive) |
| Simulation.Simulate | backend/strategy.py:130-184 | the loop returns exactly the state of the specification `Run` after all rows, or its error |
| Simulation.RunFailureSticks | backend/strategy.py:134-184 | once the loop has raised, no later row changes the result |
| Simulation.RunFailsOnlyAtZeroPrice | backend/strategy.py:140-141 | the loop can raise only ZeroDivisionError, and only at a +2 row with a zero close |
| Simulation.StepTradeRule | backend/strategy.py:140-184 | one point is added per row; a BUY happens only on +2 with cash, spending all of it at the close; a SELL only on -2 with shares, selling all; the day's value is the same before and after the trade |
| Simulation.RunKeepsInvariant | backend/strategy.py:130-184 | never cash and shares at once; trades alternate BUY, SELL from a BUY; the counter equals the trade count; one point per row in row order with its date and price |
| Simulation.StepKeepsInvariant | backend/strategy.py:134-184 | one day of the loop keeps the invariant: cash or shares but not both, alternating trades, trade count and one history point per row |
| Simulation.RunPositive | backend/strategy.py:130-176 | from positive cash at positive prices the loop never raises, holdings stay non-negative, and every day's value is positive |
| Simulation.StepKeepsPositive | backend/strategy.py:140-184 | one day at a positive close never raises and keeps cash, shares and the day's value non-negative, with cash and shares not both held |
| Simulation.StepAddsPositiveTrade | backend/strategy.py:140-171 | one step at a positive price from non-negative holdings never raises and appends at most one trade, with a positive price and the BUY or SELL shape |
| Simulation.RunPositiveTrades | backend/strategy.py:146-171 | from positive cash at positive prices every BUY has positive shares and zero capital, and every SELL zero shares and positive proceeds |
| Simulation.NoTradeFlatValue | backend/strategy.py:176-182 | without a trade the cash is untouched and every day's value is the starting capital |
| Metrics.PrefixMax | backend/strategy.py:213 | the running maximum at i is at least every earlier value and equal to one of them |
| Metrics.RunningMax | backend/strategy.py:213 | `maximum.accumulate` is the running maximum at every index |
| Metrics.RunningMaxNonDecreasing | backend/strategy.py:213 | the running maximum never decreases and is at or above each value |
| Metrics.Drawdowns | backend/strategy.py:214 | one drawdown per value, relative to the running maximum |
| Metrics.MinUpTo | backend/strategy.py:215 | the minimum is at most every element and equal to one |
| Metrics.PrefixMaxOfNonDecreasing | backend/strategy.py:213 | in a never-decreasing series each value is its own running maximum |
| Metrics.DrawdownsAtPeaks | backend/strategy.py:214 | with positive values each drawdown is at most 0, and 0 exactly at a new peak |
| Metrics.NonDecreasingIffAllPeaks | backend/strategy.py:213 | a series never decreases exactly when every value is a new peak |
| Metrics.MaxDrawdown | backend/strategy.py:212-215 | specification of `drawdown.min() * 100` over the running-maximum drawdowns (its property is Metrics.MaxDrawdownSign) |
| Metrics.MaxDrawdownSign | backend/strategy.py:212-215 | with positive values the maximum drawdown is at most 0, and 0 exactly when the values never decrease |
| Metrics.DrawdownOfPoint | backend/strategy.py:214 | a positive value below or at its peak has a drawdown of at most 0, and 0 only at the peak |
| Metrics.Returns | backend/strategy.py:218 | one relative change per consecutive pair of values |
| Metrics.SharpeRatio | backend/strategy.py:218-222 | 0.0 with fewer than two returns or all returns equal (zero deviation); otherwise the ratio of the returns |
| Metrics.TotalReturn | backend/strategy.py:204 | the percentage scales the initial capital back to the final value, and is 0 exactly when they are equal |
| Metrics.CalculateMetrics | backend/strategy.py:193-234 | IndexError exactly on an empty history; otherwise ZeroDivisionError exactly on a zero capital or first close; on success the last value, its total return, the drawdown, the Sharpe ratio and the trade count |
| Metrics.FlatSeriesMetrics | backend/strategy.py:204-222 | a portfolio that never moves reports zero return, zero drawdown and a zero Sharpe ratio |
| Strategy.CapitalValue | backend/strategy.py:109 | the banner's `:,.2f` accepts booleans, floats and the integers within float range, with their value; an integer of magnitude at least 2^1024 - 2^970 raises "int too large to convert to float"; anything else raises a non-empty format message |
| Strategy.SmallIntegerCapital | backend/strategy.py:109 | every integer capital below 2^64 in magnitude formats, with its own value |
| Strategy.WindowValue | backend/strategy.py:90-91 | a non-negative integer window below 2^63 is accepted with its value; a larger integer overflows pandas' 64-bit window; every other window is the pandas ValueError (string windows only approximately, see Left out) |
| Strategy.CapitalColumnError | backend/strategy.py:118-127 | committing the record fails exactly when the capital is a boolean (PostgreSQL has no boolean-to-numeric cast for `initial_capital`) or rounds to 10^10 or more in magnitude (the `Numeric(12,2)` column at `models.py:72` overflows) |
| Strategy.BacktestOutcome | backend/strategy.py:104-234 | specification of `run_backtest`: the checks before the record, the record, the loop and the metrics, with what each stage saved (its properties are Strategy.CompletedOutcome, Strategy.FailedOutcome and Strategy.FailureKinds) |
| Strategy.PreRecord | backend/strategy.py:104-127 | the record is committed exactly when the capital formats, the price table is non-empty, both windows are accepted and the capital fits its column; otherwise the first failing check's error, in source order |
| Strategy.PortfolioValues | backend/strategy.py:200 | one value per history row, in order |
| Strategy.CompletedOutcome | backend/strategy.py:118-234 | a completed run had windows below 2^63 and a non-boolean capital that fits its column, and saved its record with status 'completed', both timestamps, the crossover name, the stored trade count, the last value as final value and a consistent total return |
| Strategy.FinishCompleted | backend/strategy.py:188-234 | after the loop, a completed run saves the record it started from with status 'completed', the completion time, the trade count, the last value as final value and a consistent total return |
| Strategy.FinishFlat | backend/strategy.py:200-222 | after a loop without trades the final value is the initial capital and the return, drawdown and Sharpe ratio are all zero |
| Strategy.ZeroTradeRunIsFlat | backend/strategy.py:200-222 | a completed run with no trade stores final value = capital and a zero return, drawdown and Sharpe ratio |
| Strategy.FailedOutcome | backend/strategy.py:104-127 | no record is saved exactly when the capital, the price table or a window is rejected, or the capital's commit fails; a later failure leaves the record 'running' |
| Strategy.FinishSaves | backend/strategy.py:118-186 | once the record is created it is always saved, and a failure after that leaves it as created |
| Strategy.FailureKinds | backend/strategy.py:104-234 | a run raises only the capital format error, "no data", a window error or window overflow, the boolean or overflowing capital's commit error, an IndexError or a ZeroDivisionError |
| Strategy.MovingAverageCrossover.constructor | backend/strategy.py:15-37 | the ticker is upper-cased, the other parameters are kept, and there is no record yet |
| Strategy.MovingAverageCrossover.RunBacktest | backend/strategy.py:104-191 | the result is the run's outcome; the object then holds the record and the committed rows the run saved, and otherwise keeps what it had |
| Routes.Contains | backend/routes.py:85 | `in` is key membership on an object, element membership on a list, substring on a string, and raises otherwise |
| Routes.FirstMissing | backend/routes.py:83-86 | all present exactly when every field is contained; otherwise the first field not contained, with all before it present |
| Routes.CheckRequired | backend/routes.py:83-86 | the loop over the required fields returns the first missing one |
| Routes.GetOr | backend/routes.py:92-94 | `dict.get` gives the value when the key is present, the default otherwise |
| Routes.ValidateRun | backend/routes.py:80-109 | a missing field gives its 400 message; acceptance means all fields present, the ticker upper-cased, the defaults applied, both dates parsed, start before end and short < long; and any body meeting those conditions is accepted with exactly those parameters |
| Routes.MissingFieldOrder | backend/routes.py:83-86 | the fields are checked in the order ticker, start date, end date |
| Routes.DateAndWindowChecks | backend/routes.py:97-109 | an unparseable date gives the format message; start not before end gives the order message; the window message comes only after both date checks pass |
| Routes.TradeIds | backend/strategy.py:186 | the commit keeps every trade row and gives row i the id `first + i` |
| Routes.HistoryIds | backend/strategy.py:186 | the commit keeps every portfolio-history row and gives row i the id `first + i` |
| Routes.Persist | backend/strategy.py:126-186 | the record is stored once created, and the trade and history rows, with their assigned ids, only when the loop finished |
| Routes.RunRequest | backend/routes.py:65-136 | specification of the run route: validation, the back-test, the 201/400/500 answer and what is committed (its properties are Routes.RunRequestStatus, Routes.RunThenGet and Routes.RunRowIds) |
| Routes.HandleRun | backend/routes.py:65-136 | the handler returns exactly the specified response and database, `RunRequest` |
| Routes.RunRequestStatus | backend/routes.py:126-134 | 400 exactly for a refused request, leaving the database alone; 201 only with the completed record; otherwise a 500 with an error body |
| Routes.GetBacktest | backend/routes.py:38-62 | 404 `Backtest not found` exactly for an unknown id; otherwise 200 with the record, its trades and its history |
| Routes.DeleteBacktest | backend/routes.py:139-154 | 404 `Backtest not found` exactly for an unknown id, with the database unchanged; otherwise 200, with the record, its trades and its history gone, and every other record, trade list and history kept |
| Routes.StoredRowIds | backend/routes.py:49-58 | GET of a run whose rows were committed lists all its trades, and every trade and history entry with its assigned id |
| Routes.RunRowIds | backend/routes.py:38-60 | after a completed run, GET of its id lists as many trades as the record counts, with consecutive trade and history ids from the first assigned ones |
| Routes.DeleteThenGet | backend/routes.py:139-152 | after a delete, GET and DELETE of that id answer 404 and every other id answers as before |
| Routes.RunThenGet | backend/routes.py:38-60 | after a completed run, GET of its id answers 200 with the same record dict |
| TradeTimeline.CardFor | frontend/src/components/TradeTimeline.js:27-110 | green exactly for BUY, red otherwise; a price row exactly with a price, a shares row exactly with shares, a capital row exactly with a positive capital |
| TradeTimeline.Cards | frontend/src/components/TradeTimeline.js:27 | one card per trade, in order |
| TradeTimeline.Render | frontend/src/components/TradeTimeline.js:3-10 | the empty state exactly for a missing or empty list, the cards otherwise |
| PerformanceChart.ChartData | frontend/src/components/PerformanceChart.js:17-21 | one point per history entry, in order, with its date, value and price |
| PerformanceChart.MarkerFor | frontend/src/components/PerformanceChart.js:110-121 | the marker sits at the trade's date and is captioned with its type; green exactly for BUY, red otherwise; the caption colour is the stroke colour |
| PerformanceChart.Markers | frontend/src/components/PerformanceChart.js:109-122 | one marker per trade, in order |
| PerformanceChart.MarkersPerDate | frontend/src/components/PerformanceChart.js:109-122 | each date carries as many markers as trades on it (no merging) |
| PerformanceChart.Chart.constructor | frontend/src/components/PerformanceChart.js:6-8 | no data, no trades, loading |
| PerformanceChart.Chart.Mount | frontend/src/components/PerformanceChart.js:32-35 | a fetch is requested exactly for a truthy id; the state is untouched, so a falsy id stays loading |
| PerformanceChart.Chart.Resolve | frontend/src/components/PerformanceChart.js:12-29 | loading ends; on success the projected history and the trades are set, on failure both are kept |
| PerformanceChart.Chart.View | frontend/src/components/PerformanceChart.js:37-43 | "Loading chart..." exactly while loading, nothing exactly for empty data afterwards, otherwise the chart with one marker per trade |
| ResultsDisplay.FormatPercent | frontend/src/components/ResultsDisplay.js:41-43 | a trailing '%'; a leading '+' before the fixed text for values >= 0 (zero included), the bare fixed text otherwise |
| ResultsDisplay.PlusSignExactlyForNonNegative | frontend/src/components/ResultsDisplay.js:42 | the '+' appears exactly for non-negative values |
| ResultsDisplay.ReturnColor | frontend/src/components/ResultsDisplay.js:45-47 | green exactly for values >= 0, red exactly for negative ones |
| ResultsDisplay.Profit | frontend/src/components/ResultsDisplay.js:49 | final value minus initial capital, with null read as 0 |
| ResultsDisplay.WinRate | frontend/src/components/ResultsDisplay.js:282 | '100%' exactly for a positive profit, '0%' otherwise (zero included) |
| ResultsDisplay.SharpeLabel | frontend/src/components/ResultsDisplay.js:153 | Excellent exactly above 1, Good exactly in (0.5, 1], Poor exactly at or below 0.5 |
| ResultsDisplay.ReplaceUnderscores | frontend/src/components/ResultsDisplay.js:246 | same length, each '_' becomes a space, other characters unchanged, no '_' left |
| ResultsDisplay.Render | frontend/src/components/ResultsDisplay.js:28-282 | nothing exactly without a back-test; a TypeError exactly when the return, Sharpe ratio or drawdown is null; else the page with the formatted numbers, and "Loading trades..." exactly while loading |
| ResultsDisplay.SetResultsRender | frontend/src/components/ResultsDisplay.js:104-282 | a back-test dict with all its results, final value and capital set renders the page, with its return formatted and the win rate of its profit |
| ResultsDisplay.Results.constructor | frontend/src/components/ResultsDisplay.js:7-8 | no trades, not loading |
| ResultsDisplay.Results.StartFetch | frontend/src/components/ResultsDisplay.js:12-14 | a fetch of the id exactly when the back-test and its id are truthy, and then loading starts |
| ResultsDisplay.Results.FinishFetch | frontend/src/components/ResultsDisplay.js:15-22 | loading ends; on success the trades are replaced, on failure they are kept |
| BacktestForm.ParseFloat | frontend/src/components/BacktestForm.js:34 | `parseFloat` of the capital field: a number stays itself, text goes through the parser parameter (NaN is None) |
| BacktestForm.ParseInt | frontend/src/components/BacktestForm.js:35-36 | `parseInt` of a window field: a number truncates toward zero, text goes through the parser parameter (NaN is None) |
| BacktestForm.TruncToZero | frontend/src/components/BacktestForm.js:35-36 | truncation toward zero: within one unit of the number, on the side of zero |
| BacktestForm.RequestBody | frontend/src/components/BacktestForm.js:30-37 | exactly the six fields; the ticker upper-cased, the date strings unchanged, the capital parsed as a float and the windows as integers |
| BacktestForm.ErrorText | frontend/src/components/BacktestForm.js:43 | the server's error when it is truthy, else 'Failed to run backtest'; always truthy, so the error box shows |
| BacktestForm.Form.constructor | frontend/src/components/BacktestForm.js:5-15 | AAPL, 2024-01-01, 2024-12-01, 10000, 20, 50; not loading, so the button is enabled and reads "Run Backtest"; no error |
| BacktestForm.Form.HandleChange | frontend/src/components/BacktestForm.js:17-22 | only the named field changes, to the typed text |
| BacktestForm.Form.BeginSubmit | frontend/src/components/BacktestForm.js:24-37 | loading starts, so the button (lines 140 and 152) is disabled and reads "Running Backtest..."; the error is cleared, and the posted body is `RequestBody` of the record |
| BacktestForm.Form.FinishSubmit | frontend/src/components/BacktestForm.js:39-46 | loading ends, so the button is enabled again and reads "Run Backtest"; success delivers the response data, failure sets the error text |
| BacktestForm.Form.ButtonCaption | frontend/src/components/BacktestForm.js:152 | "Running Backtest..." exactly while loading, "Run Backtest" exactly otherwise |
| Pipeline.ZeroTradeRunCrashesResults | backend/models.py:96-99 | as written, a completed run with no trade serialises null results, and the results page throws a TypeError |
| Pipeline.FlatPricesCompleteWithoutTrades | backend/strategy.py:104-184 | a flat price series with capital 10000 and windows 1 and 2 completes with no trade |
| Pipeline.FlatRunFinishesWithoutTrades | backend/strategy.py:84-184 | on that series the two surviving rows never cross, so the loop and the metrics complete with no trade |
| Pipeline.CompletedRunRenders | frontend/src/components/ResultsDisplay.js:104-282 | with the corrected serialiser every completed run renders, with the stored return formatted, and a win rate of 100% exactly for a positive return |
| Pipeline.CompletedRecordRenders | frontend/src/components/ResultsDisplay.js:104-282 | any record with its four results set renders under the corrected serialiser, showing its own return and a win rate from its own profit |
| Pipeline.ReturnSignIsProfitSign | frontend/src/components/ResultsDisplay.js:282 | for a positive stake the total return is positive exactly when the profit is |
| Pipeline.RunResponseRenders | backend/routes.py:126-129 | with the corrected serialiser, the 201 answer of a run always renders on the results page |
| Pipeline.EngineTradesOnTimeline | backend/models.py:129-131 | an engine BUY serialises with null capital and shows no capital row; a SELL with null shares and shows its proceeds |
| Pipeline.FormBodyValidation | backend/routes.py:83-109 | a form body is never missing a field; with valid ordered dates it fails exactly when a window did not parse, and it is accepted exactly when short < long |
| Pipeline.InitialFormIsAccepted | frontend/src/components/BacktestForm.js:5-12 | the initial form's body is accepted with exactly its own parameters |
| Pipeline.RunErrorsHaveText | backend/routes.py:134 | every error a run raises has a non-empty message |
| Errors.Message | backend/routes.py:134 | the `str(e)` text of each run error, as the Python, pandas and psycopg2 exceptions give it (its property is Errors.MessageNonEmpty) |
| Errors.MessageNonEmpty | backend/routes.py:134 | every run error's `str(e)` is non-empty, given a non-empty format message |
| Pipeline.ErrorData | backend/routes.py:134 | an error answer's JSON is the `{"error": ...}` object; Flask's page is text |
| Pipeline.FailedRunShowsError | frontend/src/components/BacktestForm.js:43 | a run that does not complete shows the route's own error text; only Flask's error page shows the fallback |
| Pipeline.RejectionsHaveText | backend/routes.py:83-109 | every 400 response of the request validation carries a non-empty error message |
| Pipeline.ErrorTextOfMessage | frontend/src/components/BacktestForm.js:43 | a response body with a non-empty `error` string shows exactly that string |

## Left out

- Fetching prices from Yahoo Finance and storing `stock_prices` rows (`fetch_and_store_data`). This is network and database I/O. The downloaded table is a parameter, and only its "No data found" error is kept.
- SQLAlchemy sessions, commits, `ORDER BY` and the rollback. The database is a value. A run's rows are committed when its loop finishes. The history is read back in insertion order, which is date order. GET's trades query at `routes.py:49` has no `ORDER BY`, so PostgreSQL may return the trades in any order; the model returns them in insertion order.
- Routes.Persist: the ids come from the start values `firstTradeId` and `firstHistoryId` and are consecutive from there, as a PostgreSQL sequence gives them when no other session inserts at the same time. Gaps from concurrent inserts are not modelled.
- Routes.GetBacktest and Routes.DeleteBacktest take any integer id. Flask's `<int:backtest_id>` converter matches no negative id, so such a request gets Flask's HTML 404 page rather than `{"error": "Backtest not found"}`. That page is not modelled.
- Numeric column precision. Stored values are exact. Only the overflow of `initial_capital` in the first commit is modelled (Strategy.CapitalColumnError). The overflow of the later commits (`final_value` as `Numeric(12,2)`, the `Numeric(8,4)` ratios, trade and history prices) is not.
- Strategy.CapitalColumnError: only the start of the SQLAlchemy error text (the psycopg2 class and its first line) is modelled. The statement and parameters SQLAlchemy appends are left out.
- The ISO date string that PostgreSQL coerces into the date columns. The model stores the parsed date.
- `Stock.to_dict` and the list endpoints (`/health`, `/stocks`, `/backtests`). They are outside the modelled core.
- The buy-and-hold return. It is only printed; its ZeroDivisionError on a zero first close is kept.
- `print` output and `console` logging.
- Metrics.SharpeRatio: the mean-over-deviation times the square root of 252 is the parameter `ratio`. Only the zero fallback is modelled.
- Metrics.SafeDiv: numpy's zero-divisor results (inf, NaN and a RuntimeWarning) in the drawdown and in `pct_change` are modelled as 0. Positive capital and prices never reach them.
- The pandas and numpy floating-point rounding of the rolling mean. The mean is an exact mean over reals.
- `strptime` leniency. The parser is a parameter from text to an optional date.
- `toFixed`, `Intl.NumberFormat`, and `parseFloat`/`parseInt` on text are parameters.
- BacktestForm.ParseInt models `parseInt` of a number as truncation toward zero. It does not model JavaScript's exponent notation for very large or very small numbers.
- Text.Upper maps ASCII letters only. Unicode case mapping is not modelled.
- JsonValue.PyGe treats comparisons between lists as TypeError. It does not model Python's element-wise list comparison.
- Strategy.WindowValue: a string window reaches pandas when both windows are strings (Python compares them at `routes.py:108`). pandas reads an offset string such as "5D" as a time-based window over the date index, which runs with `min_periods=1`, and rejects other strings with a message of its own. Time-based windows are not modelled: every string window is the integer-window ValueError here. The text of the 64-bit overflow depends on the pandas and numpy versions; the model uses Python's "Python int too large to convert to C long".
- Strategy.CapitalValue: the overflow bound is the one for correctly rounded int-to-float conversion; a float capital is always finite here, so the `inf` and `nan` that Python's JSON decoder also accepts are not modelled.
- Pipeline.RunResponseRenders: holds for the corrected serialiser that Routes.RunRequest uses. With the as-written `to_dict` at `routes.py:128`, the 201 answer of a run with no trade crashes the results page (see Findings and Pipeline.ZeroTradeRunCrashesResults).
- A request body that is not JSON (Flask's 415 or 400) is not modelled. Neither are an exception raised before the handler's `try` and Flask's HTML error page beyond its being a 500.
- Routes.RunRequest, Routes.HandleRun and Routes.GetBacktest serialise records with the corrected `Models.BacktestToDictNullOnly` rather than the as-written `Models.BacktestToDict`. See Findings.
- `ServerErrorPage`'s HTML and the JSON encoding of the success bodies are not modelled.
- Axios, the asynchronous effect timing and races between overlapping fetches. These are concurrency.
- All JSX layout, styles, hover handlers, recharts and the tooltip.
- `frontend/src/App.js`, which only stores the response's back-test.

## Findings

| source | as written | input that shows it | evidently intended | confidence | as-written member | corrected member |
|---|---|---|---|---|---|---|
| backend/models.py:96-99 | `float(x) if x else None` turns a stored 0 return, drawdown or Sharpe ratio into null. `ResultsDisplay.js` then calls `toFixed` on null at lines 107, 150 and 173 and throws. | A run whose averages never cross upward, e.g. three days at 100.0 with windows 1 and 2: it completes with no trade, a zero return, a zero drawdown and a zero Sharpe ratio. | Null only for a null column (`is not None`), so a zero result shows as +0.00% and 0.00. | not executed | Pipeline.ZeroTradeRunCrashesResults | Pipeline.CompletedRunRenders |
