/** The run form: its field record, the change handler, the submit state
    machine, the request body it posts and the error it shows. Input values
    are strings; `parseFloat`/`parseInt` of a string are parameters (None for
    NaN). */
module BacktestForm {
  import opened Wrappers
  import opened JsonValue
  import Text

  /** A form field's value: the initial numbers, or the text an input produced. */
  datatype FormValue = FStr(s: string) | FNum(n: real)

  const InitialForm: map<string, FormValue> := map[
    "ticker" := FStr("AAPL"),
    "start_date" := FStr("2024-01-01"),
    "end_date" := FStr("2024-12-01"),
    "initial_capital" := FNum(10000.0),
    "short_window" := FNum(20.0),
    "long_window" := FNum(50.0)]

  const FallbackError := "Failed to run backtest"

  /** The record holds all six fields, and the three text fields hold text. */
  predicate WellFormed(form: map<string, FormValue>)
  {
    "ticker" in form && "start_date" in form && "end_date" in form
    && "initial_capital" in form && "short_window" in form && "long_window" in form
    && form["ticker"].FStr? && form["start_date"].FStr? && form["end_date"].FStr?
  }

  /** JavaScript's truncation of a number towards zero. */
  function TruncToZero(x: real): (r: int)
    ensures x >= 0.0 ==> r as real <= x < r as real + 1.0
    ensures x < 0.0 ==> r as real - 1.0 < x <= r as real
  {
    if x >= 0.0 then x.Floor else -((-x).Floor)
  }

  /** `parseFloat(v)`: a number parses as itself. */
  function ParseFloat(v: FormValue, parseFloatText: string -> Option<real>): Option<real>
  {
    match v
    case FNum(n) => Some(n)
    case FStr(s) => parseFloatText(s)
  }

  /** `parseInt(v)`: a number is truncated towards zero. */
  function ParseInt(v: FormValue, parseIntText: string -> Option<int>): Option<real>
  {
    match v
    case FNum(n) => Some(TruncToZero(n) as real)
    case FStr(s) => if parseIntText(s).Some? then Some(parseIntText(s).value as real) else None
  }

  function TextOf(v: FormValue): string
  {
    if v.FStr? then v.s else ""
  }

  /** The JSON body `handleSubmit` posts. */
  function RequestBody(form: map<string, FormValue>, parseFloatText: string -> Option<real>,
                       parseIntText: string -> Option<int>): (body: Json)
    requires WellFormed(form)
    ensures body.JObject? && body.fields.Keys ==
      {"ticker", "start_date", "end_date", "initial_capital", "short_window", "long_window"}
    ensures body.fields["ticker"] == JStr(Text.Upper(form["ticker"].s))
    ensures body.fields["start_date"] == JStr(form["start_date"].s)
    ensures body.fields["end_date"] == JStr(form["end_date"].s)
    ensures body.fields["initial_capital"] == JsNumber(ParseFloat(form["initial_capital"], parseFloatText))
    ensures body.fields["short_window"] == JsNumber(ParseInt(form["short_window"], parseIntText))
    ensures body.fields["long_window"] == JsNumber(ParseInt(form["long_window"], parseIntText))
  {
    JObject(map[
      "ticker" := JStr(Text.Upper(form["ticker"].s)),
      "start_date" := JStr(TextOf(form["start_date"])),
      "end_date" := JStr(TextOf(form["end_date"])),
      "initial_capital" := JsNumber(ParseFloat(form["initial_capital"], parseFloatText)),
      "short_window" := JsNumber(ParseInt(form["short_window"], parseIntText)),
      "long_window" := JsNumber(ParseInt(form["long_window"], parseIntText))])
  }

  /** The response data carries a truthy `error` field. */
  predicate ServerError(data: Option<Json>)
  {
    data.Some? && data.value.JObject? && "error" in data.value.fields
    && JsTruthy(data.value.fields["error"])
  }

  /** `err.response?.data?.error || 'Failed to run backtest'`: the server's
      `error` when it is truthy, the fallback text otherwise. `data` is None
      when there was no response. */
  function ErrorText(data: Option<Json>): (r: Json)
    ensures ServerError(data) ==> r == data.value.fields["error"]
    ensures !ServerError(data) ==> r == JStr(FallbackError)
    ensures JsTruthy(r)
  {
    if ServerError(data)
    then data.value.fields["error"]
    else JStr(FallbackError)
  }

  /** The form component's state. */
  class Form {
    var formData: map<string, FormValue>
    var loading: bool
    var error: Option<Json>

    constructor ()
      ensures formData == InitialForm && !loading && error.None?
      ensures !ButtonDisabled() && ButtonCaption() == "Run Backtest"
    {
      formData := InitialForm;
      loading := false;
      error := None;
    }

    /** `handleChange`: only the named field changes, to the input's text. */
    method HandleChange(name: string, value: string)
      modifies this
      ensures formData == old(formData)[name := FStr(value)]
      ensures loading == old(loading) && error == old(error)
      ensures WellFormed(old(formData)) ==> WellFormed(formData)
    {
      formData := formData[name := FStr(value)];
    }

    /** The synchronous part of `handleSubmit`: loading starts, the error is
        cleared, and the request body is built from the record. */
    method BeginSubmit(parseFloatText: string -> Option<real>, parseIntText: string -> Option<int>)
      returns (body: Json)
      requires WellFormed(formData)
      modifies this
      ensures loading && error.None? && formData == old(formData)
      ensures body == RequestBody(formData, parseFloatText, parseIntText)
      ensures ButtonDisabled() && ButtonCaption() == "Running Backtest..."
    {
      loading := true;
      error := None;
      body := RequestBody(formData, parseFloatText, parseIntText);
    }

    /** The request settles: success hands the response data to the parent,
        failure shows the error text; either way loading ends. */
    method FinishSubmit(outcome: Result<Json, Option<Json>>) returns (delivered: Option<Json>)
      modifies this
      ensures !loading && formData == old(formData)
      ensures !ButtonDisabled() && ButtonCaption() == "Run Backtest"
      ensures outcome.Success? ==> delivered == Some(outcome.value) && error == old(error)
      ensures outcome.Failure? ==> delivered.None? && error == Some(ErrorText(outcome.error))
    {
      if outcome.Success? {
        delivered := Some(outcome.value);
      } else {
        delivered := None;
        error := Some(ErrorText(outcome.error));
      }
      loading := false;
    }

    /** The submit button's `disabled` attribute. */
    function ButtonDisabled(): bool
      reads this
    {
      loading
    }

    /** The submit button's caption follows the loading flag. */
    function ButtonCaption(): (c: string)
      reads this
      ensures c == "Running Backtest..." <==> loading
      ensures c == "Run Backtest" <==> !loading
    {
      if loading then "Running Backtest..." else "Run Backtest"
    }
  }
}
