/** JSON values as they cross the HTTP boundary, with the coercions that
    Python (the back end) and JavaScript (the front end) apply to them. */
module JsonValue {
  import opened Wrappers
  import Text

  /** A JSON value as Python's `json` module decodes it: integers and
      fractional numbers are distinct (`int` and `float`). */
  datatype Json =
    | JNull
    | JBool(b: bool)
    | JInt(i: int)
    | JFloat(f: real)
    | JStr(s: string)
    | JArray(items: seq<Json>)
    | JObject(fields: map<string, Json>)

  /** The number Python sees in a value: `bool` is a subclass of `int`. */
  function PyNumber(j: Json): (r: Option<real>)
    ensures r.Some? <==> (j.JBool? || j.JInt? || j.JFloat?)
  {
    match j
    case JBool(b) => Some(if b then 1.0 else 0.0)
    case JInt(i) => Some(i as real)
    case JFloat(f) => Some(f)
    case _ => None
  }

  /** Python's `a >= b`: numbers compare numerically, strings lexicographically;
      any other pairing raises TypeError (None). */
  function PyGe(a: Json, b: Json): (r: Option<bool>)
    ensures r.Some? <==> ((PyNumber(a).Some? && PyNumber(b).Some?) || (a.JStr? && b.JStr?))
    ensures PyNumber(a).Some? && PyNumber(b).Some? ==> r == Some(PyNumber(a).value >= PyNumber(b).value)
  {
    if PyNumber(a).Some? && PyNumber(b).Some? then Some(PyNumber(a).value >= PyNumber(b).value)
    else if a.JStr? && b.JStr? then Some(!Text.StrLess(a.s, b.s))
    else None
  }

  /** JavaScript truthiness of a decoded JSON value. */
  predicate JsTruthy(j: Json)
  {
    match j
    case JNull => false
    case JBool(b) => b
    case JInt(i) => i != 0
    case JFloat(f) => f != 0.0
    case JStr(s) => s != ""
    case JArray(_) => true
    case JObject(_) => true
  }

  /** How `JSON.stringify` writes a JavaScript number and Python's `json`
      reads it back: NaN (None) becomes `null`; an integral number below
      1e21 in magnitude is written without a fraction or exponent, so Python
      decodes it as an `int`; any other number is written with a fraction or
      in exponent form (`1e+21`) and decodes as a `float`. Either way it
      arrives with its value. */
  function JsNumber(n: Option<real>): (r: Json)
    ensures n.None? <==> r == JNull
    ensures r.JInt? <==> (n.Some? && n.value.Floor as real == n.value && -1e21 < n.value < 1e21)
    ensures r.JInt? ==> n == Some(r.i as real)
    ensures r.JFloat? ==> n == Some(r.f)
    ensures n.Some? ==> PyNumber(r) == n
  {
    match n
    case None => JNull
    case Some(x) => if x.Floor as real == x && -1e21 < x < 1e21 then JInt(x.Floor) else JFloat(x)
  }
}
