/** The errors a back-test run can raise, with the messages Python gives them. */
module Errors {
  /** What can go wrong during a run, each with the text `str(e)` gives. */
  datatype RunError =
    | NoData(ticker: string)
    | CapitalFormat(message: string)
    | BadWindow
    | WindowOverflow
    | BooleanCapital
    | CapitalOverflow
    | IndexOutOfRange
    | ZeroDivision

  function Message(e: RunError): string
  {
    match e
    case NoData(t) => "No data found for " + t
    case CapitalFormat(m) => m
    case BadWindow => "window must be an integer 0 or greater"
    case WindowOverflow => "Python int too large to convert to C long"
    case BooleanCapital =>
      DriverText("DatatypeMismatch", "column \"initial_capital\" is of type numeric but expression is of type boolean")
    case CapitalOverflow => DriverText("NumericValueOutOfRange", "numeric field overflow")
    case IndexOutOfRange => "list index out of range"
    case ZeroDivision => "float division by zero"
  }

  /** How SQLAlchemy prints a database driver's error: the psycopg2 class in parentheses, then its text. */
  function DriverText(kind: string, detail: string): (r: string)
    ensures |r| > 0 && r[0] == '('
  {
    "(psycopg2.errors." + kind + ") " + detail
  }

  /** Every error's text is non-empty, given a non-empty format message. */
  lemma MessageNonEmpty(e: RunError)
    requires e.CapitalFormat? ==> e.message != ""
    ensures Message(e) != ""
  {
    match e
    case NoData(t) => assert |Message(e)| > 0;
    case CapitalFormat(m) =>
    case BadWindow => assert |Message(e)| > 0;
    case WindowOverflow => assert |Message(e)| > 0;
    case BooleanCapital =>
    case CapitalOverflow =>
    case IndexOutOfRange => assert |Message(e)| > 0;
    case ZeroDivision => assert |Message(e)| > 0;
  }
}
