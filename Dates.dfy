/** Calendar dates and timestamps, their order, and `isoformat()`. */
module Dates {
  import opened Text

  /** A `datetime.date`. */
  datatype Date = Date(year: nat, month: nat, day: nat)

  /** A `datetime.datetime` (naive, as `datetime.utcnow()` returns it). */
  datatype DateTime = DateTime(date: Date, hour: nat, minute: nat, second: nat, microsecond: nat)

  /** `a < b` on dates: year, then month, then day. */
  predicate Before(a: Date, b: Date)
  {
    a.year < b.year
    || (a.year == b.year && (a.month < b.month || (a.month == b.month && a.day < b.day)))
  }

  /** `date.isoformat()`: `YYYY-MM-DD`. */
  function IsoDate(d: Date): string
  {
    Padded(d.year, 4) + "-" + Padded(d.month, 2) + "-" + Padded(d.day, 2)
  }

  /** `datetime.isoformat()`: `YYYY-MM-DDTHH:MM:SS`, followed by `.ffffff`
      only when the microsecond is not zero. */
  function IsoDateTime(t: DateTime): string
  {
    IsoDate(t.date) + "T" + Padded(t.hour, 2) + ":" + Padded(t.minute, 2) + ":" + Padded(t.second, 2)
    + (if t.microsecond != 0 then "." + Padded(t.microsecond, 6) else "")
  }

  /** `Before` is a strict order: irreflexive and transitive; and any two
      distinct dates are ordered one way or the other. */
  lemma BeforeStrictTotal(a: Date, b: Date, c: Date)
    ensures !Before(a, a)
    ensures Before(a, b) && Before(b, c) ==> Before(a, c)
    ensures a != b ==> Before(a, b) || Before(b, a)
  {
  }
}
