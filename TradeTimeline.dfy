/** The trade timeline: one card per trade, coloured by its type, with the
    rows its non-null fields allow. `fixed2` stands for `Number.toFixed(2)`. */
module TradeTimeline {
  import opened Wrappers
  import Models

  const Green := "#10b981"
  const Red := "#ef4444"
  const GreenBackground := "#d1fae5"
  const RedBackground := "#fee2e2"

  /** What one trade card shows: its label, date, colours and optional rows. */
  datatype Card = Card(
    title: string, date: Option<string>, color: string, background: string,
    price: Option<string>, shares: Option<string>, capital: Option<string>)

  datatype View = NoTrades | Timeline(cards: seq<Card>)

  /** The card of one trade. */
  function CardFor(t: Models.TradeDict, fixed2: real -> string): (c: Card)
    ensures c.title == t.tradeType && c.date == t.date
    ensures c.color == Green <==> t.tradeType == "BUY"
    ensures c.background == GreenBackground <==> t.tradeType == "BUY"
    ensures t.tradeType != "BUY" ==> c.color == Red && c.background == RedBackground
    ensures c.price.Some? <==> t.price.Some?
    ensures c.price.Some? ==> c.price.value == "$" + fixed2(t.price.value)
    ensures c.shares.Some? <==> t.shares.Some?
    ensures c.shares.Some? ==> c.shares.value == fixed2(t.shares.value)
    ensures c.capital.Some? <==> (t.capital.Some? && t.capital.value > 0.0)
    ensures c.capital.Some? ==> c.capital.value == "$" + fixed2(t.capital.value)
  {
    var isBuy := t.tradeType == "BUY";
    Card(t.tradeType, t.date,
      if isBuy then Green else Red,
      if isBuy then GreenBackground else RedBackground,
      if t.price.Some? then Some("$" + fixed2(t.price.value)) else None,
      if t.shares.Some? then Some(fixed2(t.shares.value)) else None,
      if t.capital.Some? && t.capital.value > 0.0 then Some("$" + fixed2(t.capital.value)) else None)
  }

  /** `trades.map(...)`: one card per trade, in order. */
  function Cards(ts: seq<Models.TradeDict>, fixed2: real -> string): (cs: seq<Card>)
    ensures |cs| == |ts|
    ensures forall k :: 0 <= k < |ts| ==> cs[k] == CardFor(ts[k], fixed2)
  {
    if ts == [] then [] else [CardFor(ts[0], fixed2)] + Cards(ts[1..], fixed2)
  }

  /** The component: the empty state for a missing or empty list, otherwise
      the cards. */
  function Render(trades: Option<seq<Models.TradeDict>>, fixed2: real -> string): (v: View)
    ensures v == NoTrades <==> (trades.None? || trades.value == [])
    ensures v.Timeline? ==> v.cards == Cards(trades.value, fixed2)
  {
    if trades.None? || trades.value == [] then NoTrades else Timeline(Cards(trades.value, fixed2))
  }
}
