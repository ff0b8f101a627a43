/** The performance chart: the history projected to chart points, one
    reference line per trade, and the fetch/loading state. */
module PerformanceChart {
  import opened Wrappers
  import Models

  const Green := "#10b981"
  const Red := "#ef4444"

  /** One element of `chartData`. */
  datatype ChartPoint = ChartPoint(date: Option<string>, portfolio: Option<real>, stockPrice: Option<real>)

  /** One `ReferenceLine`: its x position, stroke, caption text and caption colour. */
  datatype Marker = Marker(x: Option<string>, stroke: string, caption: string, fill: string)

  datatype ChartView = LoadingChart | Nothing | Chart(points: seq<ChartPoint>, markers: seq<Marker>)

  /** `portfolio_history.map(item => ({date, portfolio, stockPrice}))`. */
  function ChartData(hs: seq<Models.HistoryDict>): (ps: seq<ChartPoint>)
    ensures |ps| == |hs|
    ensures forall k :: 0 <= k < |hs| ==>
      ps[k].date == hs[k].date && ps[k].portfolio == hs[k].portfolioValue && ps[k].stockPrice == hs[k].stockPrice
  {
    if hs == [] then []
    else [ChartPoint(hs[0].date, hs[0].portfolioValue, hs[0].stockPrice)] + ChartData(hs[1..])
  }

  /** The reference line of one trade. */
  function MarkerFor(t: Models.TradeDict): (m: Marker)
    ensures m.x == t.date && m.caption == t.tradeType
    ensures m.stroke == Green <==> t.tradeType == "BUY"
    ensures m.fill == m.stroke
    ensures t.tradeType != "BUY" ==> m.stroke == Red
  {
    var color := if t.tradeType == "BUY" then Green else Red;
    Marker(t.date, color, t.tradeType, color)
  }

  /** `trades.map(...)`: one reference line per trade, in trade order. */
  function Markers(ts: seq<Models.TradeDict>): (ms: seq<Marker>)
    ensures |ms| == |ts|
    ensures forall k :: 0 <= k < |ts| ==> ms[k] == MarkerFor(ts[k])
  {
    if ts == [] then [] else [MarkerFor(ts[0])] + Markers(ts[1..])
  }

  function CountTradesOn(ts: seq<Models.TradeDict>, d: Option<string>): nat
  {
    if ts == [] then 0 else (if ts[0].date == d then 1 else 0) + CountTradesOn(ts[1..], d)
  }

  function CountMarkersAt(ms: seq<Marker>, d: Option<string>): nat
  {
    if ms == [] then 0 else (if ms[0].x == d then 1 else 0) + CountMarkersAt(ms[1..], d)
  }

  /** Trades on the same date are not merged: each date carries as many
      markers as there were trades on it. */
  lemma {:induction false} MarkersPerDate(ts: seq<Models.TradeDict>, d: Option<string>)
    ensures CountMarkersAt(Markers(ts), d) == CountTradesOn(ts, d)
  {
    if ts != [] {
      MarkersPerDate(ts[1..], d);
      assert Markers(ts)[1..] == Markers(ts[1..]);
    }
  }

  /** The component's state. */
  class Chart {
    var chartData: seq<ChartPoint>
    var trades: seq<Models.TradeDict>
    var loading: bool

    /** The initial state: no data, loading. */
    constructor ()
      ensures chartData == [] && trades == [] && loading
    {
      chartData := [];
      trades := [];
      loading := true;
    }

    /** The effect on mount: a fetch of `backtestId` only when it is truthy;
        otherwise nothing happens and the chart keeps loading. */
    method Mount(backtestId: Option<int>) returns (request: Option<int>)
      ensures request.Some? <==> (backtestId.Some? && backtestId.value != 0)
      ensures request.Some? ==> request == backtestId
    {
      if backtestId.Some? && backtestId.value != 0 {
        request := backtestId;
      } else {
        request := None;
      }
    }

    /** The fetch settles: on success (the detail's history and trades) the data
        is set, on failure (None) it is kept; either way loading ends. */
    method Resolve(response: Option<(seq<Models.HistoryDict>, seq<Models.TradeDict>)>)
      modifies this
      ensures !loading
      ensures response.Some? ==> chartData == ChartData(response.value.0) && trades == response.value.1
      ensures response.None? ==> chartData == old(chartData) && trades == old(trades)
    {
      if response.Some? {
        chartData := ChartData(response.value.0);
        trades := response.value.1;
      }
      loading := false;
    }

    /** What the component renders. */
    function View(): (v: ChartView)
      reads this
      ensures v == LoadingChart <==> loading
      ensures v == Nothing <==> !loading && chartData == []
      ensures v.Chart? ==> v.points == chartData && v.markers == Markers(trades) && |v.markers| == |trades|
    {
      if loading then LoadingChart
      else if chartData == [] then Nothing
      else Chart(chartData, Markers(trades))
    }
  }
}
