/**
 * The "My Portfolio" section of the share dashboard
 * (my-new-project/components/ShareDashboard.js): the holdings fetched once for
 * the user's number, a per-symbol expanded flag, one chart period shared by all
 * holdings, and the chart series each expanded holding draws.
 */
module Portfolio {
  import opened Wrappers
  import opened Backend
  import opened Numbers

  datatype PricePoint = PricePoint(time: string, price: real)

  /** `ShowMore.Graph` of a holding: its price history at three resolutions. */
  datatype Graph = Graph(daily: seq<PricePoint>, weekly: seq<PricePoint>, monthly: seq<PricePoint>)

  /** A holding as the charts and toggles use it; its other fields are only displayed. */
  datatype Holding = Holding(symbol: string, name: string, graph: Graph)

  /** The body of a `/portfolio` answer; `portfolio` may be missing. */
  datatype PortfolioBody = PortfolioBody(portfolio: Option<seq<Holding>>)

  /** A chart label: the day of the month of a timestamp (`formatDate`), or plain text. */
  datatype Label = DayOfMonth(time: string) | Caption(text: string)

  /** What `LineChart` is given: the labels and the data of each dataset. */
  datatype Chart = Chart(labels: seq<Label>, datasets: seq<seq<real>>)

  /** The series a period draws: Daily for "day", Weekly for "week", Monthly for "month", none otherwise. */
  function SeriesFor(g: Graph, period: string): Option<seq<PricePoint>> {
    if period == "day" then Some(g.daily)
    else if period == "week" then Some(g.weekly)
    else if period == "month" then Some(g.monthly)
    else None
  }

  /** `Week ${index + 1}` */
  function WeekLabel(index: nat): string {
    "Week " + NatToString(index + 1)
  }

  function Prices(series: seq<PricePoint>): (r: seq<real>)
    ensures |r| == |series| && forall i :: 0 <= i < |series| ==> r[i] == series[i].price
  {
    seq(|series|, i requires 0 <= i < |series| => series[i].price)
  }

  /** The chart of `renderPortfolioItem` for holding `h` under the selected `period`. */
  function ChartFor(h: Holding, period: string): (c: Chart)
    ensures SeriesFor(h.graph, period).None? ==> c == Chart([], [])
    ensures SeriesFor(h.graph, period).Some? ==>
      var series := SeriesFor(h.graph, period).value;
      |c.labels| == |series| && c.datasets == [Prices(series)]
    ensures period == "week" ==> forall i :: 0 <= i < |c.labels| ==> c.labels[i] == Caption(WeekLabel(i))
    ensures period == "day" || period == "month" ==>
      forall i :: 0 <= i < |c.labels| ==> c.labels[i] == DayOfMonth(SeriesFor(h.graph, period).value[i].time)
  {
    match SeriesFor(h.graph, period)
    case None => Chart([], [])
    case Some(series) =>
      var labels :=
        if period == "week" then seq(|series|, i requires 0 <= i < |series| => Caption(WeekLabel(i)))
        else seq(|series|, i requires 0 <= i < |series| => DayOfMonth(series[i].time));
      Chart(labels, [Prices(series)])
  }

  /** The weekly labels "Week 1", "Week 2", ... are all different from one another. */
  lemma WeekLabelsDistinct(h: Holding)
    ensures var labels := ChartFor(h, "week").labels;
      forall i, j :: 0 <= i < j < |labels| ==> labels[i] != labels[j]
  {
    var labels := ChartFor(h, "week").labels;
    forall i, j | 0 <= i < j < |labels|
      ensures labels[i] != labels[j]
    {
      if WeekLabel(i) == WeekLabel(j) {
        assert WeekLabel(i)[5..] == NatToString(i + 1);
        assert WeekLabel(j)[5..] == NatToString(j + 1);
        NatToStringInjective(i + 1, j + 1);
      }
    }
  }

  /** `!!expanded[symbol]`: a symbol never toggled reads as collapsed. */
  predicate IsOn(expanded: map<string, bool>, symbol: string) {
    symbol in expanded && expanded[symbol]
  }

  /** `{ ...prev, [symbol]: !prev[symbol] }` */
  function ToggledExpanded(expanded: map<string, bool>, symbol: string): (r: map<string, bool>)
    ensures symbol in r && IsOn(r, symbol) == !IsOn(expanded, symbol)
    ensures forall k :: k != symbol ==> (k in r <==> k in expanded)
    ensures forall k :: k != symbol && k in expanded ==> r[k] == expanded[k]
  {
    expanded[symbol := !IsOn(expanded, symbol)]
  }

  /**
   * Toggling a symbol twice gives every symbol back its expanded-or-not status,
   * and gives back the very same map once the symbol has been toggled before.
   */
  lemma ToggleTwice(expanded: map<string, bool>, symbol: string)
    ensures forall k :: IsOn(ToggledExpanded(ToggledExpanded(expanded, symbol), symbol), k) == IsOn(expanded, k)
    ensures symbol in expanded ==> ToggledExpanded(ToggledExpanded(expanded, symbol), symbol) == expanded
  {
  }

  /** The holdings after the fetch: `data.portfolio || []`, or unchanged when the fetch throws. */
  function AfterFetch(current: seq<Holding>, response: Response<PortfolioBody>): (r: seq<Holding>)
    ensures response.Ok? && response.data.portfolio.Some? ==> r == response.data.portfolio.value
    ensures response.Ok? && response.data.portfolio.None? ==> r == []
    ensures response.Rejected? ==> r == []
    ensures response.Unreachable? ==> r == current
  {
    match response
    case Ok(body) => body.portfolio.GetOr([])
    // The status is not checked: a failure body has no `portfolio` field.
    case Rejected(_) => []
    case Unreachable => current
  }

  class MyPortfolio {
    const myNumber: string
    var portfolio: seq<Holding>
    var loading: bool
    var expanded: map<string, bool>
    var selectedPeriod: string

    constructor (myNumber: string)
      ensures this.myNumber == myNumber
      ensures portfolio == [] && loading && expanded == map[] && selectedPeriod == "day"
    {
      this.myNumber := myNumber;
      portfolio := [];
      loading := true;
      expanded := map[];
      selectedPeriod := "day";
    }

    /** Whether the card of `symbol` shows its details and chart. */
    predicate IsExpanded(symbol: string)
      reads this
    {
      IsOn(expanded, symbol)
    }

    /** The effect that posts `/portfolio` for `myNumber`; loading ends whatever the answer. */
    method FetchPortfolio(response: Response<PortfolioBody>)
      modifies this
      ensures portfolio == AfterFetch(old(portfolio), response) && !loading
      ensures expanded == old(expanded) && selectedPeriod == old(selectedPeriod)
    {
      match response {
        case Ok(body) => portfolio := body.portfolio.GetOr([]);
        case Rejected(_) => portfolio := [];
        case Unreachable =>
      }
      loading := false;
    }

    method ToggleExpand(symbol: string)
      modifies this
      ensures expanded == ToggledExpanded(old(expanded), symbol)
      ensures portfolio == old(portfolio) && loading == old(loading) && selectedPeriod == old(selectedPeriod)
    {
      expanded := expanded[symbol := !IsOn(expanded, symbol)];
    }

    /** One period for every holding: the symbol the button belongs to is ignored. */
    method HandlePeriodChange(period: string, symbol: string)
      modifies this
      ensures selectedPeriod == period
      ensures portfolio == old(portfolio) && loading == old(loading) && expanded == old(expanded)
    {
      selectedPeriod := period;
    }
  }
}
