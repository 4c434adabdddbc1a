/** The period statistics screen (src/components/Dashboard/Statistiques.jsx):
    a date range and a grouping select the series fetched with the session
    token, and four totals sum the series. */
module Statistiques {
  import opened Remote
  import opened Browser

  /** One point of a series: the new entities of the period labelled `date`. */
  datatype Point = Point(date: string, newUsers: int, newGarages: int, newServiceRequests: int, newChecklists: int)

  /** The four summed series. */
  datatype Series = NewUsers | NewGarages | NewServiceRequests | NewChecklists

  function Value(p: Point, s: Series): int
  {
    match s
    case NewUsers => p.newUsers
    case NewGarages => p.newGarages
    case NewServiceRequests => p.newServiceRequests
    case NewChecklists => p.newChecklists
  }

  /** `data.reduce((sum, item) => sum + item.<series>, 0)`, left to right. */
  function Total(data: seq<Point>, s: Series): int
  {
    if data == [] then 0 else Total(data[..|data| - 1], s) + Value(data[|data| - 1], s)
  }

  /** Totals add up over consecutive parts of the data; with no data a total
      is 0. */
  lemma {:induction false} TotalAppend(a: seq<Point>, b: seq<Point>, s: Series)
    ensures Total(a + b, s) == Total(a, s) + Total(b, s)
    ensures Total([], s) == 0
  {
    if b != [] {
      assert (a + b)[..|a + b| - 1] == a + b[..|b| - 1];
      TotalAppend(a, b[..|b| - 1], s);
    } else {
      assert a + b == a;
    }
  }

  /** For series of counts (never negative), a total is at least any one
      period's value, and is never negative. */
  lemma {:induction false} TotalBoundsEachPoint(data: seq<Point>, s: Series, i: nat)
    requires i < |data|
    requires forall j :: 0 <= j < |data| ==> Value(data[j], s) >= 0
    ensures Total(data, s) >= Value(data[i], s) >= 0
  {
    var prefix := data[..|data| - 1];
    assert forall j :: 0 <= j < |prefix| ==> prefix[j] == data[j];
    if i < |data| - 1 {
      TotalBoundsEachPoint(prefix, s, i);
    } else if prefix != [] {
      TotalBoundsEachPoint(prefix, s, 0);
    }
  }

  /** The query of `/admin/stats/period`. */
  datatype Params = Params(startDate: string, endDate: string, groupBy: string)

  const TokenMissingText := "Token non trouvé"
  const FetchErrorFallback := "Erreur lors du chargement des données"

  /** `err.response?.data?.msg || err.message || '…'`: the server's message
      first, then the exception's, then the fixed text. */
  function FetchErrorText(e: RequestError): (r: string)
    ensures Truthy(e.msg) ==> r == e.msg.value
    ensures !Truthy(e.msg) && Truthy(e.exceptionMessage) ==> r == e.exceptionMessage.value
    ensures !Truthy(e.msg) && !Truthy(e.exceptionMessage) ==> r == FetchErrorFallback
  {
    Or(OrElse(e.msg, e.exceptionMessage), FetchErrorFallback)
  }

  /** The thrown `Error('Token non trouvé')` has no response, so its own
      message is what the screen shows. */
  lemma TokenErrorShowsItsMessage()
    ensures FetchErrorText(RequestError(None, None, Some(TokenMissingText))) == TokenMissingText
  {
  }

  class StatisticsPage {
    var data: seq<Point>
    var loading: bool
    var error: Option<string>
    /** The two ends of the range, already formatted as YYYY-MM-DD. */
    var dateRange: seq<string>
    var groupBy: string
    var chartType: string

    ghost predicate Valid()
      reads this
    {
      |dateRange| == 2
    }

    /** The range starts as [a month ago, today]; both dates come from the
        clock and are parameters here. */
    constructor (monthAgo: string, today: string)
      ensures Valid() && data == [] && !loading && error == None
      ensures dateRange == [monthAgo, today] && groupBy == "day" && chartType == "line"
    {
      data, loading, error := [], false, None;
      dateRange := [monthAgo, today];
      groupBy, chartType := "day", "line";
    }

    /** `fetchStatistics`: without a token nothing is requested and the error
        is 'Token non trouvé'; otherwise the range and grouping are sent, and
        the series replaces the data or the error follows the precedence of
        `FetchErrorText`. The error is cleared first and loading ends on
        every path. Returns the query sent, if any. */
    method FetchStatistics(storage: SecureStorage, res: Outcome<seq<Point>>) returns (request: Option<Params>)
      requires Valid()
      modifies this`data, this`loading, this`error
      ensures Valid() && !loading
      ensures !HasToken(storage.items) ==>
        request == None && data == old(data) && error == Some(TokenMissingText)
      ensures HasToken(storage.items) ==> request == Some(Params(dateRange[0], dateRange[1], groupBy))
      ensures HasToken(storage.items) && res.Success? ==> data == res.value && error == None
      ensures HasToken(storage.items) && res.Failure? ==>
        data == old(data) && error == Some(FetchErrorText(res.error))
    {
      loading := true;
      error := None;
      request := None;
      var token := storage.GetItem("token");
      if token.None? || token.value == Text("") {
        error := Some(FetchErrorText(RequestError(None, None, Some(TokenMissingText))));
      } else {
        request := Some(Params(dateRange[0], dateRange[1], groupBy));
        match res {
          case Success(points) =>
            data := points;
          case Failure(e) =>
            error := Some(FetchErrorText(e));
        }
      }
      loading := false;
    }

    /** `handleDateChange`: the range is replaced only by exactly two dates;
        a cleared picker (null) or any other count keeps it. */
    method HandleDateChange(dates: Option<seq<string>>)
      requires Valid()
      modifies this`dateRange
      ensures Valid()
      ensures dates.Some? && |dates.value| == 2 ==> dateRange == dates.value
      ensures !(dates.Some? && |dates.value| == 2) ==> dateRange == old(dateRange)
    {
      if dates.Some? && |dates.value| == 2 {
        dateRange := dates.value;
      }
    }

    /** The grouping and chart selects. */
    method SetGroupBy(g: string)
      modifies this`groupBy
      ensures groupBy == g
    {
      groupBy := g;
    }

    method SetChartType(t: string)
      modifies this`chartType
      ensures chartType == t
    {
      chartType := t;
    }
  }
}
