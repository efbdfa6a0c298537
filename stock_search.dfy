/** The search panel of src/components/StockSearch.js: symbol suggestions from a
    fixed table, the outcome of a daily-series search, the dates the chart plots
    and the candidate it hands to the watchlist.

    The market-data request is abstract: starting a search records the symbol,
    and its settling is a separate event whose outcome is a parameter. */
module StockSearch {
  import opened Wrappers
  import Watchlist

  // ---------------------------------------------------------------------------
  // Suggestions

  /** `stockSymbolsByType`: suggested symbols per initial letter, listed verbatim. */
  const SymbolsByType: map<char, seq<string>> := map[
    'A' := ["AAPL", "AMGN", "ADBE", "AMD", "AMZN", "AIG", "AXP", "ABT", "ADI", "ANSS"],
    'B' := ["BA", "BAC", "BBY", "BAX", "BMY"],
    'C' := ["CAT", "COST", "CRM", "CSCO", "C", "CME"],
    'D' := ["DHR", "DIS", "DUK", "DOW", "DTE"],
    'E' := ["EBAY", "ED", "EL", "EMN"],
    'F' := ["FB", "FDX", "FIS", "FISV", "FTNT"],
    'G' := ["GE", "GILD", "GLW", "GOOGL", "GS"],
    'H' := ["HD", "HON", "HPE", "HPQ"],
    'I' := ["IBM", "INTC", "INTU", "IP"],
    'J' := ["JNJ", "JPM", "KMB", "KMI"],
    'K' := ["KO", "KHC", "KEYS", "KMX"],
    'L' := ["LMT", "LOW", "LRCX", "LNT"],
    'M' := ["META", "MCD", "MDT", "MSFT", "MU"],
    'N' := ["NKE", "NFLX", "NVDA", "NVS"],
    'O' := ["ORCL", "OMC", "OXY"],
    'P' := ["PEP", "PG", "PYPL", "PM"],
    'Q' := ["QCOM", "QRVO"],
    'R' := ["ROST", "RTN", "RMD"],
    'S' := ["SBUX", "SPG", "SQ", "SYK"],
    'T' := ["T", "TSLA", "TXN", "TGT"],
    'U' := ["UAL", "UNH", "UPS", "USB"],
    'V' := ["V", "VZ", "VLO"],
    'W' := ["WBA", "WDC", "WMT", "WM"],
    'X' := ["XOM", "XRX"],
    'Y' := ["YUM"],
    'Z' := ["ZBH", "ZION", "ZTS"]
  ]

  predicate IsLowerAscii(c: char) {
    'a' <= c <= 'z'
  }

  /** `toUpperCase` on one character, for the ASCII letters. */
  function UpperChar(c: char): char {
    if IsLowerAscii(c) then (c as int - 32) as char else c
  }

  /** `toUpperCase` on a string, character by character. */
  function ToUpper(s: string): (r: string)
    ensures |r| == |s|
    ensures forall i :: 0 <= i < |s| ==> r[i] == UpperChar(s[i])
  {
    if s == [] then [] else [UpperChar(s[0])] + ToUpper(s[1..])
  }

  /** Upper-casing leaves no lower-case letter and changes nothing else; doing it
      twice is doing it once. */
  lemma ToUpperNormalises(s: string)
    ensures forall i :: 0 <= i < |s| ==> !IsLowerAscii(ToUpper(s)[i])
    ensures forall i :: 0 <= i < |s| ==> !IsLowerAscii(s[i]) ==> ToUpper(s)[i] == s[i]
    ensures ToUpper(ToUpper(s)) == ToUpper(s)
  {
  }

  /** The suggestions for an already upper-cased term: the table's list for a
      one-character term, `[]` for a missing key or any other length. */
  function Suggestions(term: string): (r: seq<string>)
    ensures |r| > 0 ==> |term| == 1 && term[0] in SymbolsByType
    ensures |term| == 1 && 'A' <= term[0] <= 'Z' ==> |r| > 0
  {
    if |term| == 1 && 'A' <= term[0] <= 'Z' then TableCoversAlphabet(term[0]); SymbolsByType[term[0]] else
    if |term| == 1 then
      if term[0] in SymbolsByType then SymbolsByType[term[0]] else []
    else []
  }

  /** Every letter from A to Z has a list in the table. */
  lemma TableCoversAlphabet(c: char)
    requires 'A' <= c <= 'Z'
    ensures c in SymbolsByType && |SymbolsByType[c]| > 0
  {
    var letters := "ABCDEFGHIJKLMNOPQRSTUVWXYZ";
    assert letters[c as int - 'A' as int] == c;
  }

  /** Only a single character can give suggestions, and exactly the table's own list. */
  lemma SuggestionsComeFromTable(term: string)
    ensures |term| != 1 ==> Suggestions(term) == []
    ensures |term| == 1 && term[0] !in SymbolsByType ==> Suggestions(term) == []
    ensures |term| == 1 && term[0] in SymbolsByType ==> Suggestions(term) == SymbolsByType[term[0]]
  {
  }

  /** The lists are not filtered by their key: 'J' suggests KMB and KMI. */
  lemma SuggestionsNeedNotShareInitial()
    ensures "KMB" in Suggestions("J") && "KMI" in Suggestions("J")
    ensures "KMB"[0] != 'J'
  {
    assert Suggestions("J") == ["JNJ", "JPM", "KMB", "KMI"];
    assert Suggestions("J")[2] == "KMB" && Suggestions("J")[3] == "KMI";
  }

  /** A lower-case letter suggests what its capital does, since the term is upper-cased first. */
  lemma LowerCaseLetterSuggestsAsCapital(c: char)
    requires IsLowerAscii(c)
    ensures Suggestions(ToUpper([c])) == SymbolsByType[UpperChar(c)]
  {
    TableCoversAlphabet(UpperChar(c));
  }

  // ---------------------------------------------------------------------------
  // The daily series

  /** One day of the series; only the parsed '4. close' field is used. */
  datatype Bar = Bar(close: Watchlist.Price)

  /** A JavaScript object from dates to bars: its keys in `Object.keys` order,
      and the value of each key. */
  datatype RawSeries = RawSeries(dates: seq<string>, bars: map<string, Bar>)
  {
    ghost predicate WellFormed() {
      && (forall i, j :: 0 <= i < j < |dates| ==> dates[i] != dates[j])
      && (forall i :: 0 <= i < |dates| ==> dates[i] in bars)
      && (forall d :: d in bars ==> d in dates)
    }
  }

  /** The `Time Series (Daily)` object: distinct keys, exactly those of the map. */
  type Series = s: RawSeries | s.WellFormed() witness RawSeries([], map[])

  /** How a search request settled: it threw (the fetch failed, the status was
      not ok, or the body was not JSON), or a body came back, with or without a
      `Time Series (Daily)` field. */
  datatype SearchReply = Failed | Body(series: Option<Series>)

  const NoDataError := "No data found for the entered symbol"
  const FetchError := "An error occurred while fetching stock data"

  // ---------------------------------------------------------------------------
  // The chart

  function Take<T>(s: seq<T>, n: nat): (r: seq<T>)
    ensures |r| == if |s| < n then |s| else n
    ensures forall i :: 0 <= i < |r| ==> r[i] == s[i]
  {
    if |s| <= n then s else s[..n]
  }

  function Reverse<T>(s: seq<T>): seq<T> {
    if s == [] then [] else Reverse(s[1..]) + [s[0]]
  }

  lemma {:induction false} ReverseAt<T>(s: seq<T>)
    ensures |Reverse(s)| == |s|
    ensures forall k :: 0 <= k < |s| ==> Reverse(s)[k] == s[|s| - 1 - k]
  {
    if s != [] {
      ReverseAt(s[1..]);
    }
  }

  /** The labels and the closing prices that `prepareChartData` gives the chart. */
  datatype Chart = Chart(labels: seq<string>, prices: seq<Watchlist.Price>)

  /** The dates the chart plots: the first thirty keys, reversed. */
  function ChartDates(data: Series): (dates: seq<string>)
    ensures |dates| == if |data.dates| < 30 then |data.dates| else 30
    ensures forall k :: 0 <= k < |dates| ==> dates[k] == data.dates[|dates| - 1 - k]
  {
    ReverseAt(Take(data.dates, 30));
    Reverse(Take(data.dates, 30))
  }

  /** `prepareChartData`: nothing without data, else the chosen dates and each one's close. */
  function PrepareChart(data: Option<Series>): (chart: Option<Chart>)
    ensures chart.Some? <==> data.Some?
  {
    match data
    case None => None
    case Some(s) =>
      var dates := ChartDates(s);
      assert forall i :: 0 <= i < |dates| ==> dates[i] in s.bars by { ChartDatesAreKeys(s); }
      Some(Chart(dates, seq(|dates|, i requires 0 <= i < |dates| => s.bars[dates[i]].close)))
  }

  lemma ChartDatesAreKeys(s: Series)
    ensures forall i :: 0 <= i < |ChartDates(s)| ==> ChartDates(s)[i] in s.bars
  {
    ReverseAt(Take(s.dates, 30));
  }

  /** The chart plots exactly min(30, n) dates: the first ones of the series, in
      reverse order, each with its own closing price. */
  lemma ChartShowsFirstThirtyReversed(s: Series)
    ensures var chart := PrepareChart(Some(s)).value;
      var m := if |s.dates| < 30 then |s.dates| else 30;
      && |chart.labels| == m && |chart.prices| == m
      && (forall k :: 0 <= k < m ==> chart.labels[k] == s.dates[m - 1 - k])
      && (forall k :: 0 <= k < m ==> chart.prices[k] == s.bars[s.dates[m - 1 - k]].close)
  {
    ReverseAt(Take(s.dates, 30));
  }

  // ---------------------------------------------------------------------------
  // The component state

  /** The state of `StockSearch` and the symbols it has requested. */
  class SearchPanel {
    var searchTerm: string
    var stockData: Option<Series>
    var error: string
    var loading: bool
    var suggestions: seq<string>
    var requested: seq<string>
    var searchesInFlight: nat

    /** Loaded data is never an empty series. */
    ghost predicate Valid()
      reads this
    {
      stockData.Some? ==> |stockData.value.dates| > 0
    }

    constructor ()
      ensures Valid()
      ensures searchTerm == "" && stockData == None && error == "" && !loading
      ensures suggestions == [] && requested == [] && searchesInFlight == 0
    {
      searchTerm := "";
      stockData := None;
      error := "";
      loading := false;
      suggestions := [];
      requested := [];
      searchesInFlight := 0;
    }

    /** `handleInputChange`: the stored term is the upper-cased input, and the
      suggestions are those of that term. */
    method InputChange(value: string)
      requires Valid()
      modifies this
      ensures Valid()
      ensures searchTerm == ToUpper(value) && suggestions == Suggestions(ToUpper(value))
      ensures stockData == old(stockData) && error == old(error) && loading == old(loading)
      ensures requested == old(requested) && searchesInFlight == old(searchesInFlight)
    {
      var term := ToUpper(value);
      searchTerm := term;
      suggestions := Suggestions(term);
    }

    /** `handleSearch(symbol)` up to its request. */
    method Search(symbol: string)
      requires Valid()
      modifies this
      ensures Valid()
      ensures error == "" && loading && suggestions == []
      ensures requested == old(requested) + [symbol] && searchesInFlight == old(searchesInFlight) + 1
      ensures searchTerm == old(searchTerm) && stockData == old(stockData)
    {
      error := "";
      loading := true;
      suggestions := [];
      requested := requested + [symbol];
      searchesInFlight := searchesInFlight + 1;
    }

    /** `handleSuggestionClick(symbol)`: take the suggestion as the term and search it. */
    method SuggestionClick(symbol: string)
      requires Valid()
      modifies this
      ensures Valid()
      ensures searchTerm == symbol && error == "" && loading && suggestions == []
      ensures requested == old(requested) + [symbol] && searchesInFlight == old(searchesInFlight) + 1
      ensures stockData == old(stockData)
    {
      searchTerm := symbol;
      Search(symbol);
    }

    /** The rest of `handleSearch` once a request settles. */
    method SearchSettled(reply: SearchReply)
      requires Valid() && searchesInFlight > 0
      modifies this
      ensures Valid()
      ensures !loading && searchesInFlight == old(searchesInFlight) - 1
      ensures HasData(reply) ==> stockData == Some(reply.series.value) && error == ""
      ensures reply.Body? && !HasData(reply) ==> stockData == None && error == NoDataError
      ensures reply.Failed? ==> stockData == old(stockData) && error == FetchError
      ensures searchTerm == old(searchTerm) && suggestions == old(suggestions) && requested == old(requested)
    {
      searchesInFlight := searchesInFlight - 1;
      if reply.Failed? {
        error := FetchError;
      } else if reply.series.Some? && |reply.series.value.dates| > 0 {
        stockData := reply.series;
        error := "";
      } else {
        error := NoDataError;
        stockData := None;
      }
      loading := false;
    }

    /** `prepareChartData` on the current data. */
    function ChartData(): (chart: Option<Chart>)
      reads this
      ensures chart.Some? <==> stockData.Some?
    {
      PrepareChart(stockData)
    }

    /** `handleAddToWatchlist`: with data loaded, add the current term at the
      close of the first date; without data, do nothing. */
    method AddToWatchlist(wl: Watchlist.WatchlistProvider)
      requires Valid() && Watchlist.Valid(wl.Model())
      modifies wl
      ensures Watchlist.Valid(wl.Model())
      ensures stockData.Some? ==>
        wl.Model() == Watchlist.Added(old(wl.Model()), Candidate(searchTerm, stockData.value))
      ensures stockData.None? ==> wl.Model() == old(wl.Model())
    {
      if stockData.Some? {
        var data := stockData.value;
        wl.Add(Candidate(searchTerm, data));
      }
    }
  }

  /** A reply carries data exactly when the series is present and has a key. */
  predicate HasData(reply: SearchReply)
    ensures HasData(reply) ==> reply.Body? && PrepareChart(reply.series).Some? && |PrepareChart(reply.series).value.labels| > 0
    ensures !reply.Body? ==> !HasData(reply)
  {
    reply.Body? && reply.series.Some? && |reply.series.value.dates| > 0
  }

  /** The watchlist candidate: the term and the close of the series' first date. */
  function Candidate(term: string, data: Series): (stock: Watchlist.Stock)
    requires |data.dates| > 0
    ensures stock.symbol == term && stock.price == data.bars[data.dates[0]].close
    ensures stock.price == PrepareChart(Some(data)).value.prices[|ChartDates(data)| - 1]
  {
    ChartShowsFirstThirtyReversed(data);
    Watchlist.Stock(term, data.bars[data.dates[0]].close)
  }
}
