/** The watchlist context of src/components/Watchlist.js: the client's ordered list
    of watched stocks, how it is kept in step with the remote store through two
    requests (fetch the whole list, persist a batch of rows), and the table that
    renders it.

    The network is abstract: a request is recorded when it is sent, and its
    settling is a separate event whose outcome is a parameter. Events happen one
    at a time, in any order the caller chooses. */
module Watchlist {
  import opened Wrappers

  /** A JavaScript number holding a price. The core only moves prices around;
      the view's two-decimal formatting is not modelled. */
  type Price = real

  /** The candidate handed to `addToWatchlist`: an object `{symbol, price}`. */
  datatype Stock = Stock(symbol: string, price: Price)

  /** An object in the store's shape `{symbol, rate}`: what a persist request
      carries and what a fetch returns. */
  datatype Row = Row(symbol: string, rate: Price)

  /** An element of the client's list, in the shape the source stores it: a
      candidate appended optimistically keeps its `{symbol, price}` shape, an
      element of a fetched list has the `{symbol, rate}` shape. */
  datatype Entry = Optimistic(stock: Stock) | Stored(row: Row)
  {
    function Symbol(): string {
      match this
      case Optimistic(s) => s.symbol
      case Stored(r) => r.symbol
    }

    /** The entry's `rate` property, which an optimistic entry lacks. */
    function Rate(): Option<Price> {
      match this
      case Optimistic(_) => None
      case Stored(r) => Some(r.rate)
    }

    /** The price the entry was added or stored with, whichever its shape. */
    function ShownPrice(): Price {
      match this
      case Optimistic(s) => s.price
      case Stored(r) => r.rate
    }
  }

  /** A request the provider sends to the store. */
  datatype Request = FetchAll | Persist(body: seq<Row>)

  /** How a request settled: a 2xx response, another status, or an exception
      (transport failure or a body that is not JSON). */
  datatype Outcome = Ok | NotOk | Threw

  function SavedAlert(symbol: string): string {
    "Successfully added " + symbol + " to the watchlist!"
  }
  const SaveRejectedAlert := "Failed to save to MongoDB. Please try again."
  const SaveErrorAlert := "An error occurred while adding to the watchlist."

  /** Everything the provider holds or has done: the list, the requests sent so
      far, how many fetches are pending and how many have settled, the
      candidates whose persist request has not settled (in the order they were
      added), how many persists have settled, and the alerts shown. */
  datatype State = State(
    watchlist: seq<Entry>,
    requests: seq<Request>,
    fetchesInFlight: nat,
    fetchesSettled: nat,
    persistsInFlight: seq<Stock>,
    persistsSettled: nat,
    alerts: seq<string>)

  /** The number of fetch requests among `rs`. */
  function FetchesSent(rs: seq<Request>): nat {
    if rs == [] then 0
    else FetchesSent(rs[..|rs| - 1]) + (if rs[|rs| - 1] == FetchAll then 1 else 0)
  }

  /** Every request sent is either pending or settled, exactly once, and every
      pending persist belongs to a persist request that was sent. */
  ghost predicate Valid(s: State) {
    && s.fetchesInFlight + s.fetchesSettled == FetchesSent(s.requests)
    && |s.persistsInFlight| + s.persistsSettled == |s.requests| - FetchesSent(s.requests)
    && forall j :: 0 <= j < |s.persistsInFlight| ==>
         Persist(PersistBody(s.persistsInFlight[j])) in s.requests
  }

  /** The body of the persist request for `stock`: a batch of one row, with the
      candidate's `price` sent under the name `rate`. */
  function PersistBody(stock: Stock): seq<Row> {
    [Row(stock.symbol, stock.price)]
  }

  /** The entries a successful fetch of `data` installs. */
  function StoredRows(data: seq<Row>): seq<Entry> {
    seq(|data|, i requires 0 <= i < |data| => Stored(data[i]))
  }

  /** `fetchWatchlist` up to its request: one more fetch is sent and pending. */
  function Fetching(s: State): (t: State)
    ensures t.watchlist == s.watchlist && t.persistsInFlight == s.persistsInFlight && t.alerts == s.alerts
    ensures FetchesSent(t.requests) == FetchesSent(s.requests) + 1
    ensures t.fetchesInFlight == s.fetchesInFlight + 1
  {
    FetchesSentAppend(s.requests, FetchAll);
    s.(requests := s.requests + [FetchAll], fetchesInFlight := s.fetchesInFlight + 1)
  }

  /** The provider right after mounting: an empty list and the mount effect's one fetch. */
  function Mounted(): (s: State)
    ensures s.watchlist == [] && s.requests == [FetchAll] && s.alerts == []
    ensures s.fetchesInFlight == 1 && s.persistsInFlight == []
    ensures Valid(s)
  {
    Fetching(State([], [], 0, 0, [], 0, []))
  }

  /** `addToWatchlist(stock)` up to its request: the optimistic append and the persist request. */
  function Added(s: State, stock: Stock): (t: State)
    ensures t.watchlist == s.watchlist + [Optimistic(stock)]
    ensures FetchesSent(t.requests) == FetchesSent(s.requests) && t.fetchesInFlight == s.fetchesInFlight
    ensures t.persistsInFlight == s.persistsInFlight + [stock] && t.alerts == s.alerts
  {
    FetchesSentAppend(s.requests, Persist(PersistBody(stock)));
    s.(watchlist := s.watchlist + [Optimistic(stock)],
       requests := s.requests + [Persist(PersistBody(stock))],
       persistsInFlight := s.persistsInFlight + [stock])
  }

  /** The rest of `addToWatchlist` once the persist request of the `i`-th pending
      candidate settles: an alert either way, and a refetch only on success. The
      list itself is not touched. */
  function PersistSettled(s: State, i: nat, outcome: Outcome): (t: State)
    requires i < |s.persistsInFlight|
    ensures t.watchlist == s.watchlist
    ensures |t.persistsInFlight| == |s.persistsInFlight| - 1 && |t.alerts| == |s.alerts| + 1
    ensures FetchesSent(t.requests) == FetchesSent(s.requests) + (if outcome == Ok then 1 else 0)
    ensures t.alerts[|s.alerts|] == match outcome
      case Ok => SavedAlert(s.persistsInFlight[i].symbol)
      case NotOk => SaveRejectedAlert
      case Threw => SaveErrorAlert
  {
    var stock := s.persistsInFlight[i];
    var t := s.(persistsInFlight := s.persistsInFlight[..i] + s.persistsInFlight[i + 1..],
                persistsSettled := s.persistsSettled + 1);
    match outcome
    case Ok => Fetching(t.(alerts := t.alerts + [SavedAlert(stock.symbol)]))
    case NotOk => t.(alerts := t.alerts + [SaveRejectedAlert])
    case Threw => t.(alerts := t.alerts + [SaveErrorAlert])
  }

  /** The rest of `fetchWatchlist` once a fetch settles: on success the list
      becomes the returned rows; on a bad status or an exception it stays. */
  function FetchSettled(s: State, ok: bool, data: seq<Row>): (t: State)
    requires s.fetchesInFlight > 0
    ensures t.requests == s.requests && t.alerts == s.alerts && t.fetchesInFlight == s.fetchesInFlight - 1
    ensures ok ==> |t.watchlist| == |data| && forall i :: 0 <= i < |data| ==> t.watchlist[i] == Stored(data[i])
    ensures !ok ==> t.watchlist == s.watchlist
  {
    s.(fetchesInFlight := s.fetchesInFlight - 1,
       fetchesSettled := s.fetchesSettled + 1,
       watchlist := if ok then StoredRows(data) else s.watchlist)
  }

  // ---------------------------------------------------------------------------
  // The provider as the source has it: state changed step by step.

  /** `WatchlistProvider`: the `watchlist` state plus a record of its traffic. */
  class WatchlistProvider {
    var watchlist: seq<Entry>
    var requests: seq<Request>
    var fetchesInFlight: nat
    var fetchesSettled: nat
    var persistsInFlight: seq<Stock>
    var persistsSettled: nat
    var alerts: seq<string>

    function Model(): State
      reads this
    {
      State(watchlist, requests, fetchesInFlight, fetchesSettled, persistsInFlight, persistsSettled, alerts)
    }

    /** Mounting: `useState([])` and the effect that fetches once. */
    constructor ()
      ensures Model() == Mounted() && Valid(Model())
    {
      watchlist := [];
      requests := [];
      fetchesInFlight := 0;
      fetchesSettled := 0;
      persistsInFlight := [];
      persistsSettled := 0;
      alerts := [];
      new;
      FetchWatchlist();
    }

    /** `fetchWatchlist` up to the request. */
    method FetchWatchlist()
      requires Valid(Model())
      modifies this
      ensures Model() == Fetching(old(Model())) && Valid(Model())
    {
      FetchingPreservesValid(Model());
      requests := requests + [FetchAll];
      fetchesInFlight := fetchesInFlight + 1;
    }

    /** `addToWatchlist(stock)` up to the request. */
    method Add(stock: Stock)
      requires Valid(Model())
      modifies this
      ensures Model() == Added(old(Model()), stock) && Valid(Model())
    {
      AddedPreservesValid(Model(), stock);
      watchlist := watchlist + [Optimistic(stock)];
      requests := requests + [Persist(PersistBody(stock))];
      persistsInFlight := persistsInFlight + [stock];
    }

    /** The persist request of the `i`-th pending candidate settles. */
    method PostOutcome(i: nat, outcome: Outcome)
      requires Valid(Model()) && i < |persistsInFlight|
      modifies this
      ensures Model() == PersistSettled(old(Model()), i, outcome) && Valid(Model())
    {
      PersistSettledPreservesValid(Model(), i, outcome);
      var stock := persistsInFlight[i];
      persistsInFlight := persistsInFlight[..i] + persistsInFlight[i + 1..];
      persistsSettled := persistsSettled + 1;
      if outcome == Ok {
        alerts := alerts + [SavedAlert(stock.symbol)];
        FetchWatchlist();
      } else if outcome == NotOk {
        alerts := alerts + [SaveRejectedAlert];
      } else {
        alerts := alerts + [SaveErrorAlert];
      }
    }

    /** A pending fetch settles, `ok` telling whether a list `data` came back. */
    method FetchOutcome(ok: bool, data: seq<Row>)
      requires Valid(Model()) && fetchesInFlight > 0
      modifies this
      ensures Model() == FetchSettled(old(Model()), ok, data) && Valid(Model())
    {
      FetchSettledPreservesValid(Model(), ok, data);
      fetchesInFlight := fetchesInFlight - 1;
      fetchesSettled := fetchesSettled + 1;
      if ok {
        watchlist := StoredRows(data);
      }
    }
  }

  // ---------------------------------------------------------------------------
  // Properties of the provider.

  lemma FetchesSentAppend(rs: seq<Request>, r: Request)
    ensures FetchesSent(rs + [r]) == FetchesSent(rs) + (if r == FetchAll then 1 else 0)
  {
    assert (rs + [r])[..|rs + [r]| - 1] == rs;
  }

  lemma FetchingPreservesValid(s: State)
    requires Valid(s)
    ensures Valid(Fetching(s))
    ensures Fetching(s).watchlist == s.watchlist
    ensures FetchesSent(Fetching(s).requests) == FetchesSent(s.requests) + 1
  {
    FetchesSentAppend(s.requests, FetchAll);
  }

  lemma AddedPreservesValid(s: State, stock: Stock)
    requires Valid(s)
    ensures Valid(Added(s, stock))
  {
    FetchesSentAppend(s.requests, Persist(PersistBody(stock)));
  }

  lemma PersistSettledPreservesValid(s: State, i: nat, outcome: Outcome)
    requires Valid(s) && i < |s.persistsInFlight|
    ensures Valid(PersistSettled(s, i, outcome))
  {
    var rest := s.persistsInFlight[..i] + s.persistsInFlight[i + 1..];
    forall j | 0 <= j < |rest|
      ensures Persist(PersistBody(rest[j])) in s.requests
    {
      assert rest[j] == if j < i then s.persistsInFlight[j] else s.persistsInFlight[j + 1];
    }
    if outcome == Ok {
      FetchingPreservesValid(s.(persistsInFlight := rest, persistsSettled := s.persistsSettled + 1,
                                 alerts := s.alerts + [SavedAlert(s.persistsInFlight[i].symbol)]));
    }
  }

  lemma FetchSettledPreservesValid(s: State, ok: bool, data: seq<Row>)
    requires Valid(s) && s.fetchesInFlight > 0
    ensures Valid(FetchSettled(s, ok, data))
  {
  }

  /** Once nothing is pending, every request ever sent has settled exactly once:
      the settled fetches and persists together account for the whole log. */
  lemma QuietMeansAllSettled(s: State)
    requires Valid(s) && s.fetchesInFlight == 0 && s.persistsInFlight == []
    ensures s.fetchesSettled == FetchesSent(s.requests)
    ensures s.fetchesSettled + s.persistsSettled == |s.requests|
  {
  }

  /** `addToWatchlist(s)` makes `s` the last element at once, keeps every earlier
      entry, and sends exactly one request: a one-row batch renaming price to rate. */
  lemma AddAppendsOptimistically(s: State, stock: Stock)
    ensures var t := Added(s, stock);
      && |t.watchlist| == |s.watchlist| + 1
      && t.watchlist[|s.watchlist|] == Optimistic(stock)
      && (forall i :: 0 <= i < |s.watchlist| ==> t.watchlist[i] == s.watchlist[i])
      && t.requests == s.requests + [Persist([Row(stock.symbol, stock.price)])]
      && t.fetchesInFlight == s.fetchesInFlight
  {
  }

  /** A successful fetch installs exactly the returned rows, whatever the list
      held before: no merge with optimistic entries. */
  lemma FetchReplacesWholesale(s: State, s': State, data: seq<Row>)
    requires s.fetchesInFlight > 0 && s'.fetchesInFlight > 0
    ensures var w := FetchSettled(s, true, data).watchlist;
      && w == FetchSettled(s', true, data).watchlist
      && |w| == |data|
      && forall i :: 0 <= i < |data| ==> w[i] == Stored(data[i])
  {
  }

  /** A failed fetch, by status or by exception, leaves the list as it was. */
  lemma FetchFailureKeepsList(s: State, data: seq<Row>)
    requires s.fetchesInFlight > 0
    ensures FetchSettled(s, false, data).watchlist == s.watchlist
    ensures FetchSettled(s, false, data).requests == s.requests
  {
  }

  /** Two successful fetches of an unchanged store leave the same list. */
  lemma RefreshIdempotent(s: State, data: seq<Row>)
    requires s.fetchesInFlight >= 2
    ensures var once := FetchSettled(s, true, data);
      FetchSettled(once, true, data).watchlist == once.watchlist
  {
  }

  /** A successful persist sends exactly one more request, a fetch, and leaves the list alone. */
  lemma PersistSuccessRefetchesOnce(s: State, i: nat)
    requires i < |s.persistsInFlight|
    ensures var t := PersistSettled(s, i, Ok);
      && t.requests == s.requests + [FetchAll]
      && t.fetchesInFlight == s.fetchesInFlight + 1
      && t.watchlist == s.watchlist
      && t.alerts == s.alerts + [SavedAlert(s.persistsInFlight[i].symbol)]
  {
  }

  /** A failed persist, by status or by exception, keeps the optimistic entry,
      sends no fetch and raises an alert. */
  lemma PersistFailureKeepsEntry(s: State, i: nat, outcome: Outcome)
    requires i < |s.persistsInFlight| && outcome != Ok
    ensures var t := PersistSettled(s, i, outcome);
      && t.requests == s.requests
      && t.fetchesInFlight == s.fetchesInFlight
      && t.watchlist == s.watchlist
      && |t.alerts| == |s.alerts| + 1
      && t.alerts[|s.alerts|] == (if outcome == NotOk then SaveRejectedAlert else SaveErrorAlert)
  {
  }

  /** Adding and then failing to persist: the candidate is still the last entry. */
  lemma AddThenFailedPersist(s: State, stock: Stock, outcome: Outcome)
    requires outcome != Ok
    ensures var t := PersistSettled(Added(s, stock), |s.persistsInFlight|, outcome);
      && t.watchlist == s.watchlist + [Optimistic(stock)]
      && t.persistsInFlight == s.persistsInFlight
      && FetchesSent(t.requests) == FetchesSent(s.requests)
  {
    var a := Added(s, stock);
    assert a.persistsInFlight[..|s.persistsInFlight|] == s.persistsInFlight;
    FetchesSentAppend(s.requests, Persist(PersistBody(stock)));
  }

  /** Adding, persisting successfully and then completing the refetch shows
      exactly what the store returned, not the optimistic value. */
  lemma AddThenReconcile(s: State, stock: Stock, data: seq<Row>)
    ensures var t := PersistSettled(Added(s, stock), |s.persistsInFlight|, Ok);
      && t.requests == s.requests + [Persist(PersistBody(stock)), FetchAll]
      && t.persistsInFlight == s.persistsInFlight
      && FetchSettled(t, true, data).watchlist == StoredRows(data)
  {
    var a := Added(s, stock);
    assert a.persistsInFlight[..|s.persistsInFlight|] == s.persistsInFlight;
  }

  // ---------------------------------------------------------------------------
  // The `Watchlist` view.

  /** One table row: the symbol cell and the rate cell. */
  datatype Cells = Cells(symbol: string, rate: Price)

  /** What the view shows: the empty message, or a table. */
  datatype Screen = EmptyMessage | Table(rows: seq<Cells>)

  /** The rows as the source computes them: each row reads `item.rate`, so an
      entry without a `rate` makes the render throw (`None`). */
  function TableRowsAsWritten(wl: seq<Entry>): (rows: Option<seq<Cells>>)
    ensures rows.Some? <==> forall i :: 0 <= i < |wl| ==> wl[i].Stored?
    ensures rows.Some? ==> (|rows.value| == |wl| &&
      forall i :: 0 <= i < |wl| ==> rows.value[i] == Cells(wl[i].row.symbol, wl[i].row.rate))
  {
    if wl == [] then Some([])
    else match (wl[0].Rate(), TableRowsAsWritten(wl[1..]))
      case (Some(rate), Some(rest)) => Some([Cells(wl[0].Symbol(), rate)] + rest)
      case _ => None
  }

  /** The view as written; `None` is the TypeError thrown while rendering. */
  function RenderAsWritten(wl: seq<Entry>): (screen: Option<Screen>)
    ensures screen == Some(EmptyMessage) <==> |wl| == 0
    ensures screen.None? <==> exists i :: 0 <= i < |wl| && wl[i].Optimistic?
  {
    if |wl| == 0 then Some(EmptyMessage)
    else match TableRowsAsWritten(wl)
      case Some(rows) => Some(Table(rows))
      case None => None
  }

  /** The view as intended: the empty message exactly when the list is empty,
      otherwise one row per entry, in list order, with the entry's price. */
  function Render(wl: seq<Entry>): (screen: Screen)
    ensures screen == EmptyMessage <==> |wl| == 0
    ensures screen.Table? ==> (|screen.rows| == |wl| &&
      forall i :: 0 <= i < |wl| ==> screen.rows[i] == Cells(wl[i].Symbol(), wl[i].ShownPrice()))
  {
    if |wl| == 0 then EmptyMessage
    else Table(seq(|wl|, i requires 0 <= i < |wl| => Cells(wl[i].Symbol(), wl[i].ShownPrice())))
  }

  /** On a list of fetched rows the view as written and as intended agree. */
  lemma RenderAgreesOnStoredRows(wl: seq<Entry>)
    requires forall i :: 0 <= i < |wl| ==> wl[i].Stored?
    ensures RenderAsWritten(wl) == Some(Render(wl))
  {
    if |wl| > 0 {
      var rows := TableRowsAsWritten(wl).value;
      assert rows == Render(wl).rows;
    }
  }

  /** As written, every optimistic add breaks the view until a refetch replaces
      the list; the intended view shows the candidate as its last row. */
  lemma OptimisticEntryBreaksView(s: State, stock: Stock)
    ensures RenderAsWritten(Added(s, stock).watchlist) == None
    ensures var screen := Render(Added(s, stock).watchlist);
      screen.Table? && screen.rows[|s.watchlist|] == Cells(stock.symbol, stock.price)
  {
    var wl := Added(s, stock).watchlist;
    assert !wl[|s.watchlist|].Stored?;
  }

  /** The row a persisted candidate renders as once fetched back is the row it
      rendered as while optimistic. */
  lemma PersistedRowRendersAlike(stock: Stock)
    ensures |PersistBody(stock)| == 1
    ensures Render([Stored(PersistBody(stock)[0])]) == Render([Optimistic(stock)])
  {
  }

  /** From an empty store: mount, fetch nothing, add TSLA at 250.5, persist it,
      refetch the stored row: the table shows the single row TSLA, 250.5. */
  lemma TslaScenario()
    ensures var s0 := FetchSettled(Mounted(), true, []);
      var s1 := Added(s0, Stock("TSLA", 250.5));
      var s2 := PersistSettled(s1, 0, Ok);
      var s3 := FetchSettled(s2, true, [Row("TSLA", 250.5)]);
      && s0.watchlist == []
      && Render(s0.watchlist) == EmptyMessage
      && s2.requests == [FetchAll, Persist([Row("TSLA", 250.5)]), FetchAll]
      && RenderAsWritten(s3.watchlist) == Some(Table([Cells("TSLA", 250.5)]))
  {
    var s0 := FetchSettled(Mounted(), true, []);
    assert s0.watchlist == [];
    var s1 := Added(s0, Stock("TSLA", 250.5));
    var s2 := PersistSettled(s1, 0, Ok);
    assert s2.requests == [FetchAll, Persist([Row("TSLA", 250.5)]), FetchAll];
    var s3 := FetchSettled(s2, true, [Row("TSLA", 250.5)]);
    assert s3.watchlist == [Stored(Row("TSLA", 250.5))];
    assert s3.watchlist[1..] == [];
    assert s3.watchlist[0].Rate() == Some(250.5) && s3.watchlist[0].Symbol() == "TSLA";
    assert [Cells("TSLA", 250.5)] + [] == [Cells("TSLA", 250.5)];
    assert TableRowsAsWritten(s3.watchlist) == Some([Cells("TSLA", 250.5)]);
    assert RenderAsWritten(s3.watchlist) == Some(Table([Cells("TSLA", 250.5)]));
  }
}
