/**
 * What the event-list controller holds after any sequence of completed
 * calls, stated from the history of calls alone, and the scenarios of the
 * app's own tests (EventlyTests/Modules/EventsList/EventsListViewModelTests.swift).
 */
module EventsListHistory {
  import opened Wrappers
  import opened Records
  import SortingStrategy
  import opened EventsList

  /** One completed public call on the controller. */
  datatype Call = LoadFirst | LoadMore | Choose(strategy: Strategy)

  /** A call up to its network request. */
  function Begin(s: ListState, c: Call): Started {
    match c
    case LoadFirst => BeginLoadFirst(s)
    case LoadMore => BeginLoadMore(s)
    case Choose(strategy) => BeginChoose(s, strategy)
  }

  /**
   * The API client over a whole history: what it answers to the request of
   * the i-th call. The answer may differ between calls that send the same
   * request (a retry that succeeds, a server whose pages change).
   */
  type Client = (nat, FetchRequest) -> FetchOutcome

  /** The client as the i-th call sees it. */
  function AtCall(fetch: Client, i: nat): FetchRequest -> FetchOutcome {
    (request: FetchRequest) => fetch(i, request)
  }

  /** The controller's state after running `calls` to completion, one after another, from a fresh one. */
  function Run(calls: seq<Call>, fetch: Client): ListState {
    if calls == [] then Initial()
    else Complete(Begin(Run(calls[..|calls| - 1], fetch), calls[|calls| - 1]), AtCall(fetch, |calls| - 1))
  }

  // ---- The same state, read off the history ----

  /** How many `loadMoreEvents` calls there were: each bumps the page once. */
  function PageAfter(calls: seq<Call>): nat {
    if calls == [] then 0
    else PageAfter(calls[..|calls| - 1]) + (if calls[|calls| - 1].LoadMore? then 1 else 0)
  }

  /** The strategy chosen last, or the default. */
  function StrategyAfter(calls: seq<Call>): Strategy {
    if calls == [] then SortingStrategy.Default
    else if calls[|calls| - 1].Choose? then calls[|calls| - 1].strategy
    else StrategyAfter(calls[..|calls| - 1])
  }

  /** The request the i-th call sends, given the calls before it. */
  function RequestAt(calls: seq<Call>, i: nat): FetchRequest
    requires i < |calls|
  {
    var before := calls[..i];
    match calls[i]
    case LoadFirst => FetchRequest(0, StrategyAfter(before))
    case LoadMore => FetchRequest(PageAfter(before) + 1, StrategyAfter(before))
    case Choose(strategy) => FetchRequest(0, strategy)
  }

  /** The events the i-th call received, empty if its fetch failed. */
  function BatchAt(calls: seq<Call>, i: nat, fetch: Client): seq<Event>
    requires i < |calls|
  {
    match fetch(i, RequestAt(calls, i))
    case Success(batch) => batch
    case Failure(_) => []
  }

  /** The batches of calls lo .. hi-1, in call order. */
  function Batches(calls: seq<Call>, lo: nat, hi: nat, fetch: Client): seq<Event>
    requires lo <= hi <= |calls|
    decreases hi - lo
  {
    if lo == hi then [] else Batches(calls, lo, hi - 1, fetch) + BatchAt(calls, hi - 1, fetch)
  }

  /** The index of the last call that cleared the list (0 when none did). */
  function LastReset(calls: seq<Call>): (r: nat)
    ensures r <= |calls|
    ensures calls != [] ==> r < |calls|
  {
    if calls == [] then 0
    else if calls[|calls| - 1].LoadMore? then LastReset(calls[..|calls| - 1])
    else |calls| - 1
  }

  /** The message of the last failed call, if any failed. */
  function LastFailure(calls: seq<Call>, fetch: Client): Option<string> {
    if calls == [] then None
    else match fetch(|calls| - 1, RequestAt(calls, |calls| - 1))
      case Failure(message) => Some(message)
      case Success(_) => LastFailure(calls[..|calls| - 1], fetch)
  }

  /** Appending a call changes neither the request nor the batch of an earlier call. */
  lemma {:induction false} BatchesOfPrefix(calls: seq<Call>, c: Call, lo: nat, hi: nat, fetch: Client)
    requires lo <= hi <= |calls|
    ensures Batches(calls + [c], lo, hi, fetch) == Batches(calls, lo, hi, fetch)
    decreases hi - lo
  {
    if lo < hi {
      BatchesOfPrefix(calls, c, lo, hi - 1, fetch);
      assert (calls + [c])[..hi - 1] == calls[..hi - 1];
      assert RequestAt(calls + [c], hi - 1) == RequestAt(calls, hi - 1);
    }
  }

  /**
   * After any sequence of completed calls: nothing is loading; the page is
   * the number of loadMore calls; the strategy is the last one chosen; the
   * list is the batches received since the list was last cleared, in call
   * order, with no deduplication; and an error is shown exactly when some
   * call failed, with the last failure's message.
   */
  lemma {:induction false} RunFollowsHistory(calls: seq<Call>, fetch: Client)
    ensures var s := Run(calls, fetch);
      && !s.isLoading
      && s.currentPage == PageAfter(calls)
      && s.strategy == StrategyAfter(calls)
      && s.events == Batches(calls, LastReset(calls), |calls|, fetch)
      && s.errorMessage == LastFailure(calls, fetch)
      && s.showError == LastFailure(calls, fetch).Some?
  {
    if calls != [] {
      var n := |calls| - 1;
      var h, c := calls[..n], calls[n];
      assert calls == h + [c];
      RunFollowsHistory(h, fetch);
      var before := Run(h, fetch);
      assert RequestAt(calls, n) == Begin(before, c).request.value;
      if c.LoadMore? {
        BatchesOfPrefix(h, c, LastReset(h), n, fetch);
      }
    }
  }

  /** The request the last call sends is the one RequestAt reads off the history. */
  lemma {:induction false} RequestIsRequestAt(calls: seq<Call>, fetch: Client)
    requires calls != []
    ensures Begin(Run(calls[..|calls| - 1], fetch), calls[|calls| - 1]).request == Some(RequestAt(calls, |calls| - 1))
  {
    RunFollowsHistory(calls[..|calls| - 1], fetch);
  }

  /** With a client that returns the same two events for every page, first load then more gives four. */
  lemma TwoPagesOfTwo(e: Event)
    ensures var fetch := (_: nat, _: FetchRequest) => Success([e, e]);
      && Run([LoadFirst], fetch).events == [e, e]
      && Run([LoadFirst, LoadMore], fetch).events == [e, e, e, e]
      && Run([LoadFirst, LoadMore], fetch).currentPage == 1
  {
    var fetch := (_: nat, _: FetchRequest) => Success([e, e]);
    assert [LoadFirst, LoadMore][..1] == [LoadFirst];
  }

  /**
   * A first load that fails and a retry that succeeds: the retry's events
   * are shown, but the error flag and message of the failure stay set,
   * since nothing in the controller clears them (only the screen's alert
   * resets the flag, when the user dismisses it).
   */
  lemma RetryAfterFailure(e: Event, message: string)
    ensures var fetch := (i: nat, _: FetchRequest) => if i == 0 then Failure(message) else Success([e]);
      && Run([LoadFirst], fetch).events == []
      && Run([LoadFirst], fetch).showError
      && Run([LoadFirst, LoadFirst], fetch).events == [e]
      && Run([LoadFirst, LoadFirst], fetch).showError
      && Run([LoadFirst, LoadFirst], fetch).errorMessage == Some(message)
  {
    assert [LoadFirst, LoadFirst][..1] == [LoadFirst];
  }

  /**
   * While a first load is in flight, loadMore and loadFirst are turned away
   * unchanged, and choosing a strategy sets it without a reload; the load in
   * flight then completes with page 0 fetched under the old strategy, while
   * the strategy field already holds the new one.
   */
  lemma {:induction false} CallsDuringLoadAreIgnored(s: ListState, strategy: Strategy, fetch: FetchRequest -> FetchOutcome)
    requires !s.isLoading
    ensures BeginLoadFirst(s).request == Some(FetchRequest(0, s.strategy))
    ensures var inFlight := BeginLoadFirst(s).state;
      && BeginLoadMore(inFlight) == Started(inFlight, None)
      && BeginLoadFirst(inFlight) == Started(inFlight, None)
      && BeginChoose(inFlight, strategy).request == None
      && var outcome := fetch(FetchRequest(0, s.strategy));
         var done := FinishLoad(BeginChoose(inFlight, strategy).state, outcome);
         && done.strategy == strategy
         && done.currentPage == s.currentPage
         && (outcome.Success? ==> done.events == outcome.events)
         && (outcome.Failure? ==> done.events == [] && done.errorMessage == Some(outcome.message))
  {
    var inFlight := BeginLoadFirst(s).state;
    assert inFlight.isLoading && inFlight.events == [];
  }

  /**
   * loadFirstEvents requests page 0 but leaves currentPage as it was, so a
   * loadMore after a reload continues from the old page count.
   */
  lemma LoadFirstKeepsPageCounter(fetch: Client)
    ensures RequestAt([LoadMore, LoadFirst], 1).page == 0
    ensures RequestAt([LoadMore, LoadFirst, LoadMore], 2).page == 2
    ensures Run([LoadMore, LoadFirst, LoadMore], fetch).currentPage == 2
  {
    var calls := [LoadMore, LoadFirst, LoadMore];
    assert calls[..2] == [LoadMore, LoadFirst] && calls[..2][..1] == [LoadMore];
    assert [LoadMore, LoadFirst][..1] == [LoadMore];
    assert [LoadMore][..0] == [];
    RunFollowsHistory(calls, fetch);
  }

  /** test_loadFirstEvents_withSuccess_loadsEvents and test_loadMoreEvents_withSuccess_appendsEvents. */
  method LoadTwiceScenario(e: Event) returns (afterFirst: ListState, afterMore: ListState)
    ensures |afterFirst.events| == 2 && !afterFirst.isLoading && !afterFirst.showError && afterFirst.errorMessage == None
    ensures |afterMore.events| == 4 && !afterMore.isLoading && !afterMore.showError
  {
    var fetch := (_: FetchRequest) => Success([e, e]);
    var vm := new EventsListViewModel();
    vm.LoadFirstEvents(fetch);
    afterFirst := vm.State();
    vm.LoadMoreEvents(fetch);
    afterMore := vm.State();
  }

  /** test_loadFirstEvents_withError_showsError: the thrown string becomes the message. */
  method LoadFailureScenario(message: string) returns (s: ListState)
    ensures s.events == [] && !s.isLoading && s.showError && s.errorMessage == Some(message)
  {
    var vm := new EventsListViewModel();
    vm.LoadFirstEvents((_: FetchRequest) => Failure(message));
    s := vm.State();
  }

  /** test_checkSortingStrategyIsChoosen_returnsCorrectValue. */
  method ChooseStrategyScenario(fetch: FetchRequest -> FetchOutcome) returns (before: bool, after: bool)
    ensures !before && after
  {
    var vm := new EventsListViewModel();
    before := vm.CheckSortingStrategyIsChoosen(SortingStrategy.NameAscending);
    vm.ChooseEventsSortingStrategy(SortingStrategy.NameAscending, fetch);
    after := vm.CheckSortingStrategyIsChoosen(SortingStrategy.NameAscending);
  }
}
