/**
 * The paginated, sortable event-list controller
 * (Evently/Modules/EventsList/ViewModel/EventsListViewModel.swift).
 *
 * Each `async` operation is split at its one suspension point, the network
 * call: a Begin step runs up to the call and returns the request it would
 * send (None when the isLoading guard turns it away), and FinishLoadEvents
 * runs what follows the call once its outcome is known. The whole-call
 * methods compose the two with a `fetch` function that stands for the API
 * client. Other calls may run between the two steps, as they may while the
 * Swift code is suspended.
 *
 * The Swift file calls `fetchEvents(page:with:)` with an Int page and the
 * strategy, while the client protocol takes four strings (country, page,
 * size, sort); FetchRequest carries what the view model evidently means to
 * send: the page and the strategy.
 */
module EventsList {
  import opened Wrappers
  import opened Records
  import SortingStrategy

  type Strategy = SortingStrategy.EventsSortingStrategy

  /** What one `fetchEvents` call asks for. */
  datatype FetchRequest = FetchRequest(page: int, strategy: Strategy)

  /** What one `fetchEvents` call produced: a page of events, or the thrown error's description. */
  datatype FetchOutcome = Success(events: seq<Event>) | Failure(message: string)

  /** The controller's observable and private state. */
  datatype ListState = ListState(
    events: seq<Event>,
    isLoading: bool,
    showError: bool,
    errorMessage: Option<string>,
    strategy: Strategy,
    currentPage: int)

  /** A call that has run up to its network request; `request` is None when it returned early. */
  datatype Started = Started(state: ListState, request: Option<FetchRequest>)

  /** The state of a freshly constructed controller. */
  function Initial(): (s: ListState)
    ensures s.events == [] && !s.isLoading && !s.showError && s.errorMessage == None
    ensures s.strategy == SortingStrategy.DateAscending && s.currentPage == 0
  {
    ListState([], false, false, None, SortingStrategy.Default, 0)
  }

  /** The private `loadEvents(forPage:)` up to the network call: the page defaults to currentPage. */
  function StartLoad(s: ListState, forPage: Option<int>): (r: Started)
    ensures r.state == s.(isLoading := true)
    ensures r.request == Some(FetchRequest(forPage.GetOr(s.currentPage), s.strategy))
  {
    Started(s.(isLoading := true), Some(FetchRequest(forPage.GetOr(s.currentPage), s.strategy)))
  }

  /** `loadEvents` after the call returns, including `handleError`. */
  function FinishLoad(s: ListState, outcome: FetchOutcome): (r: ListState)
    ensures !r.isLoading && r.strategy == s.strategy && r.currentPage == s.currentPage
    ensures outcome.Success? ==>
      r.events == s.events + outcome.events && r.showError == s.showError && r.errorMessage == s.errorMessage
    ensures outcome.Failure? ==>
      r.events == s.events && r.showError && r.errorMessage == Some(outcome.message)
  {
    match outcome
    case Success(fetched) => s.(events := s.events + fetched, isLoading := false)
    case Failure(message) => s.(showError := true, errorMessage := Some(message), isLoading := false)
  }

  /** `loadFirstEvents` up to the network call. */
  function BeginLoadFirst(s: ListState): (r: Started)
    ensures s.isLoading ==> r == Started(s, None)
    ensures !s.isLoading ==>
      && r.request == Some(FetchRequest(0, s.strategy))
      && r.state == s.(events := [], isLoading := true)
  {
    if s.isLoading then Started(s, None)
    else StartLoad(s.(events := []), Some(0))
  }

  /** `loadMoreEvents` up to the network call. */
  function BeginLoadMore(s: ListState): (r: Started)
    ensures s.isLoading ==> r == Started(s, None)
    ensures !s.isLoading ==>
      && r.request == Some(FetchRequest(s.currentPage + 1, s.strategy))
      && r.state == s.(currentPage := s.currentPage + 1, isLoading := true)
  {
    if s.isLoading then Started(s, None)
    else StartLoad(s.(currentPage := s.currentPage + 1), None)
  }

  /** `chooseEventsSortingStrategy` up to the network call: the strategy is set even when no reload starts. */
  function BeginChoose(s: ListState, strategy: Strategy): (r: Started)
    ensures r.state.strategy == strategy && r.state.currentPage == s.currentPage
    ensures s.isLoading ==> r == Started(s.(strategy := strategy), None)
    ensures !s.isLoading ==>
      r == Started(s.(strategy := strategy, events := [], isLoading := true), Some(FetchRequest(0, strategy)))
  {
    BeginLoadFirst(s.(strategy := strategy))
  }

  /** The rest of a started call, given what the API client returns for each request. */
  function Complete(started: Started, fetch: FetchRequest -> FetchOutcome): (r: ListState)
    ensures started.request.None? ==> r == started.state
    ensures started.request.Some? ==> !r.isLoading
  {
    match started.request
    case None => started.state
    case Some(request) => FinishLoad(started.state, fetch(request))
  }

  class EventsListViewModel {
    var events: seq<Event>
    var isLoading: bool
    var showError: bool
    var errorMessage: Option<string>
    var eventsSortingStrategy: Strategy
    var currentPage: int

    function State(): ListState
      reads this
    {
      ListState(events, isLoading, showError, errorMessage, eventsSortingStrategy, currentPage)
    }

    /** `init`; the Task it spawns to load the first page is not part of this model. */
    constructor ()
      ensures State() == Initial()
    {
      events := [];
      isLoading := false;
      showError := false;
      errorMessage := None;
      eventsSortingStrategy := SortingStrategy.Default;
      currentPage := 0;
    }

    /** `checkSortingStrategyIsChoosen`: a query, true exactly for the active strategy. */
    function CheckSortingStrategyIsChoosen(strategy: Strategy): (r: bool)
      reads this
      ensures r <==> State().strategy == strategy
    {
      strategy == eventsSortingStrategy
    }

    /** `handleError`: the message is the error's description, which for a thrown String is the string. */
    method HandleError(message: string)
      modifies this
      ensures State() == old(State()).(showError := true, errorMessage := Some(message))
    {
      errorMessage := Some(message);
      showError := true;
    }

    /** `loadEvents(forPage:)` up to the network call. */
    method StartLoadEvents(forPage: Option<int>) returns (request: FetchRequest)
      modifies this
      ensures Started(State(), Some(request)) == StartLoad(old(State()), forPage)
    {
      isLoading := true;
      request := FetchRequest(forPage.GetOr(currentPage), eventsSortingStrategy);
    }

    /** `loadEvents` after the network call returns. */
    method FinishLoadEvents(outcome: FetchOutcome)
      modifies this
      ensures State() == FinishLoad(old(State()), outcome)
    {
      match outcome {
        case Success(fetched) =>
          events := events + fetched;
        case Failure(message) =>
          HandleError(message);
      }
      isLoading := false;
    }

    /** `loadFirstEvents` up to the network call. */
    method BeginLoadFirstEvents() returns (request: Option<FetchRequest>)
      modifies this
      ensures Started(State(), request) == BeginLoadFirst(old(State()))
    {
      if isLoading {
        return None;
      }
      events := [];
      var r := StartLoadEvents(Some(0));
      request := Some(r);
    }

    /** `loadMoreEvents` up to the network call. */
    method BeginLoadMoreEvents() returns (request: Option<FetchRequest>)
      modifies this
      ensures Started(State(), request) == BeginLoadMore(old(State()))
    {
      if isLoading {
        return None;
      }
      currentPage := currentPage + 1;
      var r := StartLoadEvents(None);
      request := Some(r);
    }

    /** `chooseEventsSortingStrategy` up to the network call. */
    method BeginChooseEventsSortingStrategy(strategy: Strategy) returns (request: Option<FetchRequest>)
      modifies this
      ensures Started(State(), request) == BeginChoose(old(State()), strategy)
    {
      eventsSortingStrategy := strategy;
      request := BeginLoadFirstEvents();
    }

    /** `loadFirstEvents` run to completion. */
    method LoadFirstEvents(fetch: FetchRequest -> FetchOutcome)
      modifies this
      ensures State() == Complete(BeginLoadFirst(old(State())), fetch)
    {
      var request := BeginLoadFirstEvents();
      if request.Some? {
        FinishLoadEvents(fetch(request.value));
      }
    }

    /** `loadMoreEvents` run to completion. */
    method LoadMoreEvents(fetch: FetchRequest -> FetchOutcome)
      modifies this
      ensures State() == Complete(BeginLoadMore(old(State())), fetch)
    {
      var request := BeginLoadMoreEvents();
      if request.Some? {
        FinishLoadEvents(fetch(request.value));
      }
    }

    /** `chooseEventsSortingStrategy` run to completion. */
    method ChooseEventsSortingStrategy(strategy: Strategy, fetch: FetchRequest -> FetchOutcome)
      modifies this
      ensures State() == Complete(BeginChoose(old(State()), strategy), fetch)
    {
      var request := BeginChooseEventsSortingStrategy(strategy);
      if request.Some? {
        FinishLoadEvents(fetch(request.value));
      }
    }
  }
}
