/**
 * The controller behind one event's details screen
 * (Evently/Modules/EventDetails/ViewModel/EventDetailsViewModel.swift).
 *
 * `loadEventDetails` is split at the network call as in EventsList:
 * BeginLoadEventDetails sets isLoading, FinishLoadEventDetails applies the
 * outcome. There is no isLoading guard and no cache lookup in this file:
 * every call fetches again.
 */
module EventDetailsVM {
  import opened Wrappers
  import opened Records

  /** What one `fetchEventDetails` call produced: the record, or the thrown error's description. */
  datatype DetailsOutcome = Success(details: EventDetails) | Failure(message: string)

  datatype DetailsState = DetailsState(
    event: Option<EventDetails>,
    isLoading: bool,
    showError: bool,
    errorMessage: Option<string>)

  /** The state of a freshly constructed controller. */
  function Initial(): (s: DetailsState)
    ensures s.event == None && !s.isLoading && !s.showError && s.errorMessage == None
  {
    DetailsState(None, false, false, None)
  }

  /** `loadEventDetails` up to the network call: no guard, only the flag. */
  function BeginLoad(s: DetailsState): (r: DetailsState)
    ensures r == s.(isLoading := true)
  {
    s.(isLoading := true)
  }

  /** `loadEventDetails` after the call returns, including `handleError`. */
  function FinishLoad(s: DetailsState, outcome: DetailsOutcome): (r: DetailsState)
    ensures !r.isLoading
    ensures outcome.Success? ==>
      r.event == Some(outcome.details) && r.showError == s.showError && r.errorMessage == s.errorMessage
    ensures outcome.Failure? ==>
      r.event == s.event && r.showError && r.errorMessage == Some(outcome.message)
  {
    match outcome
    case Success(details) => s.(event := Some(details), isLoading := false)
    case Failure(message) => s.(showError := true, errorMessage := Some(message), isLoading := false)
  }

  class EventDetailsViewModel {
    /** The event the screen is for; the API client built in `init` is bound to it. */
    const eventId: string
    var event: Option<EventDetails>
    var isLoading: bool
    var showError: bool
    var errorMessage: Option<string>

    function State(): DetailsState
      reads this
    {
      DetailsState(event, isLoading, showError, errorMessage)
    }

    constructor (eventId: string)
      ensures this.eventId == eventId && State() == Initial()
    {
      this.eventId := eventId;
      event := None;
      isLoading := false;
      showError := false;
      errorMessage := None;
    }

    /** `handleError`: the message is the error's description, which for a thrown String is the string. */
    method HandleError(message: string)
      modifies this
      ensures State() == old(State()).(showError := true, errorMessage := Some(message))
    {
      errorMessage := Some(message);
      showError := true;
    }

    /** `loadEventDetails` up to the network call. */
    method BeginLoadEventDetails()
      modifies this
      ensures State() == BeginLoad(old(State()))
    {
      isLoading := true;
    }

    /** `loadEventDetails` after the network call returns. */
    method FinishLoadEventDetails(outcome: DetailsOutcome)
      modifies this
      ensures State() == FinishLoad(old(State()), outcome)
    {
      match outcome {
        case Success(details) =>
          event := Some(details);
        case Failure(message) =>
          HandleError(message);
      }
      isLoading := false;
    }

    /** `loadEventDetails` run to completion; `fetch` stands for the client bound to eventId. */
    method LoadEventDetails(fetch: string -> DetailsOutcome)
      modifies this
      ensures State() == FinishLoad(BeginLoad(old(State())), fetch(eventId))
    {
      BeginLoadEventDetails();
      FinishLoadEventDetails(fetch(eventId));
    }
  }

  /** The state after completed loads with these outcomes, in order, from a fresh controller. */
  function Run(outcomes: seq<DetailsOutcome>): DetailsState {
    if outcomes == [] then Initial()
    else FinishLoad(BeginLoad(Run(outcomes[..|outcomes| - 1])), outcomes[|outcomes| - 1])
  }

  /** The record of the last successful load, if any succeeded. */
  function LastSuccess(outcomes: seq<DetailsOutcome>): Option<EventDetails> {
    if outcomes == [] then None
    else if outcomes[|outcomes| - 1].Success? then Some(outcomes[|outcomes| - 1].details)
    else LastSuccess(outcomes[..|outcomes| - 1])
  }

  /** The message of the last failed load, if any failed. */
  function LastFailure(outcomes: seq<DetailsOutcome>): Option<string> {
    if outcomes == [] then None
    else if outcomes[|outcomes| - 1].Failure? then Some(outcomes[|outcomes| - 1].message)
    else LastFailure(outcomes[..|outcomes| - 1])
  }

  /**
   * After any sequence of completed loads: nothing is loading, the event is
   * the last one fetched successfully (a failure never clears it), and an
   * error is shown exactly when some load failed, with the last failure's
   * message (a later success does not clear it).
   */
  lemma {:induction false} RunFollowsHistory(outcomes: seq<DetailsOutcome>)
    ensures var s := Run(outcomes);
      && !s.isLoading
      && s.event == LastSuccess(outcomes)
      && s.errorMessage == LastFailure(outcomes)
      && s.showError == LastFailure(outcomes).Some?
  {
    if outcomes != [] {
      RunFollowsHistory(outcomes[..|outcomes| - 1]);
    }
  }

  /** EventDetailsViewModelTests: a decoding failure on a fresh screen leaves no event and shows the error. */
  method FailedLoadScenario(eventId: string, message: string) returns (s: DetailsState)
    ensures s.event == None && !s.isLoading && s.showError && s.errorMessage == Some(message)
  {
    var vm := new EventDetailsViewModel(eventId);
    vm.LoadEventDetails((_: string) => Failure(message));
    s := vm.State();
  }

  /** Reloading always fetches again: a second success replaces the first record. */
  method ReloadScenario(eventId: string, first: EventDetails, second: EventDetails) returns (s: DetailsState)
    ensures s.event == Some(second) && !s.isLoading && !s.showError
  {
    var vm := new EventDetailsViewModel(eventId);
    vm.LoadEventDetails((_: string) => Success(first));
    vm.LoadEventDetails((_: string) => Success(second));
    s := vm.State();
  }
}
