/**
 * The two Ticketmaster Discovery endpoints the app calls
 * (Evently/Core/Networking/API/TicketmasterAPI/TicketmasterAPIEndpoint.swift).
 */
module Endpoint {

  /**
   * The HTTP verbs an endpoint may declare. HTTPMethod.swift is not part of
   * this model; the common verbs are listed, and this app's endpoints use GET.
   */
  datatype HTTPMethod = Get | Post | Put | Patch | Delete

  datatype TicketmasterAPIEndpoint = Events | EventDetails(eventId: string)

  /** `baseURL`: the same for every endpoint. */
  function BaseURL(e: TicketmasterAPIEndpoint): (r: string)
    ensures r == "https://app.ticketmaster.com/discovery/v2"
  {
    "https://app.ticketmaster.com/discovery/v2"
  }

  /** `path`: the full URL string of the endpoint, before query items. */
  function Path(e: TicketmasterAPIEndpoint): (r: string)
    ensures "https://app.ticketmaster.com/discovery/v2/events" <= r
    ensures e.Events? ==> r == "https://app.ticketmaster.com/discovery/v2/events"
    ensures e.EventDetails? ==> r == "https://app.ticketmaster.com/discovery/v2/events/" + e.eventId
  {
    match e
    case Events => BaseURL(e) + "/events"
    case EventDetails(eventId) => BaseURL(e) + "/events/" + eventId
  }

  /** `method`: both endpoints are read with GET, never with a verb that changes data. */
  function Method(e: TicketmasterAPIEndpoint): (r: HTTPMethod)
    ensures r == Get
    ensures r != Post && r != Put && r != Patch && r != Delete
  {
    match e
    case Events => Get
    case EventDetails(_) => Get
  }

  /** The list path is the base URL followed by `/events`. */
  lemma EventsPath()
    ensures Path(Events) == "https://app.ticketmaster.com/discovery/v2/events"
  {
  }

  /** A details path is the list path extended by `/` and the event id. */
  lemma EventDetailsPathExtendsEventsPath(eventId: string)
    ensures Path(EventDetails(eventId)) == Path(Events) + "/" + eventId
  {
  }

  /** Every path starts with the base URL. */
  lemma PathHasBaseURLPrefix(e: TicketmasterAPIEndpoint)
    ensures |BaseURL(e)| <= |Path(e)| && Path(e)[..|BaseURL(e)|] == BaseURL(e)
  {
    var b := BaseURL(e);
    match e
    case Events =>
      assert Path(e) == b + "/events";
    case EventDetails(id) =>
      assert Path(e) == b + ("/events/" + id);
  }

  /** Distinct event ids give distinct details paths, and no details path is the list path. */
  lemma PathInjective(e: TicketmasterAPIEndpoint, f: TicketmasterAPIEndpoint)
    ensures Path(e) == Path(f) ==> e == f
  {
    if Path(e) == Path(f) {
      var prefix := Path(Events) + "/";
      match (e, f)
      case (Events, Events) =>
      case (EventDetails(a), EventDetails(b)) =>
        assert Path(e) == prefix + a && Path(f) == prefix + b;
        assert a == Path(e)[|prefix|..];
        assert b == Path(f)[|prefix|..];
      case (Events, EventDetails(_)) =>
      case (EventDetails(_), Events) =>
    }
  }
}
