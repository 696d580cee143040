/**
 * The decoded Ticketmaster records: the list-level Event, the full
 * EventDetails, their components, and the cache wrapper EventDetailsObject
 * (Evently/Core/Networking/API/TicketmasterAPI/..., Evently/Core/Cache/Objects/).
 * Only identity (`==`, `hash(into:)`) and the date/time display fallbacks
 * carry behaviour; JSON key mapping is the decoder's business and is not modelled.
 */
module Records {
  import opened Wrappers

  // ---- Components (Dates.swift, EventDates.swift) ----

  /** `start` in the API: the local calendar date is always present. */
  datatype StartDate = StartDate(localDate: string, localTime: Option<string>, dateTime: Option<string>)
  datatype Dates = Dates(startDate: StartDate)
  datatype EventStartDate = EventStartDate(localDate: string, localTime: Option<string>, dateTime: Option<string>)
  datatype EventDates = EventDates(startDate: EventStartDate)

  // ---- Venues (Place.swift, EventPlace.swift, Embedded.swift) ----

  datatype Address = Address(line1: Option<string>, line2: Option<string>, line3: Option<string>)
  datatype City = City(name: string)
  datatype Country = Country(name: string)
  datatype Place = Place(name: string, address: Address, city: City, country: Country)
  datatype EventAddress = EventAddress(line1: Option<string>, line2: Option<string>, line3: Option<string>)
  datatype EventCity = EventCity(name: string)
  datatype EventCountry = EventCountry(name: string)
  datatype EventPlace = EventPlace(name: string, address: EventAddress, city: EventCity, country: EventCountry)
  datatype Embedded = Embedded(venues: seq<Place>)

  // ---- Classifications (Classifications.swift, EventClassifications.swift) ----

  datatype Segment = Segment(name: string)
  datatype Genre = Genre(name: string)
  datatype Subgenre = Subgenre(name: string)
  datatype Classifications = Classifications(segment: Segment, genre: Genre, subgenre: Option<Subgenre>)
  datatype EventSegment = EventSegment(name: string)
  datatype EventGenre = EventGenre(name: string)
  datatype EventSubgenre = EventSubgenre(name: string)
  datatype EventClassifications = EventClassifications(segment: EventSegment, genre: EventGenre, subgenre: Option<EventSubgenre>)

  // ---- Types whose declarations are not part of this model, declared with only the fields the code uses ----

  datatype EventImage = EventImage(url: string)
  datatype PriceRange = PriceRange(min: real, max: real, currency: string)
  datatype SeatMap = SeatMap(staticUrl: string)

  // ---- Records ----

  datatype Event = Event(
    id: string,
    name: string,
    dates: Dates,
    place: Option<Place>,
    embedded: Embedded,
    images: seq<EventImage>)

  datatype EventDetails = EventDetails(
    id: string,
    name: string,
    dates: Dates,
    place: Option<Place>,
    classifications: seq<Classifications>,
    priceRanges: Option<seq<PriceRange>>,
    embedded: Embedded,
    images: seq<EventImage>,
    seatMap: Option<SeatMap>)

  /** The list envelope `{ "_embedded": { "events": [...] } }` (EventResponse.swift). */
  datatype ResponseEmbedded = ResponseEmbedded(events: seq<Event>)
  datatype EventResponse = EventResponse(embedded: ResponseEmbedded)

  /** The cache's value type: wraps exactly one EventDetails (EventDetailsObject.swift). */
  datatype EventDetailsObject = EventDetailsObject(eventDetails: EventDetails)

  // ---- Identity ----

  /** Swift `==` on Event: compares ids only, so it holds of identical records and of records that differ elsewhere. */
  predicate EventEquals(a: Event, b: Event): (r: bool)
    ensures a == b ==> r
    ensures r <==> a.id == b.id
  {
    a.id == b.id
  }

  /** Swift `hash(into:)` on Event: only the id is fed to the hasher, here a function of the id. */
  function EventHash(e: Event, hasher: string -> int): (r: int)
    ensures forall b: Event :: EventEquals(e, b) ==> r == hasher(b.id)
  {
    hasher(e.id)
  }

  /** Swift `==` on EventDetails: compares ids only. */
  predicate EventDetailsEquals(a: EventDetails, b: EventDetails): (r: bool)
    ensures a == b ==> r
    ensures r <==> a.id == b.id
  {
    a.id == b.id
  }

  /** Swift `hash(into:)` on EventDetails: only the id is fed to the hasher. */
  function EventDetailsHash(d: EventDetails, hasher: string -> int): (r: int)
    ensures forall b: EventDetails :: EventDetailsEquals(d, b) ==> r == hasher(b.id)
  {
    hasher(d.id)
  }

  /** Event equality is decided by the id alone and is an equivalence relation. */
  lemma EventEqualityIsIdEquivalence(a: Event, b: Event, c: Event)
    ensures EventEquals(a, b) <==> a.id == b.id
    ensures EventEquals(a, a)
    ensures EventEquals(a, b) ==> EventEquals(b, a)
    ensures EventEquals(a, b) && EventEquals(b, c) ==> EventEquals(a, c)
  {
  }

  /** Equal events hash alike, whatever hasher the run uses. */
  lemma EqualEventsHashAlike(a: Event, b: Event, hasher: string -> int)
    requires EventEquals(a, b)
    ensures EventHash(a, hasher) == EventHash(b, hasher)
  {
  }

  /** Two events that differ in every field but the id are still equal. */
  lemma {:induction false} EventEqualityIgnoresOtherFields(e: Event, name: string, place: Option<Place>, images: seq<EventImage>)
    ensures EventEquals(e, e.(name := name, place := place, images := images))
    ensures exists a: Event, b: Event :: EventEquals(a, b) && a != b
  {
    var a := e.(name := "");
    var b := e.(name := "x");
    assert a.name != b.name;
    assert EventEquals(a, b) && a != b;
  }

  /** EventDetails equality is decided by the id alone and is an equivalence relation. */
  lemma EventDetailsEqualityIsIdEquivalence(a: EventDetails, b: EventDetails, c: EventDetails)
    ensures EventDetailsEquals(a, b) <==> a.id == b.id
    ensures EventDetailsEquals(a, a)
    ensures EventDetailsEquals(a, b) ==> EventDetailsEquals(b, a)
    ensures EventDetailsEquals(a, b) && EventDetailsEquals(b, c) ==> EventDetailsEquals(a, c)
  {
  }

  /** Equal details records hash alike. */
  lemma EqualEventDetailsHashAlike(a: EventDetails, b: EventDetails, hasher: string -> int)
    requires EventDetailsEquals(a, b)
    ensures EventDetailsHash(a, hasher) == EventDetailsHash(b, hasher)
  {
  }

  // ---- Date and time display ----

  /**
   * The Foundation formatters of DateFormatter+Extension.swift, which are not
   * part of this model: each parser may fail, each display formatter is total.
   */
  datatype DateFormatters<!Instant> = DateFormatters(
    apiDate: string -> Option<Instant>,
    apiLocalDate: string -> Option<Instant>,
    apiLocalTime: string -> Option<Instant>,
    displayDate: Instant -> string,
    displayTime: Instant -> string)

  /** The absolute timestamp, when it is present and parses. */
  function AbsoluteInstant<Instant>(s: StartDate, f: DateFormatters<Instant>): Option<Instant> {
    match s.dateTime
    case Some(dateTime) => f.apiDate(dateTime)
    case None => None
  }

  /** The date to display: from the absolute timestamp if usable, else from the local date. */
  function StartDateString<Instant>(s: StartDate, f: DateFormatters<Instant>): (r: Option<string>)
    ensures AbsoluteInstant(s, f).Some? ==> r == Some(f.displayDate(AbsoluteInstant(s, f).value))
    ensures AbsoluteInstant(s, f).None? && f.apiLocalDate(s.localDate).Some? ==>
      r == Some(f.displayDate(f.apiLocalDate(s.localDate).value))
    ensures r.None? <==> AbsoluteInstant(s, f).None? && f.apiLocalDate(s.localDate).None?
  {
    match AbsoluteInstant(s, f)
    case Some(date) => Some(f.displayDate(date))
    case None =>
      match f.apiLocalDate(s.localDate)
      case Some(date) => Some(f.displayDate(date))
      case None => None
  }

  /** The time to display: from the absolute timestamp if usable, else from the local time. */
  function StartTimeString<Instant>(s: StartDate, f: DateFormatters<Instant>): (r: Option<string>)
    ensures AbsoluteInstant(s, f).Some? ==> r == Some(f.displayTime(AbsoluteInstant(s, f).value))
    ensures AbsoluteInstant(s, f).None? && s.localTime.Some? && f.apiLocalTime(s.localTime.value).Some? ==>
      r == Some(f.displayTime(f.apiLocalTime(s.localTime.value).value))
    ensures r.None? <==> AbsoluteInstant(s, f).None? && (s.localTime.None? || f.apiLocalTime(s.localTime.value).None?)
  {
    match AbsoluteInstant(s, f)
    case Some(date) => Some(f.displayTime(date))
    case None =>
      match s.localTime
      case None => None
      case Some(localTime) =>
        match f.apiLocalTime(localTime)
        case Some(time) => Some(f.displayTime(time))
        case None => None
  }

  /** Event.dateString: the start date shown by the shared rule. */
  function EventDateString<Instant>(e: Event, f: DateFormatters<Instant>): (r: Option<string>)
    ensures r == StartDateString(e.dates.startDate, f)
  {
    StartDateString(e.dates.startDate, f)
  }

  /** Event.timeString: the start time shown by the shared rule. */
  function EventTimeString<Instant>(e: Event, f: DateFormatters<Instant>): (r: Option<string>)
    ensures r == StartTimeString(e.dates.startDate, f)
  {
    StartTimeString(e.dates.startDate, f)
  }

  /** EventDetails.dateString: the same rule as Event.dateString. */
  function EventDetailsDateString<Instant>(d: EventDetails, f: DateFormatters<Instant>): (r: Option<string>)
    ensures r == StartDateString(d.dates.startDate, f)
  {
    StartDateString(d.dates.startDate, f)
  }

  /** EventDetails.timeString: the same rule as Event.timeString. */
  function EventDetailsTimeString<Instant>(d: EventDetails, f: DateFormatters<Instant>): (r: Option<string>)
    ensures r == StartTimeString(d.dates.startDate, f)
  {
    StartTimeString(d.dates.startDate, f)
  }

  /** EventDetails.toObject: the cache wrapper around exactly this record. */
  function ToObject(d: EventDetails): (o: EventDetailsObject)
    ensures o.eventDetails == d
    ensures forall other: EventDetails :: other != d ==> EventDetailsObject(other) != o
  {
    EventDetailsObject(d)
  }
}
