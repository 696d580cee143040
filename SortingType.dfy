/**
 * The sort direction used when encoding a strategy
 * (Evently/Modules/EventsList/Views/Components/EventsSortingType.swift).
 * It duplicates EventsSortingValue case for case.
 */
module SortingType {
  import opened Wrappers
  import SortingValue

  datatype EventsSortingType = Ascending | Descending

  /** The enum's `String` raw value. */
  function RawValue(t: EventsSortingType): (r: string)
    ensures (r == "Ascending") <==> t.Ascending?
    ensures (r == "Descending") <==> t.Descending?
  {
    match t
    case Ascending => "Ascending"
    case Descending => "Descending"
  }

  /** `Identifiable.id`: the raw value, which is distinct per case. */
  function Id(t: EventsSortingType): (r: string)
    ensures r == RawValue(t)
    ensures forall u :: RawValue(u) == r <==> u == t
  {
    RawValue(t)
  }

  /** The direction code the Ticketmaster `sort` parameter expects. */
  function ApiCodingName(t: EventsSortingType): (r: string)
    ensures r == "asc" <==> t == Ascending
    ensures r == "desc" <==> t == Descending
    ensures ',' !in r
  {
    match t
    case Ascending => "asc"
    case Descending => "desc"
  }

  /** Reads a direction code back; the inverse of ApiCodingName. */
  function FromApiCodingName(s: string): (r: Option<EventsSortingType>)
    ensures r.Some? ==> ApiCodingName(r.value) == s
  {
    if s == "asc" then Some(Ascending)
    else if s == "desc" then Some(Descending)
    else None
  }

  lemma ApiCodingNameRoundTrip(t: EventsSortingType)
    ensures FromApiCodingName(ApiCodingName(t)) == Some(t)
  {
  }

  /**
   * The EventsSortingValue case with the same name: the two enums agree
   * in raw value and in API code, and the correspondence is one-to-one.
   */
  function Counterpart(t: EventsSortingType): (r: SortingValue.EventsSortingValue)
    ensures SortingValue.RawValue(r) == RawValue(t)
    ensures SortingValue.ApiCodingName(r) == ApiCodingName(t)
    ensures forall u :: u != t ==> SortingValue.RawValue(r) != RawValue(u)
  {
    match t
    case Ascending => SortingValue.Ascending
    case Descending => SortingValue.Descending
  }
}
