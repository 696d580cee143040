/**
 * The direction a user picks in the sorting sheet
 * (Evently/Modules/EventsList/Views/Components/EventsSortingValue.swift).
 */
module SortingValue {

  datatype EventsSortingValue = Ascending | Descending

  /** `CaseIterable.allCases`: the cases in declaration order. */
  const AllCases: seq<EventsSortingValue> := [Ascending, Descending]

  /** The enum's `String` raw value. */
  function RawValue(v: EventsSortingValue): (r: string)
    ensures (r == "Ascending") <==> v.Ascending?
    ensures (r == "Descending") <==> v.Descending?
  {
    match v
    case Ascending => "Ascending"
    case Descending => "Descending"
  }

  /** `Identifiable.id`: the raw value, which is distinct per case. */
  function Id(v: EventsSortingValue): (r: string)
    ensures r == RawValue(v)
    ensures forall w :: RawValue(w) == r <==> w == v
  {
    RawValue(v)
  }

  /** The direction code the Ticketmaster `sort` parameter expects. */
  function ApiCodingName(v: EventsSortingValue): (r: string)
    ensures r == "asc" <==> v == Ascending
    ensures r == "desc" <==> v == Descending
  {
    match v
    case Ascending => "asc"
    case Descending => "desc"
  }

  lemma AllCasesInOrder()
    ensures |AllCases| == 2 && AllCases[0] == Ascending && AllCases[1] == Descending
    ensures forall v :: v in AllCases
  {
    forall v ensures v in AllCases {
      match v
      case Ascending =>
      case Descending =>
    }
  }
}
