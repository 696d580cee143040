/**
 * The field a user can sort the event list by
 * (Evently/Modules/EventsList/Views/Components/EventsSortingKey.swift).
 */
module SortingKey {
  import opened Wrappers
  import SortingValue

  datatype EventsSortingKey = Name | Date | Relevance | Distance | SaleStartDate | VenueName

  /** `CaseIterable.allCases`: the six cases in declaration order. */
  const AllCases: seq<EventsSortingKey> := [Name, Date, Relevance, Distance, SaleStartDate, VenueName]

  /** The enum's `String` raw value. */
  function RawValue(k: EventsSortingKey): (r: string)
    ensures (r == "Name") <==> k.Name?
    ensures (r == "Date") <==> k.Date?
    ensures (r == "Relevance") <==> k.Relevance?
    ensures (r == "Distance") <==> k.Distance?
    ensures (r == "Sale Start Date") <==> k.SaleStartDate?
    ensures (r == "Venue Name") <==> k.VenueName?
  {
    match k
    case Name => "Name"
    case Date => "Date"
    case Relevance => "Relevance"
    case Distance => "Distance"
    case SaleStartDate => "Sale Start Date"
    case VenueName => "Venue Name"
  }

  /** `Identifiable.id`: the raw value, which is distinct per case. */
  function Id(k: EventsSortingKey): (r: string)
    ensures r == RawValue(k)
    ensures forall j :: RawValue(j) == r <==> j == k
  {
    RawValue(k)
  }

  /** The `name` property shown in the sorting sheet, written out case by case. */
  function DisplayName(k: EventsSortingKey): (r: string)
    ensures r == RawValue(k)
  {
    match k
    case Name => "Name"
    case Date => "Date"
    case Relevance => "Relevance"
    case Distance => "Distance"
    case SaleStartDate => "Sale Start Date"
    case VenueName => "Venue Name"
  }

  /** The field code the Ticketmaster `sort` parameter expects. */
  function ApiCodingName(k: EventsSortingKey): (r: string)
    ensures ',' !in r
    ensures k == SaleStartDate ==> r == "onSaleStartDate"
    ensures |r| > 0
  {
    match k
    case Name => "name"
    case Date => "date"
    case Relevance => "relevance"
    case Distance => "distance"
    case SaleStartDate => "onSaleStartDate"
    case VenueName => "venueName"
  }

  /** Reads a field code back; the inverse of ApiCodingName. */
  function FromApiCodingName(s: string): (r: Option<EventsSortingKey>)
    ensures r.Some? ==> ApiCodingName(r.value) == s
  {
    if s == "name" then Some(Name)
    else if s == "date" then Some(Date)
    else if s == "relevance" then Some(Relevance)
    else if s == "distance" then Some(Distance)
    else if s == "onSaleStartDate" then Some(SaleStartDate)
    else if s == "venueName" then Some(VenueName)
    else None
  }

  lemma ApiCodingNameRoundTrip(k: EventsSortingKey)
    ensures FromApiCodingName(ApiCodingName(k)) == Some(k)
  {
  }

  lemma ApiCodingNameInjective(j: EventsSortingKey, k: EventsSortingKey)
    ensures ApiCodingName(j) == ApiCodingName(k) ==> j == k
  {
    ApiCodingNameRoundTrip(j);
    ApiCodingNameRoundTrip(k);
  }

  /** The directions the sorting sheet offers for a key. */
  function AvailableSortingValues(k: EventsSortingKey): (r: seq<SortingValue.EventsSortingValue>)
    ensures |r| > 0 && r[0] == SortingValue.Ascending
    ensures forall i, j :: 0 <= i < j < |r| ==> r[i] != r[j]
    ensures SortingValue.Descending in r <==> k in {Name, Date, Relevance, VenueName}
  {
    match k
    case Name => [SortingValue.Ascending, SortingValue.Descending]
    case Date => [SortingValue.Ascending, SortingValue.Descending]
    case Relevance => [SortingValue.Ascending, SortingValue.Descending]
    case Distance => [SortingValue.Ascending]
    case SaleStartDate => [SortingValue.Ascending]
    case VenueName => [SortingValue.Ascending, SortingValue.Descending]
  }

  /** The (key, value) pairs the sorting sheet offers, key by key in case order. */
  function AvailablePairs(keys: seq<EventsSortingKey>): (r: seq<(EventsSortingKey, SortingValue.EventsSortingValue)>)
    ensures forall k, v :: (k, v) in r <==> k in keys && v in AvailableSortingValues(k)
  {
    if keys == [] then []
    else
      var k := keys[0];
      [(k, SortingValue.Ascending)]
      + (if SortingValue.Descending in AvailableSortingValues(k) then [(k, SortingValue.Descending)] else [])
      + AvailablePairs(keys[1..])
  }

  lemma SixKeys()
    ensures |AllCases| == 6
    ensures forall k :: k in AllCases
    ensures forall i, j :: 0 <= i < j < |AllCases| ==> AllCases[i] != AllCases[j]
  {
    forall k ensures k in AllCases {
      match k
      case Name => case Date => case Relevance =>
      case Distance => case SaleStartDate => case VenueName =>
    }
  }

  lemma TenPairs()
    ensures |AvailablePairs(AllCases)| == 10
  {
    var all := AllCases;
    assert |AvailablePairs(all[5..])| == 2;
    assert |AvailablePairs(all[4..])| == 3 by { assert all[4..][1..] == all[5..]; }
    assert |AvailablePairs(all[3..])| == 4 by { assert all[3..][1..] == all[4..]; }
    assert |AvailablePairs(all[2..])| == 6 by { assert all[2..][1..] == all[3..]; }
    assert |AvailablePairs(all[1..])| == 8 by { assert all[1..][1..] == all[2..]; }
  }
}
