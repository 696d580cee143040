/**
 * The sort order requested from the Ticketmaster API
 * (Evently/Core/Networking/API/TicketmasterAPI/Events/EventsSortingStrategy.swift).
 *
 * The Swift file interpolates `EventsSortingValue.name.apiCodingName`, but
 * EventsSortingValue has only the cases ascending and descending; the field
 * codes live in EventsSortingKey. This module encodes what is evidently meant:
 * the key's code from EventsSortingKey, a comma, and the direction's code
 * from EventsSortingType.
 */
module SortingStrategy {
  import opened Wrappers
  import SortingKey
  import SortingValue
  import SortingType

  datatype EventsSortingStrategy =
    | NameAscending
    | NameDescending
    | DateAscending
    | DateDescending
    | RelevanceAscending
    | RelevanceDescending
    | DistanceAscending
    | SaleStartDateAscending
    | VenueNameAscending
    | VenueNameDescending

  /** The strategy a new event list starts with. */
  const Default: EventsSortingStrategy := DateAscending

  /** The ten cases in declaration order. */
  const AllCases: seq<EventsSortingStrategy> :=
    [NameAscending, NameDescending, DateAscending, DateDescending, RelevanceAscending,
     RelevanceDescending, DistanceAscending, SaleStartDateAscending, VenueNameAscending,
     VenueNameDescending]

  /** The key a case sorts by (the first half of its name). */
  function KeyOf(s: EventsSortingStrategy): SortingKey.EventsSortingKey {
    match s
    case NameAscending | NameDescending => SortingKey.Name
    case DateAscending | DateDescending => SortingKey.Date
    case RelevanceAscending | RelevanceDescending => SortingKey.Relevance
    case DistanceAscending => SortingKey.Distance
    case SaleStartDateAscending => SortingKey.SaleStartDate
    case VenueNameAscending | VenueNameDescending => SortingKey.VenueName
  }

  /** The direction a case sorts in (the second half of its name). */
  function DirectionOf(s: EventsSortingStrategy): SortingType.EventsSortingType {
    match s
    case NameAscending | DateAscending | RelevanceAscending | DistanceAscending
      | SaleStartDateAscending | VenueNameAscending => SortingType.Ascending
    case NameDescending | DateDescending | RelevanceDescending | VenueNameDescending => SortingType.Descending
  }

  /** The value of the `sort` query parameter: `<key code>,<direction code>`. */
  function ApiCodingName(s: EventsSortingStrategy): (r: string)
    ensures r == SortingKey.ApiCodingName(KeyOf(s)) + "," + SortingType.ApiCodingName(DirectionOf(s))
  {
    var asc := SortingType.ApiCodingName(SortingType.Ascending);
    var desc := SortingType.ApiCodingName(SortingType.Descending);
    match s
    case NameAscending => SortingKey.ApiCodingName(SortingKey.Name) + "," + asc
    case NameDescending => SortingKey.ApiCodingName(SortingKey.Name) + "," + desc
    case DateAscending => SortingKey.ApiCodingName(SortingKey.Date) + "," + asc
    case DateDescending => SortingKey.ApiCodingName(SortingKey.Date) + "," + desc
    case RelevanceAscending => SortingKey.ApiCodingName(SortingKey.Relevance) + "," + asc
    case RelevanceDescending => SortingKey.ApiCodingName(SortingKey.Relevance) + "," + desc
    case DistanceAscending => SortingKey.ApiCodingName(SortingKey.Distance) + "," + asc
    case SaleStartDateAscending => SortingKey.ApiCodingName(SortingKey.SaleStartDate) + "," + asc
    case VenueNameAscending => SortingKey.ApiCodingName(SortingKey.VenueName) + "," + asc
    case VenueNameDescending => SortingKey.ApiCodingName(SortingKey.VenueName) + "," + desc
  }

  /** The case for a (key, direction) pair, if the sorting sheet offers that pair. */
  function ForPair(k: SortingKey.EventsSortingKey, v: SortingValue.EventsSortingValue): (r: Option<EventsSortingStrategy>)
    ensures r.Some? <==> v in SortingKey.AvailableSortingValues(k)
    ensures r.Some? ==> KeyOf(r.value) == k && SortingType.Counterpart(DirectionOf(r.value)) == v
  {
    match (k, v)
    case (Name, Ascending) => Some(NameAscending)
    case (Name, Descending) => Some(NameDescending)
    case (Date, Ascending) => Some(DateAscending)
    case (Date, Descending) => Some(DateDescending)
    case (Relevance, Ascending) => Some(RelevanceAscending)
    case (Relevance, Descending) => Some(RelevanceDescending)
    case (Distance, Ascending) => Some(DistanceAscending)
    case (SaleStartDate, Ascending) => Some(SaleStartDateAscending)
    case (VenueName, Ascending) => Some(VenueNameAscending)
    case (VenueName, Descending) => Some(VenueNameDescending)
    case _ => None
  }

  /** The text before the first comma and the text after it, or None without a comma. */
  function SplitAtComma(s: string): (r: Option<(string, string)>)
    ensures r.Some? ==> s == r.value.0 + "," + r.value.1 && ',' !in r.value.0
  {
    if s == [] then None
    else if s[0] == ',' then Some(([], s[1..]))
    else match SplitAtComma(s[1..])
      case None => None
      case Some((before, after)) => Some(([s[0]] + before, after))
  }

  lemma {:induction false} SplitAtCommaOfJoin(before: string, after: string)
    requires ',' !in before
    ensures SplitAtComma(before + "," + after) == Some((before, after))
  {
    if before != [] {
      var joined := before + "," + after;
      assert joined[0] == before[0] != ',';
      assert joined[1..] == before[1..] + "," + after;
      SplitAtCommaOfJoin(before[1..], after);
      assert [before[0]] + before[1..] == before;
    }
  }

  /** Reads a `sort` parameter value back into a case; the inverse of ApiCodingName. */
  function FromApiCodingName(s: string): (r: Option<EventsSortingStrategy>)
    ensures r.Some? ==> ApiCodingName(r.value) == s
  {
    match SplitAtComma(s)
    case None => None
    case Some((keyCode, directionCode)) =>
      match (SortingKey.FromApiCodingName(keyCode), SortingType.FromApiCodingName(directionCode))
      case (Some(k), Some(t)) => ForPair(k, SortingType.Counterpart(t))
      case _ => None
  }

  lemma ApiCodingNameRoundTrip(s: EventsSortingStrategy)
    ensures FromApiCodingName(ApiCodingName(s)) == Some(s)
  {
    var k, t := KeyOf(s), DirectionOf(s);
    SplitAtCommaOfJoin(SortingKey.ApiCodingName(k), SortingType.ApiCodingName(t));
    SortingKey.ApiCodingNameRoundTrip(k);
    SortingType.ApiCodingNameRoundTrip(t);
  }

  lemma ApiCodingNameInjective(s: EventsSortingStrategy, u: EventsSortingStrategy)
    ensures ApiCodingName(s) == ApiCodingName(u) ==> s == u
  {
    ApiCodingNameRoundTrip(s);
    ApiCodingNameRoundTrip(u);
  }

  /** Every case is a pair the sorting sheet offers, and every offered pair is exactly one case. */
  lemma CasesAreTheAvailablePairs(k: SortingKey.EventsSortingKey, v: SortingValue.EventsSortingValue)
    ensures v in SortingKey.AvailableSortingValues(k) <==>
      exists s :: KeyOf(s) == k && SortingType.Counterpart(DirectionOf(s)) == v
    ensures forall s, u :: KeyOf(s) == KeyOf(u) && DirectionOf(s) == DirectionOf(u) ==> s == u
  {
    var r := ForPair(k, v);
    if r.Some? {
      assert KeyOf(r.value) == k && SortingType.Counterpart(DirectionOf(r.value)) == v;
    } else {
      forall s | KeyOf(s) == k ensures SortingType.Counterpart(DirectionOf(s)) != v {
        var p := ForPair(KeyOf(s), SortingType.Counterpart(DirectionOf(s)));
        assert p == Some(s) by { match s { case _ => } }
      }
    }
  }

  lemma TenCases()
    ensures |AllCases| == 10
    ensures forall s :: s in AllCases
    ensures forall i, j :: 0 <= i < j < |AllCases| ==> AllCases[i] != AllCases[j]
  {
    forall s ensures s in AllCases {
      match s
      case NameAscending => case NameDescending => case DateAscending => case DateDescending =>
      case RelevanceAscending => case RelevanceDescending => case DistanceAscending =>
      case SaleStartDateAscending => case VenueNameAscending => case VenueNameDescending =>
    }
  }

  /** Whether `r` ends with `suffix`. */
  predicate EndsWith(r: string, suffix: string) {
    |suffix| <= |r| && r[|r| - |suffix|..] == suffix
  }

  /** Ascending cases end in `,asc`, descending ones in `,desc`, and never both. */
  lemma DirectionSuffix(s: EventsSortingStrategy)
    ensures DirectionOf(s) == SortingType.Ascending <==> EndsWith(ApiCodingName(s), ",asc")
    ensures DirectionOf(s) == SortingType.Descending <==> EndsWith(ApiCodingName(s), ",desc")
  {
    var keyCode := SortingKey.ApiCodingName(KeyOf(s));
    var t := DirectionOf(s);
    var joined := keyCode + "," + SortingType.ApiCodingName(t);
    assert ApiCodingName(s) == joined;
    if t == SortingType.Ascending {
      assert joined[|keyCode|..] == ",asc";
      assert joined[|joined| - 4] == ',';
    } else {
      assert joined[|keyCode|..] == ",desc";
      assert joined[|joined| - 4] == 'd';
    }
  }

  lemma DefaultEncoding()
    ensures ApiCodingName(Default) == "date,asc"
  {
  }
}
