/**
 * The countries events can be listed for
 * (Evently/Core/Networking/API/TicketmasterAPI/Events/URLComponents/CountryCode.swift).
 */
module CountryCode {

  datatype Country = Poland

  /** The country's display name. */
  function Name(c: Country): (r: string)
    ensures c == Poland ==> r == "Poland"
  {
    match c
    case Poland => "Poland"
  }

  /** Whether `s` has the shape of an ISO 3166-1 alpha-2 code: two upper-case letters. */
  predicate IsAlpha2(s: string) {
    |s| == 2 && forall i :: 0 <= i < 2 ==> 'A' <= s[i] <= 'Z'
  }

  /** The value of the `countryCode` query parameter. */
  function ApiCode(c: Country): (r: string)
    ensures IsAlpha2(r)
    ensures c == Poland ==> r == "PL"
  {
    match c
    case Poland => "PL"
  }

  /** The enum has a single case, so both mappings are total and constant. */
  lemma SingleCase(c: Country)
    ensures c == Poland && Name(c) == "Poland" && ApiCode(c) == "PL"
  {
  }
}
