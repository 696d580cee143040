# Evently core, modelled in Dafny

Evently is an iOS client that lists concerts and shows from the Ticketmaster
Discovery API and shows the details of one event. Almost all of it is SwiftUI
presentation. This project models the parts that hold state or encode data:

- **EventsList** (`EventsListViewModel.dfy`): the paginated, sortable event-list
  controller. It has an `isLoading` guard. `loadFirstEvents` clears the list and
  fetches page 0. `loadMoreEvents` bumps the page counter and appends.
  `chooseEventsSortingStrategy` sets the strategy and reloads. Each `async`
  operation is split at its network call: a Begin step and `FinishLoadEvents`.
  This shows what happens when calls arrive while a load is in flight.
- **EventsListHistory** (`EventsListHistory.dfy`): the list controller's state
  after any sequence of completed calls, stated from the call history alone.
  It also holds the scenarios of the app's unit tests.
- **EventDetailsVM** (`EventDetailsViewModel.dfy`): the details-screen
  controller. It has no guard and no cache lookup; every load fetches again.
- **DetailsCache** (`DetailsCache.dfy`): the shared details cache, a class over
  a `map` from event id to cached object. NSCache's reclamation under memory
  pressure is an extra operation, `Reclaim`, whose victims the platform chooses.
  A ghost history relates every hit to the latest add for that key.
- **SortingKey**, **SortingValue**, **SortingType**, **SortingStrategy**: the
  sort options, their display names and API codes, and the
  `"<key>,<asc|desc>"` encoding of the ten strategies. The encoding comes with
  a decoder and a round-trip proof.
- **Endpoint**: the two Discovery API URLs. **CountryCode**: the country table.
- **Records**: the decoded records. Equality and hashing use the id alone.
  Date and time display prefers the absolute timestamp and falls back to the
  local date and time.
- **Wrappers**: `Option`.

The network clients and Foundation's date formatters are not modelled. They
enter as parameters: `fetch` functions from a request to an outcome, and a
`DateFormatters` value made of parse and display functions.

The model follows the code wherever the code is well-formed, including
behaviour worth noting. The first two points below are places where the
Swift does not fit together as written; there the model takes the evident
intent and says which:

- `EventsSortingStrategy.swift` interpolates `EventsSortingValue.name.apiCodingName`, which does not exist. The key codes live in `EventsSortingKey`. The model encodes the evident intent: the key's code, a comma, then the direction code from `EventsSortingType`.
- `EventsListViewModel.swift:54-57` calls `fetchEvents(page:with:)` with an `Int` and a strategy. The client protocol takes four strings (country, page, size, sort). `FetchRequest` carries the page and the strategy.
- `loadFirstEvents` requests page 0 but never resets `currentPage`, so a later `loadMoreEvents` continues from the old count (`LoadFirstKeepsPageCounter`).
- Choosing the strategy that is already active still reloads.
- The details controller has no cache-then-network lookup.
- A strategy chosen while a load is in flight is recorded without a reload. The load in flight completes with page 0 fetched under the old strategy, while the strategy field already holds the new one (`CallsDuringLoadAreIgnored`).
- Nothing in either view model clears `showError` or `errorMessage`; the screens' alerts (`EventsListView.swift:30`, `EventDetailsView.swift:29`) reset `showError` when the user dismisses them. Without a dismissal, a later successful load shows its events while the error stays set (`RetryAfterFailure`).
- `Place.swift` declares a struct `Country`, and `CountryCode.swift` declares an enum `Country`. They are kept apart in two modules.

## Model

| member | source | states |
|---|---|---|
| SortingValue.RawValue | Evently/Modules/EventsList/Views/Components/EventsSortingValue.swift:1-4 | "Ascending" and "Descending" are the raw values of exactly their own case |
| SortingValue.Id | Evently/Modules/EventsList/Views/Components/EventsSortingValue.swift:6-10 | the id is the raw value, and distinct cases have distinct ids |
| SortingValue.ApiCodingName | Evently/Modules/EventsList/Views/Components/EventsSortingValue.swift:12-21 | ascending is exactly the case coded `asc` and descending exactly the one coded `desc` |
| SortingValue.AllCasesInOrder | Evently/Modules/EventsList/Views/Components/EventsSortingValue.swift:1-4 | exactly two cases, ascending then descending |
| SortingType.RawValue | Evently/Modules/EventsList/Views/Components/EventsSortingType.swift:1-4 | "Ascending" and "Descending" are the raw values of exactly their own case |
| SortingType.Id | Evently/Modules/EventsList/Views/Components/EventsSortingType.swift:6-10 | the id is the raw value, and distinct cases have distinct ids |
| SortingType.ApiCodingName | Evently/Modules/EventsList/Views/Components/EventsSortingType.swift:12-21 | `asc` for ascending only, `desc` for descending only; no comma in either code |
| SortingType.FromApiCodingName | Evently/Modules/EventsList/Views/Components/EventsSortingType.swift:12-21 | whatever it decodes encodes back to the same text |
| SortingType.ApiCodingNameRoundTrip | Evently/Modules/EventsList/Views/Components/EventsSortingType.swift:12-21 | decoding a direction's code gives back that direction |
| SortingType.Counterpart | Evently/Modules/EventsList/Views/Components/EventsSortingType.swift:1-21 | case for case, EventsSortingType agrees with EventsSortingValue in raw value and API code, one-to-one |
| SortingKey.RawValue | Evently/Modules/EventsList/Views/Components/EventsSortingKey.swift:1-8 | each of the six display strings ("Name" … "Venue Name") is the raw value of exactly its own key |
| SortingKey.Id | Evently/Modules/EventsList/Views/Components/EventsSortingKey.swift:10-14 | the id is the raw value, and distinct keys have distinct ids |
| SortingKey.DisplayName | Evently/Modules/EventsList/Views/Components/EventsSortingKey.swift:16-32 | the displayed name equals the raw value for every key |
| SortingKey.ApiCodingName | Evently/Modules/EventsList/Views/Components/EventsSortingKey.swift:34-49 | every key code is non-empty and has no comma |
| SortingKey.FromApiCodingName | Evently/Modules/EventsList/Views/Components/EventsSortingKey.swift:34-49 | whatever it decodes encodes back to the same text |
| SortingKey.ApiCodingNameRoundTrip | Evently/Modules/EventsList/Views/Components/EventsSortingKey.swift:34-49 | decoding a key's code gives back that key |
| SortingKey.ApiCodingNameInjective | Evently/Modules/EventsList/Views/Components/EventsSortingKey.swift:34-49 | distinct keys have distinct API codes |
| SortingKey.AvailableSortingValues | Evently/Modules/EventsList/Views/Components/EventsSortingKey.swift:51-66 | non-empty, starts with ascending, no duplicates; descending offered exactly for name, date, relevance and venue name |
| SortingKey.AvailablePairs | Evently/Modules/EventsList/Views/Components/EventsSortingKey.swift:51-66 | a pair is listed exactly when its key is listed and its value is available for that key |
| SortingKey.SixKeys | Evently/Modules/EventsList/Views/Components/EventsSortingKey.swift:1-8 | exactly six distinct keys, and every key is among them |
| SortingKey.TenPairs | Evently/Modules/EventsList/Views/Components/EventsSortingKey.swift:51-66 | the six keys offer ten (key, value) pairs in all |
| SortingStrategy.ApiCodingName | Evently/Core/Networking/API/TicketmasterAPI/Events/EventsSortingStrategy.swift:15-38 | each case encodes as its key's API code, a comma, and its direction's API code |
| SortingStrategy.ForPair | Evently/Core/Networking/API/TicketmasterAPI/Events/EventsSortingStrategy.swift:1-12 | a (key, value) pair has a case exactly when the key offers that value, and that case has this key and direction |
| SortingStrategy.FromApiCodingName | Evently/Core/Networking/API/TicketmasterAPI/Events/EventsSortingStrategy.swift:15-38 | whatever it decodes encodes back to the same text |
| SortingStrategy.ApiCodingNameRoundTrip | Evently/Core/Networking/API/TicketmasterAPI/Events/EventsSortingStrategy.swift:15-38 | splitting an encoding at its comma and decoding both halves gives back the case |
| SortingStrategy.ApiCodingNameInjective | Evently/Core/Networking/API/TicketmasterAPI/Events/EventsSortingStrategy.swift:15-38 | distinct cases give distinct `sort` values |
| SortingStrategy.CasesAreTheAvailablePairs | Evently/Core/Networking/API/TicketmasterAPI/Events/EventsSortingStrategy.swift:1-12 | the cases are exactly the pairs the sorting sheet offers, one case per pair |
| SortingStrategy.TenCases | Evently/Core/Networking/API/TicketmasterAPI/Events/EventsSortingStrategy.swift:1-12 | exactly ten distinct cases |
| SortingStrategy.DirectionSuffix | Evently/Core/Networking/API/TicketmasterAPI/Events/EventsSortingStrategy.swift:18-36 | ascending cases are exactly those ending in `,asc`, descending ones exactly those ending in `,desc` |
| SortingStrategy.DefaultEncoding | Evently/Core/Networking/API/TicketmasterAPI/Events/EventsSortingStrategy.swift:22 | the default strategy, date ascending, encodes as `date,asc` |
| Endpoint.BaseURL | Evently/Core/Networking/API/TicketmasterAPI/TicketmasterAPIEndpoint.swift:9-11 | the base URL is `https://app.ticketmaster.com/discovery/v2` for every endpoint |
| Endpoint.Path | Evently/Core/Networking/API/TicketmasterAPI/TicketmasterAPIEndpoint.swift:13-20 | the list URL is `https://app.ticketmaster.com/discovery/v2/events`, a details URL is that followed by `/` and the event id, and every path extends the list URL |
| Endpoint.Method | Evently/Core/Networking/API/TicketmasterAPI/TicketmasterAPIEndpoint.swift:22-29 | both endpoints use GET and none of the other verbs |
| Endpoint.EventsPath | Evently/Core/Networking/API/TicketmasterAPI/TicketmasterAPIEndpoint.swift:15-16 | the list path is the base URL followed by `/events` |
| Endpoint.EventDetailsPathExtendsEventsPath | Evently/Core/Networking/API/TicketmasterAPI/TicketmasterAPIEndpoint.swift:17-18 | a details path is the list path, `/`, then the event id |
| Endpoint.PathHasBaseURLPrefix | Evently/Core/Networking/API/TicketmasterAPI/TicketmasterAPIEndpoint.swift:13-20 | every path starts with the base URL |
| Endpoint.PathInjective | Evently/Core/Networking/API/TicketmasterAPI/TicketmasterAPIEndpoint.swift:17-18 | distinct endpoints, in particular distinct event ids, give distinct paths |
| CountryCode.Name | Evently/Core/Networking/API/TicketmasterAPI/Events/URLComponents/CountryCode.swift:6-11 | Poland's name is `Poland` |
| CountryCode.ApiCode | Evently/Core/Networking/API/TicketmasterAPI/Events/URLComponents/CountryCode.swift:13-18 | every code is two upper-case letters, and Poland's is `PL` |
| CountryCode.SingleCase | Evently/Core/Networking/API/TicketmasterAPI/Events/URLComponents/CountryCode.swift:1-3 | the enum has one case, so both mappings are total |
| Records.EventEquals | Evently/Core/Networking/API/TicketmasterAPI/Events/Event.swift:18-20 | two events are equal exactly when their ids are; identical records are always equal |
| Records.EventHash | Evently/Core/Networking/API/TicketmasterAPI/Events/Event.swift:22-24 | every event equal to this one feeds the hasher the same input, its id |
| Records.EventDetailsEquals | Evently/Core/Networking/API/TicketmasterAPI/EventDetails/EventDetails.swift:21-23 | two details records are equal exactly when their ids are; identical records are always equal |
| Records.EventDetailsHash | Evently/Core/Networking/API/TicketmasterAPI/EventDetails/EventDetails.swift:25-27 | every details record equal to this one feeds the hasher the same input, its id |
| Records.StartDateString | Evently/Core/Networking/API/TicketmasterAPI/Events/Event.swift:28-40 | uses a parseable absolute timestamp when there is one, else the local date; absent exactly when neither parses |
| Records.StartTimeString | Evently/Core/Networking/API/TicketmasterAPI/Events/Event.swift:42-54 | uses a parseable absolute timestamp when there is one, else the local time; absent exactly when the timestamp is unusable and the local time is missing or does not parse |
| Records.EventEqualityIsIdEquivalence | Evently/Core/Networking/API/TicketmasterAPI/Events/Event.swift:18-20 | two events are equal exactly when their ids are, and this equality is reflexive, symmetric and transitive |
| Records.EqualEventsHashAlike | Evently/Core/Networking/API/TicketmasterAPI/Events/Event.swift:22-24 | equal events hash alike under any hasher |
| Records.EventEqualityIgnoresOtherFields | Evently/Core/Networking/API/TicketmasterAPI/Events/Event.swift:17-25 | changing name, place or images keeps an event equal to itself; equal events need not be identical |
| Records.EventDetailsEqualityIsIdEquivalence | Evently/Core/Networking/API/TicketmasterAPI/EventDetails/EventDetails.swift:21-23 | two details records are equal exactly when their ids are; an equivalence relation |
| Records.EqualEventDetailsHashAlike | Evently/Core/Networking/API/TicketmasterAPI/EventDetails/EventDetails.swift:25-27 | equal details records hash alike |
| Records.EventDateString | Evently/Core/Networking/API/TicketmasterAPI/Events/Event.swift:28-40 | an event's date is its start date shown by the StartDateString rule |
| Records.EventTimeString | Evently/Core/Networking/API/TicketmasterAPI/Events/Event.swift:42-54 | an event's time is its start date shown by the StartTimeString rule |
| Records.EventDetailsDateString | Evently/Core/Networking/API/TicketmasterAPI/EventDetails/EventDetails.swift:31-43 | a details record's date follows the same StartDateString rule as an event's |
| Records.EventDetailsTimeString | Evently/Core/Networking/API/TicketmasterAPI/EventDetails/EventDetails.swift:45-57 | a details record's time follows the same StartTimeString rule as an event's |
| Records.ToObject | Evently/Core/Networking/API/TicketmasterAPI/EventDetails/EventDetails.swift:59-61 | the wrapper holds exactly this record, and no other record gives the same wrapper |
| DetailsCache.Apply | Evently/Modules/EventDetails/Cache/EventDetailsCacheManager.swift:18-23 | add stores the entry under its key and overwrites; remove drops the key and is harmless when absent; eviction drops only victims; no other key's entry changes |
| DetailsCache.HitIsLatestAdded | Evently/Modules/EventDetails/Cache/EventDetailsCacheManager.swift:10-23 | after any history of adds, removes and evictions, a stored entry is the one most recently added under its key and not removed since; a key never added, or removed since, is absent |
| DetailsCache.EventDetailsCacheManager.constructor | Evently/Modules/EventDetails/Cache/EventDetailsCacheManager.swift:4-8 | the shared cache starts empty |
| DetailsCache.EventDetailsCacheManager.GetObjectFromCache | Evently/Modules/EventDetails/Cache/EventDetailsCacheManager.swift:10-16 | success exactly when the key is stored, with the stored entry, which is the latest added; otherwise the getObjectError failure; changes nothing |
| DetailsCache.EventDetailsCacheManager.AddObjectToCache | Evently/Modules/EventDetails/Cache/EventDetailsCacheManager.swift:18-20 | the store gains or overwrites this key's entry and nothing else changes |
| DetailsCache.EventDetailsCacheManager.RemoveObjectFromCache | Evently/Modules/EventDetails/Cache/EventDetailsCacheManager.swift:22-24 | the store loses this key and nothing else changes |
| DetailsCache.EventDetailsCacheManager.Reclaim | Evently/Modules/EventDetails/Cache/EventDetailsCacheManager.swift:4 | NSCache's eviction drops the chosen keys and changes no remaining entry |
| DetailsCache.AddThenGet | Evently/Modules/EventDetails/Cache/EventDetailsCacheManager.swift:10-24 | a lookup right after adding a record's wrapper returns it; after removal the lookup fails |
| EventsList.Initial | Evently/Modules/EventsList/ViewModel/EventsListViewModel.swift:5-12 | no events, not loading, no error, no message, date ascending, page 0 |
| EventsList.StartLoad | Evently/Modules/EventsList/ViewModel/EventsListViewModel.swift:50-57 | sets isLoading and requests the given page, or else currentPage, under the current strategy |
| EventsList.FinishLoad | Evently/Modules/EventsList/ViewModel/EventsListViewModel.swift:58-70 | ends loading; success appends the batch in order and keeps earlier error flags; failure keeps the list and sets showError and the message |
| EventsList.BeginLoadFirst | Evently/Modules/EventsList/ViewModel/EventsListViewModel.swift:23-31 | while loading, nothing changes and nothing is requested; otherwise the list is cleared and page 0 is requested with the page counter untouched |
| EventsList.BeginLoadMore | Evently/Modules/EventsList/ViewModel/EventsListViewModel.swift:33-39 | while loading, nothing changes; otherwise the page goes up by one and that page is requested |
| EventsList.BeginChoose | Evently/Modules/EventsList/ViewModel/EventsListViewModel.swift:45-48 | the strategy is always set; when not loading, the list is cleared, isLoading is set, the error fields and page are kept, and page 0 is requested under the new strategy; when loading, nothing else changes and nothing is requested |
| EventsList.Complete | Evently/Modules/EventsList/ViewModel/EventsListViewModel.swift:50-65 | a call that was turned away leaves the state as is; a call that fetched ends not loading |
| EventsList.EventsListViewModel.constructor | Evently/Modules/EventsList/ViewModel/EventsListViewModel.swift:15-21 | a fresh controller is in the initial state |
| EventsList.EventsListViewModel.CheckSortingStrategyIsChoosen | Evently/Modules/EventsList/ViewModel/EventsListViewModel.swift:41-43 | true exactly for the active strategy; reads state only |
| EventsList.EventsListViewModel.HandleError | Evently/Modules/EventsList/ViewModel/EventsListViewModel.swift:67-70 | the message becomes the error's text and showError is set |
| EventsList.EventsListViewModel.StartLoadEvents | Evently/Modules/EventsList/ViewModel/EventsListViewModel.swift:50-57 | follows StartLoad |
| EventsList.EventsListViewModel.FinishLoadEvents | Evently/Modules/EventsList/ViewModel/EventsListViewModel.swift:58-65 | follows FinishLoad |
| EventsList.EventsListViewModel.BeginLoadFirstEvents | Evently/Modules/EventsList/ViewModel/EventsListViewModel.swift:23-31 | follows BeginLoadFirst |
| EventsList.EventsListViewModel.BeginLoadMoreEvents | Evently/Modules/EventsList/ViewModel/EventsListViewModel.swift:33-39 | follows BeginLoadMore |
| EventsList.EventsListViewModel.BeginChooseEventsSortingStrategy | Evently/Modules/EventsList/ViewModel/EventsListViewModel.swift:45-48 | follows BeginChoose |
| EventsList.EventsListViewModel.LoadFirstEvents | Evently/Modules/EventsList/ViewModel/EventsListViewModel.swift:23-31 | the whole call: guard, clear, fetch page 0, finish |
| EventsList.EventsListViewModel.LoadMoreEvents | Evently/Modules/EventsList/ViewModel/EventsListViewModel.swift:33-39 | the whole call: guard, next page, fetch, append or report |
| EventsList.EventsListViewModel.ChooseEventsSortingStrategy | Evently/Modules/EventsList/ViewModel/EventsListViewModel.swift:45-48 | the whole call: set the strategy, then loadFirstEvents |
| EventsListHistory.RunFollowsHistory | Evently/Modules/EventsList/ViewModel/EventsListViewModel.swift:23-65 | after any completed calls, with a client whose answer may differ from call to call: not loading; page = number of loadMore calls; the last chosen strategy; the batches since the last reload in order, no dedup; error shown exactly when a call failed, with the last failure's message |
| EventsListHistory.RequestIsRequestAt | Evently/Modules/EventsList/ViewModel/EventsListViewModel.swift:23-57 | the request any call sends after a history of completed calls is RequestAt's: page 0 for loadFirst and choose, the number of earlier loadMore calls plus one for loadMore, under the strategy chosen last |
| EventsListHistory.TwoPagesOfTwo | EventlyTests/Modules/EventsList/EventsListViewModelTests.swift:58-75 | with a client that returns two events per page, first load gives 2 and load more gives 4, on page 1 |
| EventsListHistory.RetryAfterFailure | Evently/Modules/EventsList/ViewModel/EventsListViewModel.swift:58-70 | a failed first load followed by a successful one shows the second load's events, while, with no alert dismissed in between, showError and the first error message stay set |
| EventsListHistory.CallsDuringLoadAreIgnored | Evently/Modules/EventsList/ViewModel/EventsListViewModel.swift:23-48 | the first load requests page 0 under the old strategy; during it, loadMore and loadFirst change nothing and choosing sets the strategy without a reload; the load then ends with the old strategy's page 0 while the strategy field holds the new one |
| EventsListHistory.LoadFirstKeepsPageCounter | Evently/Modules/EventsList/ViewModel/EventsListViewModel.swift:23-39 | loadFirst requests page 0 but keeps the counter, so loadMore, loadFirst, loadMore ends on page 2 |
| EventsListHistory.LoadTwiceScenario | EventlyTests/Modules/EventsList/EventsListViewModelTests.swift:29-75 | the controller holds 2 events after loadFirst and 4 after loadMore, with no error and not loading |
| EventsListHistory.LoadFailureScenario | EventlyTests/Modules/EventsList/EventsListViewModelTests.swift:43-56 | a failing first load leaves no events, not loading, the error shown with the thrown string as message |
| EventsListHistory.ChooseStrategyScenario | EventlyTests/Modules/EventsList/EventsListViewModelTests.swift:77-94 | name ascending is not chosen on a fresh controller and is after choosing it |
| EventDetailsVM.Initial | Evently/Modules/EventDetails/ViewModel/EventDetailsViewModel.swift:5-8 | no event, not loading, no error, no message |
| EventDetailsVM.BeginLoad | Evently/Modules/EventDetails/ViewModel/EventDetailsViewModel.swift:16-17 | only isLoading is set; there is no guard |
| EventDetailsVM.FinishLoad | Evently/Modules/EventDetails/ViewModel/EventDetailsViewModel.swift:19-31 | ends loading; success stores the record and keeps earlier error flags; failure keeps the event and sets showError and the message |
| EventDetailsVM.EventDetailsViewModel.constructor | Evently/Modules/EventDetails/ViewModel/EventDetailsViewModel.swift:12-14 | a fresh controller for an event id is in the initial state |
| EventDetailsVM.EventDetailsViewModel.HandleError | Evently/Modules/EventDetails/ViewModel/EventDetailsViewModel.swift:28-31 | the message becomes the error's text and showError is set |
| EventDetailsVM.EventDetailsViewModel.BeginLoadEventDetails | Evently/Modules/EventDetails/ViewModel/EventDetailsViewModel.swift:16-17 | follows BeginLoad |
| EventDetailsVM.EventDetailsViewModel.FinishLoadEventDetails | Evently/Modules/EventDetails/ViewModel/EventDetailsViewModel.swift:19-25 | follows FinishLoad |
| EventDetailsVM.EventDetailsViewModel.LoadEventDetails | Evently/Modules/EventDetails/ViewModel/EventDetailsViewModel.swift:16-26 | the whole call: fetch for this screen's event id and finish |
| EventDetailsVM.RunFollowsHistory | Evently/Modules/EventDetails/ViewModel/EventDetailsViewModel.swift:16-31 | after any completed loads: not loading; the event is the last one fetched successfully; error shown exactly when a load failed, with the last failure's message |
| EventDetailsVM.FailedLoadScenario | EventlyTests/Modules/EventDetails/EventDetailsViewModelTests.swift:59-71 | a failing load on a fresh screen leaves no event, not loading, the error shown |
| EventDetailsVM.ReloadScenario | Evently/Modules/EventDetails/ViewModel/EventDetailsViewModel.swift:16-26 | a second load fetches again and its record replaces the first |

## Left out

- The network clients (`TicketmasterEventsAPIClient`, `TicketmasterEventDetailsAPIClient`): URL building, the API key, HTTP and JSON decoding are I/O. The controllers see them as `fetch` functions from a request to an outcome.
- `TicketmasterAPIKeyProvider` reads a plist from the app bundle. It is I/O.
- DateFormatter+Extension.swift is not part of this model. Its parsers and display formatters are the fields of `DateFormatters`: each parser may fail, and each display formatter is total.
- Concurrency is modelled sequentially. This covers `@MainActor`, actor isolation of the cache, and the `Task` that `EventsListViewModel.init` spawns to load the first page; the constructor does not start that load. Suspension points appear only as the Begin/Finish split.
- NSCache's cost and count limits and its eviction policy are not modelled. `Reclaim` drops whichever keys the platform picks.
- `EventDetailsObject` is a reference type in Swift; here it is a value wrapping one record. Its NSCoding/JSON round trip is Foundation behaviour and is left out.
- Records.EventHash: Swift's per-process seeded `Hasher` is a function of the id here, passed as a parameter.
- The `Codable` records and their `CodingKeys` are declarations only. The declarations of `EventImage`, `PriceRange` and `SeatMap` are not part of this model; they are declared here with only the fields the code and tests use.
- `HTTPMethod.swift`, `CacheError`, `APIError` and `String+Error` are not part of this model beyond what is used. That is the `getObjectError` case and the rule that a thrown string's description is the string itself; `HTTPMethod` lists the common verbs, since its declaration is not part of this model.
- Records.EventEquals: compares ids as sequences of code points. Swift's `String ==` and `Hasher` compare by Unicode canonical equivalence, so two ids that differ only in normalisation are equal in Swift and unequal here. The same holds for Records.EventDetailsEquals and the hash functions. The cache's `map<string, …>` also compares code points; NSCache's NSString keys compare literally, which agrees with the map.
- EventsList.BeginLoadMore: `currentPage` is an unbounded `int`. Swift's `currentPage += 1` traps at `Int.max`; the model never traps.
- EventsListHistory.RunFollowsHistory: there is no operation for dismissing the error alert, which sets `showError` back to false through its binding. This lemma and EventDetailsVM.RunFollowsHistory state "showError exactly when a call failed" only for histories in which no alert was dismissed; `errorMessage` is not touched by a dismissal, so its clause holds for every history.
- SwiftUI views, display-mode icons and the details carousel timer are presentation. `toggleDisplayMode`, which the list tests call, does not exist in the view model.
