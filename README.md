# Wagtail content store: a Dafny model

This project models the front end's cache of content fetched from a Wagtail
CMS API. The model covers two parts.

- **The API client, `WagtailApi`.** It gives the path each call requests:
  `/pages/`, `/pages/${id}/`, `/images/` and the home-page listing
  `/pages/?type=home.HomePage&fields=*`. `getPages`, `getPage` and
  `getImages` pass the transport's result through unchanged. `getHomePage`
  picks `response.data?.items?.[0]` and throws `Error('HomePage not found')`
  when that item is missing or falsy.
- **The store, `useWagtailStore`.** It has five fields: `pages`,
  `currentPage`, `homePage`, `isLoading` and `error`. It has four actions:
  `fetchPages`, `fetchPage(id)`, `fetchHomePage` and `clearError`. Each fetch
  goes through the same steps:
  1. It sets `isLoading` and clears `error`.
  2. It awaits one API call.
  3. It settles in one of three ways. A valid value is committed. A locally
     invalid value empties the field and sets a fixed message. A rejection
     empties the field and records the exception's message, or a fixed
     fallback when the thrown value is not an `Error`.
  4. It always turns `isLoading` off.

Modules:

- `JsValue` (js_value.dfy): the JavaScript value semantics the code relies
  on. This covers truthiness, `typeof`, `Array.isArray`, property reads on
  non-nullish values, and a promise settling as `Resolved(value)` or
  `Rejected(thrown value)`.
- `Decimal` (decimal.dfy): the text `${id}` for an integer id, plus the
  parser that inverts it.
- `WagtailApi` (wagtail_api.dfy): the client. The HTTP instance is modelled
  as a parameter `get: string -> Outcome`, a function from request path to
  how the request settles. The `?.` short-circuiting of
  `response.data?.items?.[0]` is `WagtailApi.FirstListedItem`.
- `WagtailStore` (wagtail_store.dfy):
  - `StoreState`, the five fields as one value;
  - the spec functions `AfterFetchPages`, `AfterFetchPage`,
    `AfterFetchHomePage` and `AfterClearError`;
  - the class `Store`, whose fields and methods follow the store's state and
    actions. Each method is proved to leave exactly the state its spec
    function gives.
- `StoreTraces` (store_traces.dfy): runs of any sequence of actions, and what
  holds of every state the store can reach.
- `StoreScenarios` (store_scenarios.dfy): lemmas proved about concrete
  payloads, and a verified client of the `Store` object.

Behaviour of the code worth noting:

- There are no per-resource slots. One `isLoading` and one `error` serve all
  three data fields. A successful fetch of one resource therefore erases the
  message left by a failed fetch of another (`SuccessErasesOtherFailure`).
- No request-generation guard exists. Two fetches of the same resource are
  last-writer-wins (`RefetchForgetsEarlierResult`).
- A failed page-listing fetch leaves `pages = []`, not `null`.
- The success path never assigns `error`; the `null` comes from entering the
  fetch.
- `getPages` and `getPage` do no validation. They have no "not found" or
  "malformed" errors of their own.

## Model

| member | source | states |
|---|---|---|
| `JsValue.IsObjectLike` | frontend/src/stores/wagtail.ts:72 | the guard `v && typeof v === 'object'` lets through exactly arrays and plain objects; null and every primitive or function fail it |
| `JsValue.SetProp` | frontend/src/stores/wagtail.ts:95 | assigning a property changes that property to the new value and no other |
| `JsValue.ReadOfNullish` | frontend/src/api/wagtail.ts:32 | reading `.data` of an undefined or null response throws an `Error` instance |
| `JsValue.Then` | frontend/src/api/wagtail.ts:31 | a rejected request skips the `then` callback and stays rejected with the same reason |
| `Decimal.NatToDecimal` | frontend/src/api/wagtail.ts:27 | a natural renders as a non-empty string of digits with no leading zero (except 0 itself) |
| `Decimal.IntToDecimal` | frontend/src/api/wagtail.ts:27 | `${id}` is non-empty, starts with `-` exactly when the id is negative, and is otherwise digits |
| `Decimal.ParseNatOfNatToDecimal` | frontend/src/api/wagtail.ts:27 | parsing the digits of a natural gives it back |
| `Decimal.IntToDecimalRoundTrip` | frontend/src/api/wagtail.ts:27 | parsing `${id}` gives back the id |
| `Decimal.IntToDecimalInjective` | frontend/src/api/wagtail.ts:27 | distinct ids render as distinct texts |
| `WagtailApi.PagePath` | frontend/src/api/wagtail.ts:26-28 | the page path starts with `/pages/`, ends with `/`, and holds exactly `${id}` between them |
| `WagtailApi.GetPages` | frontend/src/api/wagtail.ts:22-24 | getPages requests `/pages/` and returns the transport's result unchanged (see also `RequestPaths`) |
| `WagtailApi.GetPage` | frontend/src/api/wagtail.ts:26-28 | getPage(id) requests `/pages/${id}/` and returns the transport's result unchanged (see also `PagePathInjective`) |
| `WagtailApi.GetImages` | frontend/src/api/wagtail.ts:39-42 | getImages requests `/images/` and returns the transport's result unchanged |
| `WagtailApi.GetHomePage` | frontend/src/api/wagtail.ts:30-37 | getHomePage requests the home-page listing; a rejection passes through, a resolved response goes through `SelectHomePage` (see also `HomePageRejectionPassesThrough`) |
| `WagtailApi.RequestPaths` | frontend/src/api/wagtail.ts:22-42 | a summary of the four calls' own contracts in one place: getPages, getPage, getImages and getHomePage request `/pages/`, `/pages/${id}/`, `/images/` and `/pages/?type=home.HomePage&fields=*`; the first three return the transport's result unchanged |
| `WagtailApi.PagePathInjective` | frontend/src/api/wagtail.ts:27 | different ids request different paths |
| `WagtailApi.PagePathIsNoFixedPath` | frontend/src/api/wagtail.ts:22-42 | no id makes getPage request the listing, home-page or image path |
| `WagtailApi.FirstListedItem` | frontend/src/api/wagtail.ts:32 | `response.data?.items?.[0]` is the first element of an array listing, undefined for an empty one, and undefined when `data` or `items` is missing or nullish |
| `WagtailApi.SelectHomePage` | frontend/src/api/wagtail.ts:31-36 | the callback resolves exactly when `data?.items?.[0]` is truthy, and then to that item; otherwise it throws `Error('HomePage not found')`; a nullish response throws a TypeError; every failure is an `Error` instance |
| `WagtailApi.HomePageIsFirstItem` | frontend/src/api/wagtail.ts:32-33 | a truthy first listed item is returned exactly |
| `WagtailApi.HomePageNotInListing` | frontend/src/api/wagtail.ts:32-35 | an empty listing, or a falsy first item, fails with "HomePage not found" |
| `WagtailApi.HomePageMissingListing` | frontend/src/api/wagtail.ts:32-35 | a missing or nullish `data` or `items` fails with the same message, through optional chaining |
| `WagtailApi.HomePageIgnoresLaterItems` | frontend/src/api/wagtail.ts:32-33 | two listings with the same first item give the same outcome, whatever follows it |
| `WagtailApi.HomePageRejectionPassesThrough` | frontend/src/api/wagtail.ts:30-37 | a rejected home-page request reaches the caller unchanged |
| `WagtailStore.CaughtMessage` | frontend/src/stores/wagtail.ts:59 | the catch clauses record an Error's own message and a fixed fallback for any other thrown value (the same expression at lines 79 and 103; its effect on the state is in the `AfterFetch*` contracts) |
| `WagtailStore.Enter` | frontend/src/stores/wagtail.ts:48-49 | entering a fetch sets loading, clears the error, and leaves the three data fields as they were |
| `WagtailStore.HasItemsArray` | frontend/src/stores/wagtail.ts:52 | the listing check holds exactly for an object whose `items` is an array, empty arrays included |
| `WagtailStore.NormalizeFeaturedImage` | frontend/src/stores/wagtail.ts:94-97 | the `featured_image` reassignment returns the home page unchanged |
| `WagtailStore.AfterFetchPages` | frontend/src/stores/wagtail.ts:47-65 | fetchPages ends not loading and leaves currentPage and homePage alone; no error exactly when the result is a listing with an `items` array, and then `pages` is those items; any error leaves `pages` empty; the error is "Invalid response format from API" for a bad listing, or the Error's message, or "Failed to fetch pages" |
| `WagtailStore.AfterFetchPage` | frontend/src/stores/wagtail.ts:67-85 | fetchPage ends not loading and leaves pages and homePage alone; no error exactly when the result is an array or object, which is then the current page; any error leaves it null; the error is "Invalid page data received", the Error's message, or "Failed to fetch page" |
| `WagtailStore.AfterFetchHomePage` | frontend/src/stores/wagtail.ts:87-109 | fetchHomePage ends not loading and leaves pages and currentPage alone; no error exactly when the result is an array or object, committed unchanged; any error leaves homePage null; the error is "Invalid homepage data received", the Error's message, or "Failed to fetch homepage" |
| `WagtailStore.AfterClearError` | frontend/src/stores/wagtail.ts:111-113 | clearError clears the error and changes nothing else |
| `WagtailStore.Store.constructor` | frontend/src/stores/wagtail.ts:38-44 | the store starts with no pages, null current and home page, not loading, no error |
| `WagtailStore.Store.BeginFetch` | frontend/src/stores/wagtail.ts:48-49 | while the API call is awaited, the state is the entering state of `Enter` |
| `WagtailStore.Store.FetchPages` | frontend/src/stores/wagtail.ts:47-65 | the action leaves exactly `AfterFetchPages` of the old state and of what `getPages()` gave, and keeps the object invariant |
| `WagtailStore.Store.FetchPage` | frontend/src/stores/wagtail.ts:67-85 | the action leaves exactly `AfterFetchPage` of the old state and of what `getPage(id)` gave |
| `WagtailStore.Store.FetchHomePage` | frontend/src/stores/wagtail.ts:87-109 | the action leaves exactly `AfterFetchHomePage` of the old state and of what `getHomePage()` gave |
| `WagtailStore.Store.ClearError` | frontend/src/stores/wagtail.ts:111-113 | the action leaves exactly `AfterClearError` of the old state |
| `StoreTraces.InitialIsSettled` | frontend/src/stores/wagtail.ts:38-44 | the initial state is `[]`, null, null, not loading, no error, and satisfies the settled invariants |
| `StoreTraces.StepSettles` | frontend/src/stores/wagtail.ts:47-113 | every fetch ends not loading; every action keeps the store settled; after any action an error sits beside an emptied field |
| `StoreTraces.FetchFrame` | frontend/src/stores/wagtail.ts:47-109 | a fetch writes only its own data field, besides the shared flag and message |
| `StoreTraces.FetchErrorEmptiesField` | frontend/src/stores/wagtail.ts:47-109 | after a fetch settles with an error, that fetch's field is empty (`[]` or null) |
| `StoreTraces.RunStaysSettled` | frontend/src/stores/wagtail.ts:47-113 | any sequence of actions from a settled state ends settled, with any error beside an emptied field |
| `StoreTraces.ReachableIsSettled` | frontend/src/stores/wagtail.ts:38-113 | no state reachable from the initial one is loading, holds a non-object page, or shows an error beside three filled fields |
| `StoreTraces.LastFetchDecidesError` | frontend/src/stores/wagtail.ts:47-109 | whatever came before, a run ending in a fetch that errs leaves that fetch's field empty |
| `StoreTraces.RefetchForgetsEarlierResult` | frontend/src/stores/wagtail.ts:47-109 | two fetches of one resource give the state of the second alone: last writer wins, with no stale-value fallback |
| `StoreTraces.ClearErrorIdempotent` | frontend/src/stores/wagtail.ts:111-113 | clearing twice is clearing once; clearing with no error is a no-op |
| `StoreTraces.SuccessErasesOtherFailure` | frontend/src/stores/wagtail.ts:33-34 | the single error field means a later successful page fetch erases a listing failure's message while `pages` stays empty |
| `StoreScenarios.ListingIsCommitted` | frontend/src/stores/wagtail.ts:52-53 | a one-page listing with `meta` is committed as that one page, without error |
| `StoreScenarios.ItemsNotAnArray` | frontend/src/stores/wagtail.ts:54-56 | a string `items` gives `pages = []` and "Invalid response format from API" |
| `StoreScenarios.EmptyListingIsCommitted` | frontend/src/stores/wagtail.ts:52-53 | an empty `items` array is a valid empty listing |
| `StoreScenarios.PageRequestTimesOut` | frontend/src/stores/wagtail.ts:78-80 | a rejected `getPage(5)` with Error "timeout" gives a null current page and the error "timeout" |
| `StoreScenarios.NonErrorRejection` | frontend/src/stores/wagtail.ts:59 | a thrown non-Error gives each action's fallback message |
| `StoreScenarios.PageCheckAdmitsArrays` | frontend/src/stores/wagtail.ts:72-76 | an array passes the page check, a string does not |
| `StoreScenarios.HomePageWithImage` | frontend/src/stores/wagtail.ts:91-97 | a listed home page with a featured image is committed as listed, image id included |
| `StoreScenarios.HomePageListingEmpty` | frontend/src/api/wagtail.ts:32-35 | an empty home-page listing reaches the store as the error "HomePage not found" with a null home page |

## Left out

- The HTTP instance from `src/boot/axios` is not part of this model. It is
  the parameter `get`. Whether it resolves to the raw response or to the
  unwrapped body is not known, so the resolved value is an abstract
  `JsVal`. The two reading conventions of the three calls are modelled as
  written: `fetchPages` reads `.items` of the result, and `getHomePage` reads
  `.data.items[0]`.
- Pinia plumbing (`defineStore`, reactivity, the singleton lookup) is
  framework glue and is not modelled.
- The `console.error` calls only produce output and are not modelled.
- Overlapping, interleaved fetches are not modelled. Each action is one
  sequential method given its outcome. With interleaving, the single
  `isLoading` could be cleared by one fetch while another is still in
  flight, and a late older response could overwrite a newer one.
- TypeScript interfaces and the `as WagtailImage` / `as Page` casts have no
  runtime effect. Data values are opaque `JsVal`s.
- JavaScript property reads only see a plain object's own properties.
  Prototype-chain properties, getters and array or string `length` are not
  modelled; arrays, strings and functions carry no named properties.
- A resolved item whose `then` property is a function (`Obj(map["then" := Fn])`)
  would be adopted as a thenable by the promise; the model does not model
  that adoption and returns such an item unchanged.
- Decimal.IntToDecimal: page ids are unbounded integers, and the text is
  exact only for safe integers (magnitude at most 2^53 - 1). Beyond that no
  JavaScript number holds every integer, and Number::toString prints the
  shortest digits that round to the number, padded with zeros
  (`${2**60}` is "1152921504606847000", the model gives
  "1152921504606846976"). Non-integral numbers, NaN and infinities are not
  modelled either. WagtailApi.PagePath, WagtailApi.GetPage and
  WagtailStore.Store.FetchPage inherit this: their path is the JavaScript
  one only for safe-integer ids.
- JsValue.Index: a Dafny string is a sequence of Unicode scalar values, not
  UTF-16 code units, so indexing a string differs from JavaScript for
  characters outside the Basic Multilingual Plane (JavaScript yields a lone
  surrogate, the model the whole character). No store outcome depends on it:
  a string never passes the object checks.
- JsValue.ReadOfNullish: the TypeError's message uses the V8 engine's
  wording. Other engines word it differently.
- WagtailStore.NormalizeFeaturedImage: the property assignment is modelled
  as always succeeding. Frozen objects and setters, which could make it throw
  or change other state, are not modelled.
- JsValue.JsVal: numbers are reals plus NaN, and infinities are left out.
  Every check here treats an infinity like any non-zero number.
- `getImages` has no logic beyond its path and pass-through
  (`WagtailApi.RequestPaths`).
