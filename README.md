# u-gallery feed controller, in Dafny

This project models the feed controller of u-gallery's main page. The
controller is the `Body` component in `src/Pages/MainPage.tsx`. It keeps four
pieces of state:

- `data`: no list yet, or the list of photos shown;
- `error`: the first message of the last error payload, cleared by an exception;
- `query`: the committed search term;
- `searchInput`: the text in the search box.

Three kinds of event change that state:

- a key press in the search box (Enter commits the text as the query);
- a change of the box's text;
- the settling of one photo request: an error payload, a response, or an
  exception.

A response's results are merged with per-photo view and download statistics.
An exception replaces the feed with ten placeholder photos. The photo service
itself is not modelled. Its answers are inputs: a `SearchOutcome` per request,
and one `StatsOutcome` per result of a response.

Files and modules:

- `decimal.dfy` (`Decimal`): how `${n}` spells a non-negative
  integer below 10^21 (every array index is one), with its inverse. The placeholder ids
  use it.
- `photos.dfy` (`Photos`): the `Photo` record, the positional statistics merge
  (`Enrich`, `EnrichAll`) and the placeholder list (`Placeholders`).
- `feed.dfy` (`Feed`): the controller state `FeedState` and its transition
  functions (`PressKey`, `ChangeInput`, `Settle`; `Step` for one event, which
  ignores key and input events while loading; `Run` over a sequence of
  events). It also holds the class `Body`, whose fields are the four pieces of
  state. Each method of `Body` performs one event in place. It is proved to
  reach the state the matching transition function gives.

Facts about the code that the model keeps:

- The search box exists only once the feed is shown: while `data` is null
  `Body` renders only the loading view (src/Pages/MainPage.tsx:123-125). In
  the model, `Feed.Step` lets key and input events change nothing while
  loading.
- A throwing request yields ten placeholder photos
  (src/Pages/MainPage.tsx:94-109).
- Enter commits the box's text as typed, empty text included
  (src/Pages/MainPage.tsx:117-121).
- The first query is always `"moody"` (src/Pages/MainPage.tsx:67).
- A response is applied whichever query it was requested for; nothing
  discards a late response (src/Pages/MainPage.tsx:70-111).
  `Feed.LastSettledWins` states this.
- The feed holds the results of one request (src/Pages/MainPage.tsx:89).
- `HistoryPage` reads `searchHistory` from `localStorage`; nothing in
  `src/Pages/MainPage.tsx` writes it.

## Model

| member | source | states |
|---|---|---|
| Photos.Enrich | src/Pages/MainPage.tsx:77-87 | On a successful lookup, `views` and `downloads` become the reported totals. On a failed lookup, the photo comes back exactly as received. In both cases id, likes, size, URL, color and user are unchanged. |
| Photos.EnrichAll | src/Pages/MainPage.tsx:76-88 | The merged page has the length of the results. Photo i of the output is photo i of the input merged with lookup i, for any pattern of outcomes. |
| Photos.EnrichAllKeepsIds | src/Pages/MainPage.tsx:76-89 | The merge keeps the ids in order. A page whose ids are distinct list keys stays one. |
| Photos.PlaceholderPhoto | src/Pages/MainPage.tsx:95-108 | Placeholder i has id `placeholder-` followed by i in decimal. Its likes, views and downloads are 0, its size is 600 by 400 and it has no color. It has the shared error image and the placeholder user. |
| Photos.Placeholders | src/Pages/MainPage.tsx:94-109 | The fallback list has exactly 10 entries, and entry i is placeholder i. |
| Photos.PlaceholderIdInjective | src/Pages/MainPage.tsx:96 | Two placeholder ids are equal exactly when their indices are. |
| Photos.PlaceholderIdsDistinct | src/Pages/MainPage.tsx:95-96 | The ten placeholder ids are pairwise distinct, as the list keys at line 139 require. |
| Photos.PlaceholderIdsSpelledOut | src/Pages/MainPage.tsx:95-96 | The placeholder ids are `placeholder-0` through `placeholder-9`, in order. |
| Decimal.NatToString | src/Pages/MainPage.tsx:96 | `${index}` is a non-empty string of decimal digits with no leading zero. It is one character long exactly when the number is below 10. |
| Decimal.ParseNatToString | src/Pages/MainPage.tsx:96 | Reading the decimal spelling back gives the number. |
| Decimal.NatToStringInjective | src/Pages/MainPage.tsx:96 | Different numbers have different spellings. |
| Feed.PressKey | src/Pages/MainPage.tsx:117-121 | Enter sets the query to the box's text. Any other key changes nothing. No key changes data, error or the box's text. |
| Feed.ChangeInput | src/Pages/MainPage.tsx:133 | Typing sets only the box's text. The query, data and error are unchanged. |
| Feed.Settle | src/Pages/MainPage.tsx:70-111 | An error payload sets the error to its first message and keeps data. A response replaces data with exactly the merged page and keeps the error. An exception clears the error and sets data to the 10 placeholders. No outcome touches the query or the box's text. |
| Feed.LoadingUntilData | src/Pages/MainPage.tsx:123-125 | After any run of events, the loading view shows exactly when it showed before and no response or exception arrived. Once photos are shown, the loading view never returns. |
| Feed.LoadingFromInitial | src/Pages/MainPage.tsx:64-68 | Starting from the first render, the loading view shows exactly until the first response or exception. Error payloads alone keep it. |
| Feed.LoadingKeepsInput | src/Pages/MainPage.tsx:123-136 | As long as the loading view still shows after a run of events, the query and the box's text are what they were before the run, because the search box is not rendered. |
| Feed.LoadingFromInitialKeepsInput | src/Pages/MainPage.tsx:64-68 | From the first render, whenever the loading view shows, the query is `"moody"` and the box is empty. |
| Feed.QueryChangesOnlyOnEnter | src/Pages/MainPage.tsx:117-121 | If no Enter is pressed, the query stays as it was, whatever is typed and whatever requests settle. |
| Feed.DataKept | src/Pages/MainPage.tsx:73-74 | Key presses, typing and error payloads leave data as it was. |
| Feed.LastSettledWins | src/Pages/MainPage.tsx:89-109 | After any history, data is exactly what the last response or exception produced. Earlier results are replaced, never appended to. Which query a request was made for is not checked. |
| Feed.Body.constructor | src/Pages/MainPage.tsx:64-68 | The initial state: no data, no error, query `"moody"`, empty box. |
| Feed.Body.HandleSearch | src/Pages/MainPage.tsx:113-121 | Callable only once the feed is shown. The new state is `PressKey` of the old one. `refetch` is true exactly when the committed query changed, which is what triggers a new request for it. |
| Feed.Body.HandleInputChange | src/Pages/MainPage.tsx:133 | Callable only once the feed is shown. The new state is `ChangeInput` of the old one. |
| Feed.Body.FetchSettled | src/Pages/MainPage.tsx:70-111 | The new state is `Settle` of the old one, performed field by field. |
| Feed.Body.ShowsLoading | src/Pages/MainPage.tsx:123-125 | The loading view shows exactly when `IsLoading` holds of the state, that is when there is no data. An empty list counts as data. |

## Left out

- The network calls `api.search.getPhotos` and `api.photos.getStats`, and the construction of the API client. They are a foreign library over the network. Their answers are inputs to the model: `SearchOutcome` and `StatsOutcome`.
- The concurrency of `Promise.all`. The statistics lookups are merged positionally. The order in which they settle is not modelled, because the merge does not depend on it.
- A lookup that throws, as opposed to one that returns a failure payload. It makes `Promise.all` reject, so the catch branch runs. Nothing is set before that throw, so the model folds it into the single outcome `Threw`, the same as a throwing search call.
- `result.errors[0]` of an empty error list is `undefined` in the source. The model writes this as an absent error (`None`), the same as `null`.
- The `console.error` logging in the catch branch. It is output only.
- `formatNumber`. It wraps `Intl.NumberFormat`, which is not visible.
- JSX rendering, `PhotoComp`, and mounting under `createRoot`.
- The `useEffect` wiring. The model only records, as `HandleSearch`'s `refetch` result, that a change of the committed query triggers one request. The request on first mount is not modelled as an event.
- `Decimal.NatToString` spells every non-negative integer in plain decimal; it matches `${n}` only below 10^21, where JavaScript switches to exponent form. The placeholder indices are 0 to 9.
- JavaScript numbers are modelled as unbounded integers. This covers likes, sizes and statistics totals. Floating point is not modelled.
- `src/Pages/HistoryPage.tsx`. It reads `localStorage`, runs `JSON.parse` and navigates; it has no logic of its own.
- `src/App.tsx`, `src/routers.tsx` and `src/Components/TabsHeader.tsx`. They are routing tables and static markup.
