# Launch search client: fetch classification and render state

This project models the two core parts of a small browser client for a
public launch-information API:

- **The fetch client** (`src/lib/api.js`). `searchLaunches` and `getLaunch`
  each build one request and reduce everything the network, HTTP and JSON
  layers can produce to either data or "no data".
- **The render-state controller** (`src/lib/ui.js`). It shows a loading
  indicator and disables the search button while a fetch is in flight.
  When the fetch settles, it removes both and renders one result block:
  a results list, a "no results" notice or an error notice. For a single
  launch it renders a detail view.

Modules:

- `Wrappers` (`wrappers.dfy`): the Option type. It stands for JavaScript's
  `null`.
- `Query` (`query.dfy`): document-order queries over a sequence of children.
  `First` is what `querySelector` returns. `Count` is the number of matches.
  `RemoveFirst` is the sequence left after the first match calls `remove()`.
- `Api` (`api.dfy`):
  - the request parameters, built with a model of `URLSearchParams.set`;
  - the records the API returns;
  - a datatype for a settled fetch (`Raw`: a network error, or a response
    with its ok flag and decoded body);
  - the two classifications, as total functions.
- `Ui` (`ui.dfy`):
  - the mutable DOM parts the controller touches, as classes: a `Container`
    holding its top-level children as a `seq<Node>`, a `SearchForm` holding
    its buttons' disabled flags, and a `Page` holding its first `<main>`;
  - `SetLoading`, `SetNotLoading`, `SearchAndRender` and `RenderDetails`, as
    methods with `modifies` clauses, and `CreateSearchResults`, a method
    whose loop builds the list, each proved against a specification function;
  - lemmas about those functions.

The network is injected. `fetch` is a parameter of type
`Request -> Raw<T>` that stands for the response the call settles with.
Each outcome is therefore tied to the request built from the query or id.

Where the code and its own documentation disagree, the model follows the
code:

- The documentation of `getLaunch` (src/lib/api.js:75) promises `null` when
  nothing was found. For an empty `results` array, however, line 92 returns
  `undefined`; `null` comes only from the paths that throw and are caught.
  The model keeps that difference (`Api.JsValue`). The detail view only
  tests truthiness, so both mean "no record".
- On the failure path of `renderDetails`, the element variables stay
  `undefined` and the first of them reaches `appendChild` (src/lib/ui.js:217),
  which throws. The model gives this as the outcome `Rejected`, with the
  parent's children exactly as they were before the call.

## Model

| member | source | states |
|---|---|---|
| `Query.First` | src/lib/ui.js:28 | The index `querySelector` finds: the first child with the marker, with no earlier match; None exactly when no child has the marker. |
| `Query.RemoveFirstAt` | src/lib/ui.js:120-124 | Removing the first match with `remove()` deletes exactly the element at the index `First` reports and keeps the order of the rest; with no match the children are unchanged. |
| `Query.CountRemoveFirst` | src/lib/ui.js:52-56 | Removing the first match lowers the number of matches by exactly one when there was one, and leaves zero at zero. |
| `Query.CountRemoveOther` | src/lib/ui.js:120-128 | Removing the first match of one marker does not change how many children carry a different, disjoint marker. |
| `Api.SetThenGet` | src/lib/api.js:37-38 | After `searchParams.set(name, value)`, `get(name)` returns `value`, the name occurs exactly once, and every other parameter reads as before. |
| `Api.SearchRequestCarriesQuery` | src/lib/api.js:36-38 | The search request goes to the API's `launch` endpoint with exactly `search=<query>` followed by `mode=list`. |
| `Api.DetailRequestCarriesId` | src/lib/api.js:80-81 | The detail request goes to the `launch` endpoint with exactly `id=<id>`. |
| `Api.ClassifySearch` | src/lib/api.js:42-71 | `searchLaunches` gives null on a network error, on a non-ok status whatever the body, and on an unparseable body. It gives a value exactly when the response is ok and `results` is an array (an empty array included), and that value is the array unchanged. |
| `Api.SearchLaunchesAsWritten` | src/lib/api.js:42-71 | A separate transcription of the early returns as written: it throws exactly for an ok response whose body decodes to `null`, and for every other response it returns what `ClassifySearch` gives. |
| `Api.NullDocumentEscapes` | src/lib/api.js:66 | For a 200 response with the body `null`, the code as written throws, while the corrected classification gives null. |
| `Api.SearchLaunches` | src/lib/api.js:35-72 | The exported search, start to finish, with the corrected classification: it yields results exactly when the response to the search request built from the query was ok and carried a `results` array, and the results are that array. |
| `Api.GetLaunch` | src/lib/api.js:79-97 | The exported detail fetch, start to finish: it yields a record exactly when the response to the detail request built from the id was ok and carried a non-empty `results` array, and the record is its first element. |
| `Api.DetailDependsOnlyOnItsRequest` | src/lib/api.js:79-84 | Two data sources that answer the detail request the same way give the same outcome: only the request built from the id is fetched. |
| `Api.SearchReturnsServedResults` | src/lib/api.js:66-71 | The search yields exactly the array `items` if and only if the response was ok and its `results` was that array: no filtering, reordering or deduplication. |
| `Api.SearchDependsOnlyOnItsRequest` | src/lib/api.js:35-43 | Two data sources that answer the search request the same way give the same outcome: only the request built from the query is fetched. |
| `Api.ClassifyDetail` | src/lib/api.js:83-96 | `getLaunch` gives a record exactly when the response is ok and `results` is a non-empty array, and the record is the first element. It gives `undefined` exactly for an ok response whose `results` is an empty array or a falsy scalar. It gives `null` for a network error, a non-ok status, an unparseable or `null` body, and a missing or `null` `results`. |
| `Api.EmptyResultsIsNoRecord` | src/lib/api.js:92 | An empty `results` array gives `undefined`, which is falsy, rather than an error. |
| `Api.DetailFoundExactly` | src/lib/api.js:91-92 | `getLaunch` finds record `d` if and only if the response was ok and its `results` array starts with `d`. |
| `Ui.Container.AppendChild` | src/lib/ui.js:132 | `appendChild` of a new node puts it last and leaves the earlier children as they were. |
| `Ui.Container.RemoveChildAt` | src/lib/ui.js:123 | `remove()` on a child deletes that child and keeps the rest in order. |
| `Ui.SearchForm.SetDisabled` | src/lib/ui.js:42 | `setAttribute('disabled', …)` sets that button's flag and no other button's. |
| `Ui.SearchForm.RemoveDisabled` | src/lib/ui.js:61 | `removeAttribute('disabled')` clears that button's flag and no other button's. |
| `Ui.SetLoading` | src/lib/ui.js:27-44 | The indicator is appended only if none is present. With a form, its first button (if any) is disabled. With no form, only the children change. |
| `Ui.SetNotLoading` | src/lib/ui.js:51-63 | The first indicator, if present, is removed. The first disabled button, if any, is enabled. A form must be given. |
| `Ui.LoadingIsIdempotent` | src/lib/ui.js:28-33 | Entering the loading state twice in a row gives the same children as entering it once. |
| `Ui.LoadingCount` | src/lib/ui.js:28-33 | After entering the loading state there is exactly one indicator if there was none, the same number otherwise, and the same number of results blocks. |
| `Ui.NotLoadingCount` | src/lib/ui.js:52-56 | Leaving the loading state removes exactly one indicator if any was present and leaves the results blocks alone. With at most one indicator before, none is left. |
| `Ui.NotLoadingUndoesLoading` | src/lib/ui.js:28-56 | Leaving the loading state after entering it gives exactly what leaving it alone would. With no indicator before, the children are restored. |
| `Ui.ButtonsSettle` | src/lib/ui.js:39-62 | Disabling and then re-enabling leaves the first button enabled and every other button as it was. |
| `Ui.EntryLinksToLaunch` | src/lib/ui.js:96-97 | Each result entry links to `?id=<id>`, the id can be read back from the link, and the entry shows the launch's name and status name. |
| `Ui.EntriesAt` | src/lib/ui.js:92-101 | The loop produces one entry per result, in input order: entry i is the entry for result i. |
| `Ui.ResultsListShape` | src/lib/ui.js:73-101 | A failed search (null) renders one error notice naming the query. An empty array renders one "no results" notice naming the query. N results render a caption naming the query followed by N entries in input order. |
| `Ui.ResultsListCount` | src/lib/ui.js:89-101 | The list holds exactly one result entry per result, and none for a failed or empty search. |
| `Ui.CreateSearchResults` | src/lib/ui.js:70-104 | The list built by the loop is the specified results list: the error notice for null, the "no results" notice for an empty array, otherwise the caption and the entries. |
| `Ui.SearchSettles` | src/lib/ui.js:120-132 | Suppose `<main>` held at most one results block and at most one indicator. After a search it holds no indicator and exactly one results block, its last child. |
| `Ui.SearchAndRender` | src/lib/ui.js:112-133 | With no `<main>`, nothing changes. Otherwise the first old results block is removed, loading is entered and left, the list for the search outcome is appended last, and the first button ends enabled. The extra `id` argument has no effect. |
| `Ui.DetailsShowWholeRecord` | src/lib/ui.js:194-225 | The detail view's children are, in order: name, window start, window end, status name, status description, mission name, mission description, image (alt = name) and back link. Every field of the record except the id can be read back from them. |
| `Ui.RenderDetails` | src/lib/ui.js:170-227 | The indicator it appends is removed again once the fetch settles. With a record, the detail view is appended last. With none, the first `appendChild(undefined)` rejects and the children are exactly as before. |
| `Ui.FalconScenario` | src/lib/ui.js:89-101 | A search for "falcon" served one launch renders a caption and one entry linking to `?id=1` that shows "Falcon Heavy" and "Go". |
| `Ui.NoMatchScenario` | src/lib/ui.js:79-87 | A search served an empty array renders only the "no results" notice and no entry. |
| `Ui.DetailNetworkErrorScenario` | src/lib/api.js:83-96 | A detail fetch whose network call throws gives `null`, so no data field is rendered. |

## Findings

| source | as written | input that shows it | evidently intended | confidence | as-written member | corrected member |
|---|---|---|---|---|---|---|
| src/lib/api.js:66 | `json.results` is read outside every `try`, so a body that decodes to `null` makes the property access throw and the promise reject. `searchAndRender` then never reaches `setNotLoading`, so the indicator stays and the button stays disabled. | an HTTP 200 response whose body is the JSON text `null` | return `null` like every other unusable payload, as the function's documentation says | high; not executed | `Api.SearchLaunchesAsWritten` (shown by `Api.NullDocumentEscapes`) | `Api.ClassifySearch` |

## Left out

- Real `fetch`, `URL` and `response.json()` are foreign I/O. They are replaced by the injected `fetch` function and the already-decoded `Body`.
- `response.status` and `statusText` appear only in log messages, so `Raw` keeps only the ok flag.
- `console.error` and `console.warn` are a logging side channel and have no effect on any result.
- `sleep` (src/lib/api.js:23-27) is only a timer.
- `renderSearchForm` and `renderFrontpage` wire up event listeners and build markup. `renderFrontpage` also starts `searchAndRender` without awaiting it.
- The `el` element helper is not part of this model. Its results are the `Node`, `Item` and `Field` values.
- Overlapping `searchAndRender` calls on the same page can interleave at the await. The methods here run each call to completion in one step.
- Message wording, emoji, CSS classes other than the `loading` and `results` markers, and HTML attributes are presentation only. The notices carry just the query they name.
- A JSON `results` that is truthy but not an array (an object, a non-empty string, `true`, a non-zero number) is not modelled. `searchLaunches` would return it as-is and `getLaunch` would index into it.
- Array elements that are not launch records (for example `null`) are not modelled.
- The text of a detail field whose value is `undefined` is not modelled. A template string renders it as the word "undefined".
- `querySelector` searches all descendants. The model looks only at a container's top-level children, which is where the `loading` and `results` markers sit. `Page.main` stands for the first `<main>` descendant.
- `renderDetails` re-appends its own indicator node before removing it. Node identity is not modelled: that node is the last child, so the move is the identity and the removal takes the last child.
- `Ui.SearchAndRender`: with a `<main>` but no form, the code removes the indicator and then throws at src/lib/ui.js:58, so the old results block is already gone and no new list is appended. The model makes a form a precondition in that case instead of modelling the rejection.
- `Api.SearchLaunches` composes the corrected `Api.ClassifySearch`: a 200 response whose body is `null` gives None, where the code as written rejects (see Findings).
- `Ui.SearchAndRender` uses the corrected `Api.ClassifySearch`. With the code as written, a `null` body rejects before `setNotLoading` (see Findings).
