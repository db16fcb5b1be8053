# hacker-stories search client: the stories state machine

This project models the logic of the search client's single component
(`src/App.js`): the stories reducer with its four actions, the initial
stories record, the fetch handler that dispatches the fetch lifecycle, the
search-input and submit handlers that keep the request URL, and the dismiss
handler. The view components are not modelled.

Three modules:

- `Wrappers` (`wrappers.dfy`): `Option` and `Result`.
- `Stories` (`stories.dfy`): the pure part. `Story`, the `StoriesState`
  record `{data, isLoading, isError}`, the `Action` union, the reducer
  `Reduce`, the list filter `WithoutId` used by the remove case, and lemmas
  about them. The reducer's `throw` on an unknown action type is modelled as
  `Err(UnknownActionType(kind))`, not as a precondition.
- `SearchApp` (`search_app.dfy`): the imperative part. The class `App` holds
  the fields `searchTerm`, `url`, `fetchTerm` and `stories`. Its methods are
  the handlers, and each one states the new state. The HTTP call is a
  parameter: `Some(hits)` when the request resolves, `None` when it rejects.
  `fetchTerm` is the search term that the memoised fetch handler captured. That
  handler is rebuilt only when `url` changes, so its emptiness guard tests the
  submitted term, not the term being typed.

Three points where the code behaves differently from what it seems to intend:

- `useSemiPermanentState("React")` reads like a default term. But it passes
  "React" as the storage key and leaves the initial state `undefined`. With
  nothing stored, the term is `undefined` (`None` here). The initial URL then
  ends in the text "undefined", and the first fetch dispatches nothing.
  `InitialTerm`, `StoredTermRoundTrip` and `Mount` state this.
- The term is appended to the endpoint raw, with no URL-encoding. A term
  holding `#`, `&` or `%` therefore gives a URL whose query, as a server parses
  it, is not the term: "a#b" sends the query "a". The model builds the URL the
  same raw way (`RequestUrl`, `TextAfterEndpoint`).
- Submitting rebuilds the URL. A fetch follows only when the URL string
  changes: an unchanged dependency leaves the memoised handler and its effect
  alone. `App.SearchSubmit` states this.

Mounting the component is `Mount`: the constructor initialises the state, then
the fetch effect runs `App.FetchStories` once. Each applied action is recorded
in the ghost field `App.log`. The class invariant says the held record is the
replay of that log from the initial record. The handlers state how they extend
the log, so the order of the actions they dispatch is proved, not only the
final record.

## Model

| member | source | states |
|---|---|---|
| `Stories.WithoutId` | src/App.js:55-56 | the filtered list is no longer than the input, and a story is in it exactly when it is in the input and its objectID differs from the removed one |
| `Stories.Reduce` | src/App.js:30-61 | the reducer succeeds exactly on the four known actions. INIT sets loading, clears the error and keeps the list. SUCCESS clears both flags and replaces the list by the payload, whatever the prior record. FAILURE clears loading, sets the error and keeps the stale list. REMOVE keeps both flags and filters the list by the item's objectID. Any other type throws |
| `Stories.ReduceAll` | src/App.js:30-61 | dispatching a sequence of actions succeeds exactly when every action in it is a known one |
| `Stories.ReduceAllSnoc` | src/App.js:68-71 | dispatching one more action after a successful run gives the reducer's result on the run's record, so a record built dispatch by dispatch is the replay of its actions |
| `Stories.WithoutIdPreservesOrder` | src/App.js:55-56 | the remaining stories keep their relative order: the result is a subsequence of the list |
| `Stories.WithoutIdCounts` | src/App.js:55-56 | each story with the removed objectID occurs zero times afterwards, and every other story keeps its multiplicity |
| `Stories.WithoutIdUnchangedIff` | src/App.js:55-56 | the list is unchanged if and only if no story carries the removed objectID |
| `Stories.WithoutIdShrinksIff` | src/App.js:55-56 | the list gets strictly shorter if and only if some story carries the removed objectID |
| `Stories.WithoutIdIdempotent` | src/App.js:55-56 | filtering twice by the same objectID equals filtering once |
| `Stories.WithoutIdCommutes` | src/App.js:55-56 | removing two objectIDs gives the same list in either order |
| `Stories.RemoveIdempotent` | src/App.js:51-57 | dispatching REMOVE twice with the same item leaves the same record as dispatching it once |
| `Stories.RemovalsShrink` | src/App.js:51-57 | any run of REMOVE actions succeeds, never lengthens the list, keeps both flags, and leaves no story whose objectID was removed by any action of the run |
| `Stories.RemovalsKeepOnlyFrom` | src/App.js:55-56 | a run of REMOVE actions never adds a story: every story afterwards was there before |
| `SearchApp.RequestUrlText` | src/App.js:65 | the URL built from a term is the endpoint followed by the term's raw text, "undefined" for an undefined term |
| `SearchApp.RequestUrlInjective` | src/App.js:80 | two terms give the same request URL if and only if their texts are equal |
| `SearchApp.InitialTerm` | src/App.js:9-12 | the start-up term is the stored value when that is a non-empty string, and undefined otherwise: no default term |
| `SearchApp.StoredTermRoundTrip` | src/App.js:9-16 | writing a term under the key and reading it back gives the same term if and only if the term is truthy. An undefined term comes back as "undefined", and an empty term comes back undefined |
| `SearchApp.FetchCycleOutcome` | src/App.js:85-100 | from any record, INIT followed by the terminal action ends with loading off. The error flag is set exactly when the request failed. The list is then the hits, or the list from before INIT on failure |
| `SearchApp.App.constructor` | src/App.js:64-71 | the term comes from storage (or is undefined), the URL is the endpoint plus that term, the record is the empty, idle, error-free one and the log is empty |
| `SearchApp.App.Dispatch` | src/App.js:68-71 | dispatching replaces the held record with the reducer's result and appends the action to the log, so the record stays the replay of the log. When the reducer throws, the record and the log are unchanged and the error is returned |
| `SearchApp.App.SearchInput` | src/App.js:75-77 | typing sets the term to the input's value and changes nothing else, the URL in particular |
| `SearchApp.App.FetchStories` | src/App.js:85-100 | with a falsy term nothing is requested, the log is unchanged and so is the record. Otherwise `url` is requested and exactly INIT and then one of SUCCESS (with the hits) or FAILURE are appended to the log. The record then ends idle, holding the hits or the stale list, with the error flag set exactly on failure |
| `SearchApp.App.SearchSubmit` | src/App.js:79-113 | the URL becomes the endpoint plus the current term. An unchanged URL dispatches nothing. A changed URL runs the fetch handler with the submitted term, which appends INIT and one terminal action to the log. A falsy term never dispatches anything |
| `SearchApp.App.RemoveStory` | src/App.js:102-107 | exactly the REMOVE action is appended to the log, and the record becomes the reducer's REMOVE result: a story stays exactly when it was there and its objectID differs from the item's |
| `SearchApp.Mount` | src/App.js:64-113 | after mounting and the first effect, the term is the stored one or undefined. With a falsy term nothing is requested and the record is the initial one. Otherwise the start-up URL is requested, the log is INIT followed by the terminal action, and the record holds the hits, or stays empty with the error flag up |

## Left out

- The view components `SearchForm`, `InputWithLabel`, `List`, `Item` and the JSX render tree are presentational only. The submit button's `disabled` state belongs to them too.
- `axios.get` and the remote search service are network I/O. Their outcome is the `response` parameter of `App.FetchStories` and `App.SearchSubmit`.
- The `localStorage` read and write in `useSemiPermanentState` are browser storage. The value read is the constructor's `stored` parameter. What a write stores appears only in `StoredTermRoundTrip`: there is no storage field.
- React scheduling is left out: effect timing, memoisation bookkeeping and batching. The model runs a submit and its fetch as one step. So it does not capture typing while a request is pending, or a stale response that resolves after a newer request and overwrites its result.
- `App.Dispatch`: when the reducer throws, React propagates the exception to the component tree. The model returns the error and keeps the record.
- `console.log(state)` in the remove case, styled-components, classnames and the CSS modules are side effects and styling.
