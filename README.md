# Book finder search pipeline, in Dafny

This project models the search pipeline of a small React app that searches
Open Library by title and proves properties of the model. It has three parts:

- **The app's search state** (`src/App.jsx`). The app holds the query, the
  page, the books on screen, the reported total, a loading flag and an error
  message. They change through the search bar's `handleSearch`, the
  recent-search chips, the pagination buttons, the Retry button and the load
  effect.
  - The load effect's `cancel` flag is modelled as a request token. Every
    load takes the next token, and only the completion carrying the latest
    token is applied. Latest request wins.
  - The page-number window of the `Pagination` component, its navigation
    buttons and the page count `totalPages` are modelled too.
- **The Open Library client** (`src/lib/api.js`).
  - `fetchBooksByTitle` skips blank titles. For other titles it sends one
    request with the trimmed title, maps each raw search document to a book
    record (key fallback chain, defaults), defaults `numFound` to 0 and
    rejects non-2xx answers.
  - `coverUrl` builds the cover-image URL.
- **The debounced search box** (`src/components/SearchBar.jsx`). Every text
  change cancels the pending timer. A blank text is reported at once; any
  other text arms one 600 ms timer for its trimmed form. Enter and the Search
  button report immediately. The button is disabled while the spinner shows.

Files:

| file | contents |
|---|---|
| `basics.dfy` | `Option`, `Result`, `Min`, `Max` |
| `strings.dfy` | ECMAScript `String.prototype.trim`, decimal rendering of integers and reading it back |
| `api.dfy` | module `Api`: raw documents, book records, `fetchBooksByTitle`, `coverUrl` |
| `pagination.dfy` | module `Paging`: the page window (an imperative loop proved against a reference window), the navigation buttons, `totalPages` |
| `controller.dfy` | module `Controller`: the app's transitions as functions on a `Session` value, with the invariant and race lemmas. Module `AppComponent`: the state slots as the fields of class `App`, whose methods perform those transitions |
| `search_bar.dfy` | module `Debounce`: the search box's reactions as functions, with the debounce lemmas. Module `SearchBarComponent`: class `SearchBar`, whose methods update its fields in place |

Time, the network and React's scheduler are not modelled as such. A timer
expiry, a fetch's completion and a run of the load effect are each an event,
and the answer to a request is a parameter (`send`).

## Model

| member | source | states |
|---|---|---|
| Paging.Pagination | src/App.jsx:13-25 | The loop that clips the window start and end and pushes `start..end` returns exactly the reference window: `min(5, totalPages)` consecutive pages whose first page is `page - 2`, clamped into `[1, totalPages - len + 1]`. It returns nothing when there are no pages. |
| Paging.WindowShape | src/App.jsx:14-25 | The window is ascending and consecutive, lies inside `[1, totalPages]` and has at most 5 entries. When there are pages it has exactly `min(5, totalPages)` entries. It contains `page` if and only if `1 <= page <= totalPages`. |
| Paging.WindowExamples | src/App.jsx:13-25 | (1, 10) gives 1..5; (10, 10) gives 6..10; (5, 10) gives 3..7; (1, 1) gives [1]. |
| Paging.Nav | src/App.jsx:29-49 | First and previous lead to 1 and `max(1, page-1)` and are disabled exactly on page 1. Next and last lead to `min(totalPages, page+1)` and `totalPages` and are disabled exactly when `page >= totalPages`. On an existing page every target exists, and an enabled previous or next moves by one page. |
| Paging.TotalPages | src/App.jsx:95 | At least 1. Otherwise exactly the number of 20-item pages needed to hold `totalResults`, or the number of books held when `totalResults` is 0. |
| Paging.TotalPagesPrefersReportedTotal | src/App.jsx:95 | The count takes the reported total when it is non-zero and the books held only otherwise, not the larger of the two: a total of 1 with 40 books held gives one page. |
| Controller.Issued | src/App.jsx:76-80 | A load issues no fetch for the empty query. Otherwise it issues one fetch for the current query and page, under the token after the session's current one. |
| Controller.IssuedIsAwaited | src/App.jsx:74-92 | Right after a load for a non-empty query, the session awaits exactly the issued ticket's token, query and page, and that ticket's completion is applied: the flag drops, and a success shows its books while a failure shows the message. After a load for the empty query, nothing is issued and no completion, whatever its token, changes anything. |
| Controller.HandleSearch | src/App.jsx:68-71 | The new query and page 1, with books, total, message, token, loading flag and awaited-fetch flag untouched. The next load fetches page 1 of the new query, or nothing when it is empty. |
| Controller.SetPage | src/App.jsx:171 | The page asked for, unclamped, with everything else but the page untouched (the loading and awaited-fetch flags included). For a non-empty query the next load fetches that page. |
| Controller.Retry | src/App.jsx:177-182 | The message cleared and page 1, with the query, books, total, token, loading flag and awaited-fetch flag untouched. For a non-empty query the next load fetches page 1 of the same query. |
| Controller.TotalPages | src/App.jsx:95 | The page count of a session: at least 1, the number of 20-item pages that hold a positive total, or the books held when the total is 0, and exactly 1 for a negative total or for a zero total with no books (the initial session). |
| Controller.Step | src/App.jsx:68-182 | One event, with the load effect as written (`Controller.LoadAsWritten`) or corrected (`Controller.Load`), as its flag says. Only a load moves the token, by one. Searches, page changes and retries leave the books, the total and the loading state alone. |
| Controller.Run | src/App.jsx:68-182 | A sequence of events applied in order, with the load as written or corrected throughout. The token advances by exactly the number of loads in it, so it never goes back. |
| Controller.LoadAsWritten | src/App.jsx:73-78 | The effect as written. For the empty query it empties the books and leaves loading, error and total unchanged. Otherwise it raises loading and clears the error, keeping books and total. Either way it supersedes the previous run. |
| Controller.Load | src/App.jsx:73-78 | As `LoadAsWritten`, except that the empty-query branch also lowers the loading flag (see Findings). |
| Controller.Complete | src/App.jsx:80-89 | Only the completion of the latest load, while its fetch is outstanding, is applied. Success replaces books and total. Failure sets "Failed to fetch results. Try again." and keeps the books. Both lower loading. Any other completion changes nothing. |
| Controller.RunKeepsHonest | src/App.jsx:73-93 | With the corrected load (`Controller.Load`, not the effect as written; see Findings), over any sequence of searches, page changes, retries, loads and completions, the loading flag is up exactly while the latest load's fetch is outstanding. |
| Controller.SupersededCompletionIgnored | src/App.jsx:74-92 | For the load as written and the corrected one alike: once a later load has been issued, an earlier load's completion, whatever its outcome, changes nothing. |
| Controller.DuneScenario | src/App.jsx:68-95 | A search shows the spinner. A result of 45 matches stops it and gives three pages. Moving to page 2 and loading shows page 2's books. |
| Controller.FailureScenario | src/App.jsx:85-88 | A failed search keeps the books on screen, shows the message and lowers the spinner. |
| Controller.RaceScenario | src/App.jsx:74-92 | Page 1's answer arrives after page 2's. Only page 2's books and total are shown, and the spinner is down. |
| Controller.EmptyQueryKeepsTotal | src/App.jsx:76 | The empty query issues no fetch and empties the books, but the page count still reflects the previous search's total. |
| Controller.EmptyLoadStrandsSpinner | src/App.jsx:76 | As written, clearing the query while a fetch is in flight leaves loading up with no fetch outstanding. |
| Controller.StrandedSpinnerStaysUp | src/App.jsx:76-88 | Such a stranded flag stays up through any events until the next load, whichever load variant the run uses. |
| Controller.EmptyLoadClearsSpinner | src/App.jsx:76 | With the corrected load, the same sequence ends with the spinner down and the books empty. |
| AppComponent.App.constructor | src/App.jsx:56-64 | Starts with query "harry potter", page 1, no books, total 0, not loading, no error. |
| AppComponent.App.HandleSearch | src/App.jsx:68-71 | Sets the query to `q` and the page to 1, and keeps the loading invariant. |
| AppComponent.App.SelectRecent | src/App.jsx:148-151 | A recent chip makes the same two updates as `handleSearch`. |
| AppComponent.App.SetPage | src/App.jsx:171 | The pagination's `onChange` sets the page it is given, unclamped. |
| AppComponent.App.Retry | src/App.jsx:177-182 | Clears the error and returns to page 1. The query stays as it is. |
| AppComponent.App.Load | src/App.jsx:73-93 | Performs the corrected load in place and returns the fetch it issues. When there is one, that fetch carries the new latest token and the spinner is up. |
| AppComponent.App.Complete | src/App.jsx:80-89 | Applies a completion in place, exactly as `Controller.Complete`, and keeps the loading invariant. |
| AppComponent.App.TotalPages | src/App.jsx:95 | The page count of the current state, at least 1. |
| Api.FirstTruthy | src/lib/api.js:27 | JavaScript's chained logical or: the first truthy operand, or the last operand when none is. The result is one of the operands, and it is truthy whenever any operand is. |
| Api.Normalize | src/lib/api.js:26-36 | The key is one of `key`, `cover_edition_key`, `edition_key[0]` and `title`: the first truthy one, else the title. It is non-empty whenever the title is. Missing author names, ISBNs or subjects become empty lists; a missing or zero edition count becomes 0; title, subtitle, first publish year and cover id are copied. |
| Api.NormalizeDefaults | src/lib/api.js:30-35 | A document without lists and edition count gets every default. |
| Api.NormalizeAll | src/lib/api.js:26 | One record per document, in the same order. |
| Api.NormalizeAllKeysPresent | src/lib/api.js:26-27 | Every document with a non-empty title maps to a record with a non-empty key. |
| Api.HandleResponse | src/lib/api.js:20-38 | A network failure or a non-2xx status rejects, and so does an undecodable or `null` body. A 2xx status with any other body succeeds: missing `docs` gives no results, and `numFound` defaults to 0. |
| Api.FetchBooksByTitle | src/lib/api.js:11-24 | No request is sent exactly when the title is blank, and then the result is an empty page with `numFound` 0. Otherwise exactly one request is sent, carrying the trimmed (non-empty) title, the page and the page size as limit, and the result is what its answer decodes to. |
| Api.FetchKeysPresent | src/lib/api.js:11-38 | Every record of a successful search whose title is non-empty has a non-empty key. |
| Api.CoverUrl | src/lib/api.js:42-45 | No URL exactly for a falsy id (absent or 0). Otherwise the URL starts with the covers endpoint and ends with `.jpg`. |
| Api.CoverUrlRoundTrip | src/lib/api.js:42-45 | The URL encodes `<id>-<size>` with size defaulting to "M". Reading it back gives the id, negative ids included, and the size. |
| Strings.Trim | src/lib/api.js:12 | The trimmed title is empty exactly when the title is blank (whitespace or line terminators only). |
| Strings.TrimShape | src/components/SearchBar.jsx:15 | The trim is the slice of the text between a whitespace prefix and a whitespace suffix, and neither of its ends is whitespace. |
| Strings.TrimIdempotent | src/components/SearchBar.jsx:31 | Trimming a trimmed text changes nothing. |
| Debounce.Effect | src/components/SearchBar.jsx:12-28 | The value effect cancels the pending timer. A blank value reports "" at once and stops typing. Any other value starts typing and arms one timer for its trimmed, non-empty text, reporting nothing yet. |
| Debounce.Step | src/components/SearchBar.jsx:12-76 | Each event reports at most one query. A new value leaves no timer or one for its own trimmed text. A timer expiry reports what it was armed with and leaves none. Enter reports the trimmed text and keeps the timer. A click reports exactly when the spinner is hidden. |
| Debounce.Mount | src/components/SearchBar.jsx:7-28 | The first render holds the initial text and runs the effect once: a blank text reports "" with no typing and no timer; any other text reports nothing yet, starts typing and arms a timer for its trimmed form. It establishes the invariant. |
| Debounce.Explicit | src/components/SearchBar.jsx:30-34 | `handleSearch`: reports the trimmed text and stops typing, leaving the text and the pending timer as they are, and keeps the invariant. |
| Debounce.Run | src/components/SearchBar.jsx:12-76 | A sequence of events applied in order, collecting the reports; there are never more reports than events. |
| Debounce.StepKeepsInv | src/components/SearchBar.jsx:12-34 | Each event keeps the invariant. While typing, a timer is pending, and a pending timer holds the current text trimmed and non-empty. |
| Debounce.RunKeepsInv | src/components/SearchBar.jsx:12-34 | The invariant holds after any sequence of events. |
| Debounce.TimerReportsCurrentText | src/components/SearchBar.jsx:22-24 | A timer that fires reports the trimmed text in the box at that moment. |
| Debounce.ClearingReportsAtOnce | src/components/SearchBar.jsx:13-19 | Clearing the box reports "" at once, stops typing and cancels whatever was pending. |
| Debounce.BurstLeavesOneTimer | src/components/SearchBar.jsx:13-27 | A burst of non-blank texts with no expiry in between reports nothing and leaves exactly one timer, for the last text. |
| Debounce.BurstCoalesces | src/components/SearchBar.jsx:13-27 | When the quiet interval then passes, the burst is reported once, as its last text trimmed, and typing stops. |
| Debounce.EnterThenTimerReportsTwice | src/components/SearchBar.jsx:30-34 | Enter does not cancel the pending timer: Enter then the expiry report the same text twice. |
| Debounce.ButtonDisabledWhileSpinning | src/components/SearchBar.jsx:36-76 | A click reports what Enter would, exactly when the spinner is hidden. |
| SearchBarComponent.SearchBar.constructor | src/components/SearchBar.jsx:7-28 | Mounting with the initial text performs the effect once and keeps the invariant. |
| SearchBarComponent.SearchBar.ValueEffect | src/components/SearchBar.jsx:12-28 | Updates the typing flag, the timer and the report list in place, as `Debounce.Effect`. |
| SearchBarComponent.SearchBar.OnChange | src/components/SearchBar.jsx:68 | A change of text runs the effect; the same text changes nothing. The invariant is kept. |
| SearchBarComponent.SearchBar.TimerFired | src/components/SearchBar.jsx:22-25 | The pending timer reports and clears in place, keeping the invariant. |
| SearchBarComponent.SearchBar.HandleSearch | src/components/SearchBar.jsx:30-34 | Reports the trimmed text and stops typing, in place; the timer is untouched. |
| SearchBarComponent.SearchBar.ClickButton | src/components/SearchBar.jsx:74-76 | Reports only while the spinner is hidden. |
| SearchBarComponent.SearchBar.ShowSpinner | src/components/SearchBar.jsx:36 | Typing or loading, equal to the predicate `Debounce.ShowSpinner` on the current state (which has no contract of its own); when it is false the box is not typing. |

## Left out

- The real `fetch`, `res.json()`, the `Date.now()` cache-buster, `encodeURIComponent` and the base URL of the search endpoint are left out. The request is a value (trimmed title, page, limit), and `send` gives its answer.
- A body whose `docs` is not an array, or whose fields have other JSON types than the ones the app reads, is not modelled. A body is either undecodable, `null`, or an object whose `docs` and `numFound` may be absent.
- Numbers are unbounded integers. `NaN`, fractional ids and the decimal rendering of very large numbers are not modelled.
- `fetchBooksByTitle`'s default options (`page` 1, `perPage` 20) are left out: `Api.FetchBooksByTitle` takes both explicitly, as the app's only call (src/App.jsx:80) always passes both.
- `String(title || "")` on a non-string title is left out: titles are strings.
- `handleSearch(q)`'s `q || ""` on a non-string argument is left out: queries are strings. For a string `q` it is `q`.
- The theme flag, the recent-search list and their `localStorage` persistence are left out. The recent chips are modelled only as the query they submit.
- The display components (book grid, card, modal) and all rendering are left out.
- React scheduling is not modelled: when effects run, batching, and whether Retry's `setQuery(q => q)` re-runs the load effect. A load is an explicit event.
- `onSearch?.(...)` when no callback is given is left out. Each report is recorded in the emitted list.
- Real timers are abstract. Expiry is an event, and the 600 ms interval is a constant that no proof uses.
- Where the code admits another reading, the model follows the code:
  - The page count uses `totalResults || books.length`, not the larger of the two.
  - The pagination's `setPage` does not clamp the page.
  - An empty-query load keeps `totalResults`, so the page count keeps the previous search's total.
- AppComponent.App.Load: performs the corrected load, `Controller.Load`. The code as written is `Controller.LoadAsWritten`; see Findings.
- Debounce.BurstCoalesces: proved for any burst of non-blank texts rather than for one literal example such as typing "h", "ha", "har". That example is an instance of the lemma.

## Findings

| source | as written | input that shows it | evidently intended | confidence | as-written member | corrected member |
|---|---|---|---|---|---|---|
| src/App.jsx:76 | A load for the empty query only empties the books. It starts no fetch but still supersedes (cancels) the fetch in flight, whose `finally` then skips `setLoading(false)`. | Search "dune" (the load raises loading), then clear the box before the answer arrives. The effect runs with query "", and the "dune" answer is then ignored. `loading` stays true with no fetch outstanding, so the results spinner stays and the Search button stays disabled until the next non-empty search. | The empty-query branch also lowers the loading flag, so the flag is up exactly while a fetch of the latest load is outstanding. | medium; not executed | Controller.LoadAsWritten (shown by Controller.EmptyLoadStrandsSpinner and Controller.StrandedSpinnerStaysUp) | Controller.Load (with Controller.RunKeepsHonest and Controller.EmptyLoadClearsSpinner) |
