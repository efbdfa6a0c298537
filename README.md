# Stock market tracker: client-side logic in Dafny

This project models the client-side logic of a small browser stock tracker. It
covers three React components. The network calls are replaced by events whose
outcomes are parameters.

- **Watchlist** (`watchlist.dfy`, module `Watchlist`) models the watchlist
  context. It holds the ordered list of watched stocks. On mount it starts empty
  and fetches the list once. An add appends the candidate at once, then sends a
  one-row batch to the store, renaming `price` to `rate`. A successful persist
  triggers exactly one refetch. A failed persist raises an alert and keeps the
  appended entry. A successful fetch replaces the list wholesale, and a failed
  fetch leaves it alone. The view is modelled too: the empty message, or one row
  per entry. The pure step functions `Mounted`, `Fetching`, `Added`,
  `PersistSettled` and `FetchSettled` specify the methods of the class
  `WatchlistProvider`. The lemmas state the properties of those functions.
- **Login** (`login.dfy`, module `Login`) models the credential checks and the
  two submit handlers. `validateEmail` is a first-`@` split. It is proved to
  accept exactly the language of `^[^\s@]+@[^\s@]+\.[^\s@]+$`, with JavaScript's
  `\s`. `validatePassword` compares the password's UTF-16 length with 6. Login
  and register both check the e-mail address first and the password second, and
  send a request only when both pass. The replies set the logged-in flag, switch
  back to the login form, or show the server's message or a fallback.
- **StockSearch** (`stock_search.dfy`, module `StockSearch`) models the search
  panel. It covers the suggestion table and the upper-casing of the input, and
  the three outcomes of a search. It also covers the dates the chart plots (the
  first thirty keys, reversed) and the candidate handed to the watchlist. That
  candidate is the current search term paired with the first date's close. The
  term can differ from the symbol whose data is loaded: the user may edit the
  input after a search, or a later search may fail and keep the old data.
  `SearchPanel.AddToWatchlist` calls `WatchlistProvider.Add`.
- `wrappers.dfy` (module `Wrappers`) holds the `Option` type.

Requests are recorded when they are sent. Each one settles later as a separate
event whose outcome the caller supplies: `Ok`, `NotOk` or `Threw` for a persist,
`ok` and the returned rows for a fetch, a `Reply` for login and register, and a
`SearchReply` for a search. Pending requests may settle in any order, one at a
time.

A failed fetch is only logged (src/components/Watchlist.js:18, 21), so the
model records nothing for it. A failed persist shows one of two alerts, one for
a bad status (src/components/Watchlist.js:46) and one for an exception
(src/components/Watchlist.js:50), and the model keeps both.

## Model

| member | source | states |
|---|---|---|
| `Watchlist.WatchlistProvider.constructor` | src/components/Watchlist.js:8-27 | the provider mounts with an empty list, exactly one fetch sent and pending, and no persist pending |
| `Watchlist.WatchlistProvider.FetchWatchlist` | src/components/Watchlist.js:11-13 | a fetch adds one fetch request and one pending fetch, and changes nothing else |
| `Watchlist.WatchlistProvider.Add` | src/components/Watchlist.js:29-40 | the new state is `Added`: the optimistic append, the one-row persist request and one more pending persist |
| `Watchlist.WatchlistProvider.PostOutcome` | src/components/Watchlist.js:42-51 | the new state is `PersistSettled`: the settled persist is removed, its alert is shown, and a refetch is sent only on success |
| `Watchlist.WatchlistProvider.FetchOutcome` | src/components/Watchlist.js:12-22 | the new state is `FetchSettled`: one fewer pending fetch; the list becomes the returned rows on success and is unchanged otherwise |
| `Watchlist.Mounted` | src/components/Watchlist.js:8-27 | after mounting, the list is empty, the requests are exactly one fetch, nothing else is pending, no alert is shown, and the provider invariant holds |
| `Watchlist.Fetching` | src/components/Watchlist.js:11-13 | sending a fetch adds exactly one fetch request and one pending fetch, and leaves the list, the pending persists and the alerts alone |
| `Watchlist.Added` | src/components/Watchlist.js:29-40 | an add appends the candidate to the list, adds one pending persist for it, and sends no fetch and no alert |
| `Watchlist.PersistSettled` | src/components/Watchlist.js:42-51 | a settled persist leaves the list alone, removes one pending persist, shows exactly one alert (the saved alert with the symbol, the rejected alert, or the error alert), and sends a fetch only on success |
| `Watchlist.FetchSettled` | src/components/Watchlist.js:12-22 | a settled fetch sends nothing and shows no alert; on success the list is exactly the returned rows, in order; otherwise it is unchanged |
| `Watchlist.FetchingPreservesValid` | src/components/Watchlist.js:11-13 | sending a fetch keeps the invariant: every request sent is pending or settled, exactly once, and every pending persist has its request in the log |
| `Watchlist.AddedPreservesValid` | src/components/Watchlist.js:29-40 | an add keeps the same invariant |
| `Watchlist.PersistSettledPreservesValid` | src/components/Watchlist.js:42-51 | settling a persist, whatever its outcome, keeps the same invariant |
| `Watchlist.FetchSettledPreservesValid` | src/components/Watchlist.js:14-22 | settling a fetch, on success or failure, keeps the same invariant |
| `Watchlist.QuietMeansAllSettled` | src/components/Watchlist.js:11-51 | once nothing is pending, the settled fetches are all the fetches sent, and the settled fetches and persists together are all the requests sent |
| `Watchlist.AddAppendsOptimistically` | src/components/Watchlist.js:29-39 | after an add, the candidate is the last element, the length grows by one, and earlier entries are unchanged; the only request sent is `[{symbol, rate: price}]`, and no fetch is sent |
| `Watchlist.FetchReplacesWholesale` | src/components/Watchlist.js:14-16 | a successful fetch installs exactly the returned rows, in order, whatever the list held before |
| `Watchlist.FetchFailureKeepsList` | src/components/Watchlist.js:17-22 | a failed fetch, by status or by exception, leaves the list and the requests unchanged |
| `Watchlist.RefreshIdempotent` | src/components/Watchlist.js:11-23 | two successful fetches that return the same rows leave the same list as one |
| `Watchlist.PersistSuccessRefetchesOnce` | src/components/Watchlist.js:42-44 | a successful persist sends exactly one more request, a fetch, shows the success alert with the symbol, and leaves the list unchanged |
| `Watchlist.PersistFailureKeepsEntry` | src/components/Watchlist.js:45-51 | a failed persist sends nothing, leaves the list unchanged, and shows the alert for a bad status or for an exception |
| `Watchlist.AddThenFailedPersist` | src/components/Watchlist.js:29-51 | an add followed by a failed persist leaves the old list plus the candidate, and sends no fetch |
| `Watchlist.AddThenReconcile` | src/components/Watchlist.js:29-44 | an add, a successful persist and a successful refetch leave exactly the rows the store returned |
| `Watchlist.TableRowsAsWritten` | src/components/Watchlist.js:82-87 | reading `item.rate` on every entry succeeds exactly when every entry is a fetched row, and then gives one row per entry, in order |
| `Watchlist.RenderAsWritten` | src/components/Watchlist.js:71-90 | the view as written shows the empty message exactly when the list is empty, and throws exactly when some entry is an optimistic one |
| `Watchlist.Render` | src/components/Watchlist.js:71-87 | the corrected view of the Findings row: it shows the empty message exactly when the list is empty, and otherwise one row per entry, in list order, with its symbol and price |
| `Watchlist.RenderAgreesOnStoredRows` | src/components/Watchlist.js:71-87 | on a list of fetched rows, the view as written and the corrected view show the same thing |
| `Watchlist.OptimisticEntryBreaksView` | src/components/Watchlist.js:82-85 | as written, rendering the list right after any add throws; the corrected view shows the candidate as the last row |
| `Watchlist.PersistedRowRendersAlike` | src/components/Watchlist.js:39 | the persist body is one row that renders exactly as the optimistic entry it replaces |
| `Watchlist.TslaScenario` | src/components/Watchlist.js:29-44 | from an empty store, adding TSLA at 250.5 and reconciling sends fetch, persist `[TSLA, 250.5]`, fetch, and the view shows the single row TSLA, 250.5 |
| `Login.ValidateEmail` | src/components/Login.js:14-17 | an accepted address has at least five characters, contains an '@', and does not start with one |
| `Login.ValidateEmailMatchesPattern` | src/components/Login.js:14-17 | `validateEmail(e)` holds iff `e` is `L@D1.D2`, where L, D1 and D2 are non-empty and have no white space and no '@' |
| `Login.RejectsUnlessOneAt` | src/components/Login.js:15 | an address with no '@', or with two or more, is rejected |
| `Login.Utf16Length` | src/components/Login.js:21 | a string's JavaScript length is at least its number of characters and at most twice that |
| `Login.ValidatePassword` | src/components/Login.js:20-22 | six characters always pass, and a passing password has at least three characters |
| `Login.PasswordThreshold` | src/components/Login.js:20-22 | six characters always pass and fewer than three never do; without astral characters, a password passes iff it has at least six characters |
| `Login.CheckCredentials` | src/components/Login.js:29-36 | a request goes ahead iff both checks pass; an invalid address gives the e-mail error, and a valid one with a short password gives the password error |
| `Login.ErrorText` | src/components/Login.js:49 | the shown text is the server's message when it is present and non-empty, else the fallback; it is never empty when the fallback is not |
| `Login.Submitted` | src/components/Login.js:26-43 | a submit never changes the mode or the logged-in flag; when both checks pass the error is cleared and exactly this request is sent and pending; otherwise the error is the e-mail or the password message and nothing is sent |
| `Login.Settled` | src/components/Login.js:44-85 | a settled request is removed from the pending ones and sends nothing; the flag becomes set exactly by an ok login reply, login mode is restored exactly by an ok register reply, an exception shows the generic error, and an ok reply leaves the error alone |
| `Login.LoginForm.constructor` | src/components/Login.js:6-10 | the form starts in login mode with no error and no request sent |
| `Login.LoginForm.SwitchMode` | src/components/Login.js:121 | the mode buttons change only the mode |
| `Login.LoginForm.Submit` | src/components/Login.js:26-36 | the error is cleared first; a failed check sets its message and returns before any request; otherwise the request is sent |
| `Login.LoginForm.SubmitLogin` | src/components/Login.js:24-43 | a login submit is `Submitted` with the body `{email, password}` |
| `Login.LoginForm.SubmitRegister` | src/components/Login.js:56-75 | a register submit is `Submitted` with the body `{name, email, password}` |
| `Login.LoginForm.Settle` | src/components/Login.js:44-85 | the new state is `Settled`: the pending request is removed, and the reply is handled as its handler does |
| `Login.InvalidEmailSendsNothing` | src/components/Login.js:29-32 | on login, an invalid address gives the e-mail error and sends nothing, whatever the password |
| `Login.ShortPasswordSendsNothing` | src/components/Login.js:33-36 | on login, a valid address with a short password gives the password error and sends nothing |
| `Login.ValidCredentialsSendOneRequest` | src/components/Login.js:38-43 | passing both checks clears the error and sends exactly the one request |
| `Login.RegisterValidatesLikeLogin` | src/components/Login.js:61-68 | register shows the same error as login, and sends a request exactly when login would |
| `Login.LoginReplyHandled` | src/components/Login.js:44-53 | an ok login reply sets logged-in; a failed one shows the server message or 'Login failed'; an exception shows the generic error |
| `Login.RegisterReplyHandled` | src/components/Login.js:76-85 | an ok register reply switches back to login mode; a failed one shows the server message or 'Registration failed'; an exception shows the generic error |
| `StockSearch.ToUpper` | src/components/StockSearch.js:73 | upper-casing keeps the length and maps each character on its own |
| `StockSearch.ToUpperNormalises` | src/components/StockSearch.js:73 | the upper-cased term has no lower-case letter, keeps every other character, and upper-casing it again changes nothing |
| `StockSearch.TableCoversAlphabet` | src/components/StockSearch.js:10-37 | every letter A to Z has a non-empty list in the table |
| `StockSearch.Suggestions` | src/components/StockSearch.js:76-81 | there are suggestions only for a one-character term that is a key of the table, and every capital letter A to Z has some |
| `StockSearch.SuggestionsComeFromTable` | src/components/StockSearch.js:76-81 | a one-character term gives the table's list for it, or nothing when the key is absent; any other length gives nothing |
| `StockSearch.SuggestionsNeedNotShareInitial` | src/components/StockSearch.js:20 | the lists are not filtered by their key: 'J' suggests KMB and KMI |
| `StockSearch.LowerCaseLetterSuggestsAsCapital` | src/components/StockSearch.js:72-78 | a lower-case letter gives the list of its capital |
| `StockSearch.ChartDates` | src/components/StockSearch.js:92 | the chart's dates are min(30, n) of the series' dates: the first ones, in reverse order |
| `StockSearch.PrepareChart` | src/components/StockSearch.js:89-93 | there is a chart exactly when data is loaded |
| `StockSearch.ChartShowsFirstThirtyReversed` | src/components/StockSearch.js:92-93 | the chart plots exactly the first min(30, n) dates, in reverse order, each with its own close |
| `StockSearch.HasData` | src/components/StockSearch.js:57 | a reply counts as data only if it has a body, and then it gives a chart with at least one date |
| `StockSearch.Candidate` | src/components/StockSearch.js:111-113 | the candidate is the current term with the first date's close, which is also the chart's last point |
| `StockSearch.SearchPanel.constructor` | src/components/StockSearch.js:40-44 | the panel starts with an empty term, no data, no error, not loading, and no suggestions |
| `StockSearch.SearchPanel.InputChange` | src/components/StockSearch.js:72-82 | the stored term is the upper-cased input, the suggestions are those of that term, and nothing else changes |
| `StockSearch.SearchPanel.Search` | src/components/StockSearch.js:47-53 | a search clears the error and the suggestions, sets loading, and sends one request for the symbol |
| `StockSearch.SearchPanel.SuggestionClick` | src/components/StockSearch.js:84-87 | clicking a suggestion makes it the term and searches for it |
| `StockSearch.SearchPanel.SearchSettled` | src/components/StockSearch.js:54-69 | data is set iff the series is present with at least one key; an empty or absent series clears the data with 'No data found…'; a failure keeps the data and shows the generic error; loading ends in every case |
| `StockSearch.SearchPanel.ChartData` | src/components/StockSearch.js:89-90 | with no data there is no chart |
| `StockSearch.SearchPanel.AddToWatchlist` | src/components/StockSearch.js:109-115 | with data loaded, the watchlist performs exactly one add of the candidate; without data it is unchanged |

## Left out

- HTTP, JSON decoding, `alert` and `console.error` are not modelled as I/O. A request is a recorded value, and its settling is an event with the outcome as a parameter. The watchlist's alerts are recorded as strings. The alert after a successful registration and `navigate('/')` after a login are left out, because they are browser I/O.
- A fetched list is assumed to be an array of `{symbol, rate}` objects. Other JSON shapes are not modelled. Likewise a `Time Series (Daily)` field that is present but is not an object is not modelled.
- Racing refetches are not modelled as interleavings. Pending requests may settle in any order, but each settling is one atomic event, and the rows a fetch returns are a parameter.
- `parseFloat` and `toFixed(2)` are floating-point formatting. A price is an exact `real` that is only moved around and compared.
- React rendering, hooks and context plumbing are left out: `useWatchlist`, the JSX, the CSS and Chart.js registration. The form fields' `onChange` setters are left out too: `SubmitLogin` and `SubmitRegister` take the current field values as parameters.
- The browser's own form checks (`type="email"`, `required`) are not modelled. They run before the handlers, so the model lets any string reach the handlers.
- `StockSearch.ToUpper`: only the ASCII letters are upper-cased. JavaScript's full Unicode case mapping is not modelled, including mappings that change the length (such as 'ß' to "SS") and non-ASCII characters that map onto A to Z.
- `StockSearch.SearchPanel.InputChange` compares the character count with 1, where the code compares the UTF-16 length. The two differ only for one character outside the Basic Multilingual Plane. The table has no such key, so both give no suggestions.
- The API key, the endpoint URLs and the chart's styling constants are left out.

## Findings

| source | as written | input that shows it | evidently intended | confidence | as-written member | corrected member |
|---|---|---|---|---|---|---|
| src/components/Watchlist.js:30, src/components/Watchlist.js:85 | The optimistic entry is the candidate object `{symbol, price}`, which has no `rate`. The view calls `item.rate.toFixed(2)` on every entry. | Call `addToWatchlist({symbol: "TSLA", price: 250.5})`. Until the refetch completes (and for good if the persist fails), rendering the list throws a TypeError. | The row shows the price the entry was added with. | high; not executed | `Watchlist.OptimisticEntryBreaksView` (over `Watchlist.TableRowsAsWritten`) | `Watchlist.Render` |
