# Conversational search: session and history model

This project models the core of a conversational search app in Dafny. A
signed-in user submits a question; the answer streams in chunk by chunk; on
success the answer gains two placeholder sources and three placeholder
follow-up questions; on failure a fixed apology replaces it. When a question
is accepted and the storage write succeeds, it is also recorded at the head
of a history of at most 20 entries. That history is kept in memory and
stored under the signed-in user's key. When the write fails, the question is
recorded nowhere.

Files and modules:

- `types.dfy`, module `SearchTypes`: the `SearchResult`, `Source` and
  `SearchHistory` records. The optional `isStreaming` flag is an
  `Option<bool>` and timestamps are `nat`.
- `strings.dfy`, module `JsStrings`: the JavaScript built-ins the core relies
  on. These are `String.prototype.trim` over the ECMAScript whitespace set,
  `slice(0, n)`, and the decimal form of a timestamp.
- `placeholders.dfy`, module `Placeholders`: the placeholder sources and
  follow-ups, and the apology text.
- `history.dfy`, module `HistoryLog`: the storage key, the timestamp ids, the
  entry a save records, and the prepend-and-truncate step. It also holds
  `SaveAll`, a fold over many saves.
- `app.dfy`, module `App`: class `AppContent`. Its fields are the
  component's state (`user`, `currentResult`, `searchHistory`,
  `isSearching`, `sidebarOpen`, `loading`) plus the store. `handleSearch`
  awaits the stream once, so it is split into the events that resume it:
  - `Submit`: the guard, the fresh result and the history save.
  - `OnChunk`: the stream callback.
  - `Complete` and `Fail`: the two ways the stream ends. Each includes the
    `finally` reset of `isSearching`.

  `Valid()` ties these together. While a search is in flight, the current
  result streams the concatenation of the chunks received so far. Once the
  search is over, the result is either finalised with the placeholders of its
  query or carries the apology.
- `search_input.dfy`, module `SearchInputComponent`: class `SearchInput`. It
  holds the `query` text, the submit and Enter-key guards, and the submit
  button's disabled flag.
- `scenarios.dfy`, module `Scenarios`: three runs driven through the
  events, each checked from the contracts alone:
  - a session that is answered;
  - a session that fails after partial text;
  - a switch between users that carries the history over.

Inputs from outside become parameters:

- the current time (`Date.now()`) is `now`;
- whether the storage write succeeds is `writeOk`;
- whether the stored text parses is `parseOk`;
- the user id comes from `OnAuthStateChanged`;
- the streamed text arrives through `OnChunk`.

The model keeps these behaviours of the code:

- There is no session-id check against stale stream events. The updaters
  rewrite whatever result is current. The only exclusion is the
  `isSearching` guard, so `OnChunk`, `Complete` and `Fail` apply only while
  a search is in flight.
- Signing out does not clear the history.
- A load that finds no stored list, or that fails to parse, leaves the
  in-memory history as it was. It does not empty it.
- The in-memory history is not scoped by user. Suppose the user changes and
  the new user has nothing stored. The load then keeps the previous user's
  list (src/App.tsx:34). The new user's first save puts those old entries,
  with their old `userId`, under the new user's key (src/App.tsx:62-64).
- On failure, sources and follow-ups are not cleared. They keep the values of
  the current result. The invariant shows those are always empty at that
  point.

## Model

| member | source | states |
|---|---|---|
| `JsStrings.TrimStart` | src/components/SearchInput.tsx:17 | the result is a suffix of the input; everything dropped is whitespace; the result does not start with whitespace |
| `JsStrings.TrimEnd` | src/components/SearchInput.tsx:17 | the result is a prefix of the input; everything dropped is whitespace; the result does not end with whitespace |
| `JsStrings.Trim` | src/components/SearchInput.tsx:17-18 | `trim()` returns a factor of the input with only whitespace around it; it has no whitespace at either end; it is empty exactly when the input is all whitespace |
| `JsStrings.TrimmedEmptyIffBlank` | src/components/SearchInput.tsx:17 | trimming both ends leaves nothing exactly when the text is all whitespace |
| `JsStrings.TrimFactor` | src/components/SearchInput.tsx:18 | the trimmed text is a contiguous piece of the original with only whitespace cut from either side |
| `JsStrings.TrimIdempotent` | src/components/SearchInput.tsx:18 | trimming an already-trimmed query changes nothing |
| `JsStrings.Slice` | src/App.tsx:123 | `slice(0, n)` is the longest prefix with at most n elements |
| `JsStrings.NatToDecimal` | src/App.tsx:55 | a timestamp's decimal string is non-empty, all digits, and has no leading zero |
| `JsStrings.DecimalRoundTrip` | src/App.tsx:78 | reading the decimal string back gives the timestamp |
| `HistoryLog.HistoryKey` | src/App.tsx:33 | the storage key is `search_history_` followed by the user id |
| `HistoryLog.HistoryKeyInjective` | src/App.tsx:64 | two users share a storage key only if they are the same user |
| `HistoryLog.TimestampId` | src/App.tsx:55 | an id is `search_` followed by the digits of the time it was made, with no leading zero |
| `HistoryLog.TimestampIdInjective` | src/App.tsx:78 | two ids collide exactly when they were made in the same millisecond |
| `HistoryLog.NewEntry` | src/App.tsx:54-59 | the saved entry carries the query, the user's id, the time, and an id derived from that time |
| `HistoryLog.Prepend` | src/App.tsx:63 | the new entry is at index 0, then the old entries in order; the length is min(old length + 1, 20) |
| `HistoryLog.Truncate` | src/App.tsx:36 | a loaded list keeps its first min(length, 20) entries, in order |
| `HistoryLog.SaveAllLength` | src/App.tsx:50-69 | after any run of saves the log has min(old length + saves, 20) entries, so it never exceeds 20 |
| `HistoryLog.SaveAllOrder` | src/App.tsx:50-69 | after any run of saves, position i holds the i-th newest save, then the old entries in order; after 20 or more saves the log is exactly the last 20, newest first |
| `Placeholders.MockSources` | src/App.tsx:121-134 | there are exactly two placeholder sources |
| `Placeholders.SourceTitles` | src/App.tsx:123-129 | the titles are "Comprehensive Guide to " plus the first 50 characters of the query, and "Latest Research on " plus the first 40 |
| `Placeholders.SourcesQuoteQuery` | src/App.tsx:125-131 | every source snippet contains the whole query |
| `Placeholders.SnippetsQuoteTitleTails` | src/App.tsx:123-131 | the part of each source's title taken from the query also occurs in that source's snippet |
| `Placeholders.MockFollowUps` | src/App.tsx:136-140 | there are exactly three follow-up questions |
| `Placeholders.FollowUpsEmbedQuery` | src/App.tsx:137-139 | every follow-up contains the whole query and ends with "?" |
| `Placeholders.FollowUpsDistinct` | src/App.tsx:136-140 | the three follow-ups differ pairwise, for every query |
| `App.ConcatAppend` | src/App.tsx:110-111 | appending a chunk extends the accumulated response by exactly that chunk |
| `App.ConcatPrefix` | src/App.tsx:111 | the accumulated response only grows: earlier snapshots are prefixes of later ones |
| `App.InitialResult` | src/App.tsx:78-87 | a fresh result has the query, an empty response, no sources or follow-ups, a streaming flag set true, and a timestamp id |
| `App.AppContent.constructor` | src/App.tsx:12-17 | initially there is no user and no result; history is empty; the app is loading, not searching, and the sidebar is closed |
| `App.AppContent.OnAuthStateChanged` | src/App.tsx:21-24 | an auth report sets the user and the loading flag only |
| `App.AppContent.SetSidebarOpen` | src/App.tsx:204 | the sidebar handlers set the open flag only |
| `App.AppContent.LoadSearchHistory` | src/App.tsx:28-41 | with a user whose key holds a list that parses, history becomes its first 20 entries; otherwise history is unchanged |
| `App.AppContent.SaveToHistory` | src/App.tsx:50-69 | with a user and a successful write, the new entry is prepended to history (bounded to 20) and the same list is stored under the user's key; with no user or a failed write, neither history nor storage changes |
| `App.AppContent.Submit` | src/App.tsx:71-90 | with no user, or while searching, nothing changes. Otherwise the app is searching, the sidebar is closed, and the current result is the fresh streaming result for the query. The query is saved to history before any chunk arrives. |
| `App.AppContent.StartSession` | src/App.tsx:74-89 | an accepted search sets the searching flag, closes the sidebar and publishes the fresh result |
| `App.AppContent.OnChunk` | src/App.tsx:110-117 | the response becomes the old response plus the chunk; the result keeps streaming and the search stays in flight |
| `App.AppContent.Complete` | src/App.tsx:120-160 | the response is the concatenation of all chunks in arrival order; the placeholder sources and follow-ups of the query are attached; streaming and searching both end |
| `App.AppContent.Fail` | src/App.tsx:151-160 | the apology replaces the response rather than being appended; sources and follow-ups are empty; streaming and searching both end; history is untouched |
| `App.AppContent.HandleFollowUpClick` | src/App.tsx:163-165 | clicking a follow-up is exactly a submission of that question: the same guard and the same new state, including the history save and its outcome when the write fails |
| `App.AppContent.HandleHistoryClick` | src/App.tsx:167-169 | clicking a history entry is exactly a submission of its query: the same guard and the same new state, including the history save and its outcome when the write fails |
| `SearchInputComponent.SearchInput.constructor` | src/components/SearchInput.tsx:13 | the input starts empty |
| `SearchInputComponent.SearchInput.OnChange` | src/components/SearchInput.tsx:35 | only the change handler sets the text |
| `SearchInputComponent.SearchInput.HandleSubmit` | src/components/SearchInput.tsx:15-20 | a search is made exactly when the text is not all whitespace and nothing is loading; it passes the trimmed text, which is non-empty and has no whitespace at either end |
| `SearchInputComponent.SearchInput.HandleKeyDown` | src/components/SearchInput.tsx:22-27 | Enter without Shift submits through the same guard; any other key makes no call |
| `SearchInputComponent.SearchInput.SubmitDisabled` | src/components/SearchInput.tsx:44 | the button is disabled exactly when `handleSubmit` would make no call |

## Left out

- The backend call `blink.ai.streamText` is not modelled: its prompt text, the `search` flag and `maxTokens`. The model sees only its effects, the `OnChunk`, `Complete` and `Fail` events. Which event comes next, and what each chunk holds, is up to the caller.
- The auth provider's subscription and `blink.auth.login()` are not modelled. `OnAuthStateChanged` receives only the user id and the loading flag.
- The effect that reloads history when the user changes (src/App.tsx:44-48) is not modelled. `LoadSearchHistory` is an event of its own, and nothing forces it to follow `OnAuthStateChanged`.
- `localStorage` and JSON (de)serialisation are an abstract map from key to entry list. A throwing `setItem` is `writeOk == false` and a throwing `JSON.parse` is `parseOk == false`. A stored value that parses to something other than a list of entries is not modelled.
- Each event reads the clock once. The source calls `Date.now()` twice per result and twice per entry, and the two readings can differ. Ids are not claimed to be unique: two submissions in the same millisecond get equal ids.
- React's state updates take effect at once in the model. The source's handlers read state captured at the last render. Two calls to `handleSearch` between two renders would both see `isSearching` false, but the model serialises them, so such a double submission is not modelled.
- Strings are sequences of Unicode scalar values. JavaScript counts UTF-16 code units, so `slice(0, 50)` on text with characters outside the Basic Multilingual Plane can cut at a different place.
- `NatToDecimal` covers non-negative integers only. JavaScript switches to exponent notation at 10^21, far beyond any millisecond timestamp.
- `console.error` logging and `preventDefault` are left out. So are all rendering, theming, the loading and sign-in screens, and the result and history views with their copy and share actions.
- The `prev ? … : null` branch of each updater is modelled. While a search is in flight, `Valid()` makes it unreachable.
