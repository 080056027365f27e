/** The search-session and history bookkeeping of `AppContent`
    (src/App.tsx:11-169). The component's state hooks are the fields of one
    object; `handleSearch` is split at its single `await` on the streaming
    backend into the events that resume it: `Submit` runs lines 72-90,
    `OnChunk` is the chunk callback, `Complete` and `Fail` are the two ways
    the awaited stream ends, each followed by the `finally` block. */
module App {
  import opened SearchTypes
  import opened JsStrings
  import opened HistoryLog
  import opened Placeholders

  /** The text built by appending `chunks` in arrival order. */
  function Concat(chunks: seq<string>): string
  {
    if chunks == [] then "" else chunks[0] + Concat(chunks[1..])
  }

  /** Appending one more chunk extends the concatenation by exactly that chunk. */
  lemma {:induction false} ConcatAppend(chunks: seq<string>, chunk: string)
    ensures Concat(chunks + [chunk]) == Concat(chunks) + chunk
  {
    if chunks != [] {
      assert (chunks + [chunk])[1..] == chunks[1..] + [chunk];
      ConcatAppend(chunks[1..], chunk);
    }
  }

  /** The concatenation of any chunks starts with that of any prefix of them:
      the streamed response only ever grows. */
  lemma {:induction false} ConcatPrefix(chunks: seq<string>, n: nat)
    requires n <= |chunks|
    ensures |Concat(chunks[..n])| <= |Concat(chunks)|
    ensures Concat(chunks)[..|Concat(chunks[..n])|] == Concat(chunks[..n])
  {
    if n > 0 {
      assert chunks[..n][1..] == chunks[1..][..n - 1];
      ConcatPrefix(chunks[1..], n - 1);
    }
  }

  /** The result `handleSearch` publishes as soon as a query is accepted. */
  function InitialResult(query: string, now: nat): (r: SearchResult)
    ensures r.query == query && r.timestamp == now && IsTimestampId(r.id, now)
    ensures r.response == "" && r.sources == [] && r.followUpQuestions == []
    ensures r.isStreaming == Some(true)
  {
    SearchResult(TimestampId(now), query, "", [], [], now, Some(true))
  }

  /** A result still receiving text for `query`: it shows `text` so far and no
      sources or follow-ups yet. */
  ghost predicate Streaming(r: SearchResult, query: string, text: string) {
    r.query == query && r.response == text && r.sources == [] && r.followUpQuestions == []
    && r.isStreaming == Some(true)
  }

  /** A result whose session is over: either finalised with the placeholder
      sources and follow-ups of its query, or replaced by the apology with
      none of either. */
  ghost predicate Finished(r: SearchResult) {
    r.isStreaming == Some(false) &&
    ((r.sources == MockSources(r.query) && r.followUpQuestions == MockFollowUps(r.query))
     || (r.response == ErrorMessage && r.sources == [] && r.followUpQuestions == []))
  }

  class AppContent {
    /** `user.id` of the signed-in user, None when signed out. */
    var user: Option<string>
    var loading: bool
    var currentResult: Option<SearchResult>
    var searchHistory: seq<SearchHistory>
    var isSearching: bool
    var sidebarOpen: bool
    /** The persisted key-value store (`localStorage`), keyed by HistoryKey. */
    var storage: map<string, seq<SearchHistory>>
    /** The query and the `fullResponse` accumulator of the call to
        `handleSearch` that is awaiting its stream, if any. */
    var streamQuery: string
    var fullResponse: string
    /** The chunks that call has received so far, in arrival order. */
    ghost var chunks: seq<string>

    ghost predicate Valid()
      reads this
    {
      && |searchHistory| <= MaxHistory
      && fullResponse == Concat(chunks)
      && (isSearching ==> currentResult.Some? && Streaming(currentResult.value, streamQuery, fullResponse))
      && (!isSearching && currentResult.Some? ==> Finished(currentResult.value))
    }

    /** The first render: signed out until the auth provider reports, nothing
        searched yet, and whatever `storage` already holds. */
    constructor (storage: map<string, seq<SearchHistory>>)
      ensures Valid()
      ensures user == None && loading && currentResult == None && searchHistory == []
      ensures !isSearching && !sidebarOpen && this.storage == storage
    {
      user, loading := None, true;
      currentResult, searchHistory := None, [];
      isSearching, sidebarOpen := false, false;
      this.storage := storage;
      streamQuery, fullResponse, chunks := "", "", [];
    }

    /** The auth subscription's callback: records the user and loading flag
        and touches nothing else, not even an in-flight search. */
    method OnAuthStateChanged(newUser: Option<string>, isLoading: bool)
      requires Valid()
      modifies this`user, this`loading
      ensures Valid() && user == newUser && loading == isLoading
    {
      user, loading := newUser, isLoading;
    }

    /** The menu button and the sheet's open/close handler. */
    method SetSidebarOpen(open: bool)
      requires Valid()
      modifies this`sidebarOpen
      ensures Valid() && sidebarOpen == open
    {
      sidebarOpen := open;
    }

    /** `loadSearchHistory`: with a user whose key holds a list that parses
        (`parseOk`), the in-memory history becomes that list's first
        MaxHistory entries; with no user, no stored list or a parse failure
        it stays as it was. */
    method LoadSearchHistory(parseOk: bool)
      requires Valid()
      modifies this`searchHistory
      ensures Valid()
      ensures searchHistory ==
                if user.Some? && HistoryKey(user.value) in storage && parseOk
                then Truncate(storage[HistoryKey(user.value)])
                else old(searchHistory)
    {
      if user == None {
        return;
      }
      var key := HistoryKey(user.value);
      if key in storage {
        if parseOk {
          searchHistory := Truncate(storage[key]);
        }
      }
    }

    /** `saveToHistory`: with a user, the entry for `query` at `now` goes in
        front of the history, which keeps at most MaxHistory entries. The list
        is written to storage first; when that write fails (`writeOk` false)
        neither storage nor the in-memory history changes. */
    method SaveToHistory(query: string, now: nat, writeOk: bool)
      requires Valid()
      modifies this`searchHistory, this`storage
      ensures Valid()
      ensures user.Some? && writeOk ==>
                var newHistory := Prepend(NewEntry(query, user.value, now), old(searchHistory));
                && searchHistory == newHistory
                && storage == old(storage)[HistoryKey(user.value) := newHistory]
      ensures user.None? || !writeOk ==> searchHistory == old(searchHistory) && storage == old(storage)
    {
      if user == None {
        return;
      }
      var newHistory := Prepend(NewEntry(query, user.value, now), searchHistory);
      if writeOk {
        storage := storage[HistoryKey(user.value) := newHistory];
        searchHistory := newHistory;
      }
    }

    /** `handleSearch` up to its `await` on the stream (lines 72-90). Without
        a user, or while a search is in flight, nothing at all changes.
        Otherwise the search is marked in flight, the sidebar closes, a fresh
        streaming result for `query` becomes current and the query is saved
        to history before any text arrives. */
    method Submit(query: string, now: nat, writeOk: bool) returns (accepted: bool)
      requires Valid()
      modifies this
      ensures Valid()
      ensures accepted <==> old(user).Some? && !old(isSearching)
      ensures !accepted ==> unchanged(this)
      ensures accepted ==> Started(query, now)
      ensures accepted ==> user == old(user) && loading == old(loading)
      ensures accepted && writeOk ==>
                var newHistory := Prepend(NewEntry(query, user.value, now), old(searchHistory));
                searchHistory == newHistory && storage == old(storage)[HistoryKey(user.value) := newHistory]
      ensures accepted && !writeOk ==> searchHistory == old(searchHistory) && storage == old(storage)
    {
      if user == None || isSearching {
        return false;
      }
      StartSession(query, now);
      SaveToHistory(query, now, writeOk);
      accepted := true;
    }

    /** The state right after a search for `query` was accepted at `now`. */
    ghost predicate Started(query: string, now: nat)
      reads this
    {
      && isSearching && !sidebarOpen
      && currentResult == Some(InitialResult(query, now))
      && streamQuery == query && fullResponse == "" && chunks == []
    }

    /** Lines 74-89: mark the search in flight, close the sidebar and publish
        the fresh streaming result. */
    method StartSession(query: string, now: nat)
      requires Valid() && !isSearching
      modifies this`isSearching, this`sidebarOpen, this`currentResult, this`streamQuery,
               this`fullResponse, this`chunks
      ensures Valid() && Started(query, now)
    {
      isSearching := true;
      sidebarOpen := false;
      currentResult := Some(InitialResult(query, now));
      streamQuery, fullResponse, chunks := query, "", [];
    }

    /** The stream callback: the chunk is appended to `fullResponse`, which
        the current result then shows, still streaming. */
    method OnChunk(chunk: string)
      requires Valid() && isSearching
      modifies this`fullResponse, this`chunks, this`currentResult
      ensures Valid() && isSearching
      ensures chunks == old(chunks) + [chunk]
      ensures fullResponse == old(fullResponse) + chunk
      ensures currentResult ==
                Some(old(currentResult).value.(response := fullResponse, isStreaming := Some(true)))
    {
      ConcatAppend(chunks, chunk);
      fullResponse := fullResponse + chunk;
      chunks := chunks + [chunk];
      currentResult :=
        if currentResult.Some?
        then Some(currentResult.value.(response := fullResponse, isStreaming := Some(true)))
        else None;
    }

    /** The stream resolved (lines 120-149, then the `finally` at 159): the
        result keeps every chunk in order, gains the placeholder sources and
        follow-ups of the query and stops streaming; the search is over. */
    method Complete()
      requires Valid() && isSearching
      modifies this`currentResult, this`isSearching
      ensures Valid() && !isSearching
      ensures currentResult ==
                Some(old(currentResult).value.(response := fullResponse,
                                               sources := MockSources(streamQuery),
                                               followUpQuestions := MockFollowUps(streamQuery),
                                               isStreaming := Some(false)))
      ensures currentResult.value.response == Concat(chunks)
    {
      var sources := MockSources(streamQuery);
      var followUps := MockFollowUps(streamQuery);
      currentResult :=
        if currentResult.Some?
        then Some(currentResult.value.(response := fullResponse, sources := sources,
                                       followUpQuestions := followUps, isStreaming := Some(false)))
        else None;
      isSearching := false;
    }

    /** The stream rejected (lines 151-159): the apology replaces whatever
        text had arrived, the result stops streaming with no sources or
        follow-ups, and the search is over. History is left as it was. */
    method Fail()
      requires Valid() && isSearching
      modifies this`currentResult, this`isSearching
      ensures Valid() && !isSearching
      ensures currentResult ==
                Some(old(currentResult).value.(response := ErrorMessage, isStreaming := Some(false)))
      ensures currentResult.value.sources == [] && currentResult.value.followUpQuestions == []
    {
      currentResult :=
        if currentResult.Some?
        then Some(currentResult.value.(response := ErrorMessage, isStreaming := Some(false)))
        else None;
      isSearching := false;
    }

    /** A follow-up question is searched exactly as if it had been typed. */
    method HandleFollowUpClick(question: string, now: nat, writeOk: bool) returns (accepted: bool)
      requires Valid()
      modifies this
      ensures Valid()
      ensures accepted <==> old(user).Some? && !old(isSearching)
      ensures !accepted ==> unchanged(this)
      ensures accepted ==> Started(question, now)
      ensures accepted ==> user == old(user) && loading == old(loading)
      ensures accepted && writeOk ==>
                var newHistory := Prepend(NewEntry(question, user.value, now), old(searchHistory));
                searchHistory == newHistory && storage == old(storage)[HistoryKey(user.value) := newHistory]
      ensures accepted && !writeOk ==> searchHistory == old(searchHistory) && storage == old(storage)
    {
      accepted := Submit(question, now, writeOk);
    }

    /** A past query from the history list is searched again, exactly as if it
        had been typed. */
    method HandleHistoryClick(query: string, now: nat, writeOk: bool) returns (accepted: bool)
      requires Valid()
      modifies this
      ensures Valid()
      ensures accepted <==> old(user).Some? && !old(isSearching)
      ensures !accepted ==> unchanged(this)
      ensures accepted ==> Started(query, now)
      ensures accepted ==> user == old(user) && loading == old(loading)
      ensures accepted && writeOk ==>
                var newHistory := Prepend(NewEntry(query, user.value, now), old(searchHistory));
                searchHistory == newHistory && storage == old(storage)[HistoryKey(user.value) := newHistory]
      ensures accepted && !writeOk ==> searchHistory == old(searchHistory) && storage == old(storage)
    {
      accepted := Submit(query, now, writeOk);
    }
  }
}
