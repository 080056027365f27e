/** The bounded per-user history log of src/App.tsx:28-69, as values: the
    storage key of a user, the entry a submission records, the
    prepend-and-truncate step of a save and the truncation of a load. */
module HistoryLog {
  import opened SearchTypes
  import opened JsStrings

  /** At most this many entries are kept, most recent first. */
  const MaxHistory: nat := 20

  /** The storage key that scopes one user's history. */
  function HistoryKey(userId: string): (key: string)
    ensures |key| == 15 + |userId| && key[..15] == "search_history_" && key[15..] == userId
  {
    "search_history_" + userId
  }

  /** Distinct user ids never name the same storage key. (Which entries a
      save writes under that key is another matter: it writes the in-memory
      list, whoever's entries it holds.) */
  lemma HistoryKeyInjective(a: string, b: string)
    ensures HistoryKey(a) == HistoryKey(b) <==> a == b
  {
    if HistoryKey(a) == HistoryKey(b) {
      assert a == HistoryKey(a)[15..];
    }
  }

  /** `id` is "search_" followed by the decimal digits of `now`. */
  predicate IsTimestampId(id: string, now: nat) {
    |id| > 7 && id[..7] == "search_" &&
    var digits := id[7..];
    (forall k :: 0 <= k < |digits| ==> IsDigit(digits[k]))
    && (digits[0] == '0' ==> digits == "0")
    && DecimalValue(digits) == now
  }

  /** `search_${Date.now()}`, the identifier given to results and entries. */
  function TimestampId(now: nat): (id: string)
    ensures IsTimestampId(id, now)
  {
    DecimalRoundTrip(now);
    var id := "search_" + NatToDecimal(now);
    assert id[7..] == NatToDecimal(now);
    id
  }

  /** Two timestamp identifiers are equal only for equal times. */
  lemma TimestampIdInjective(a: nat, b: nat)
    ensures TimestampId(a) == TimestampId(b) <==> a == b
  {
  }

  /** The entry saved for `query` by `userId` at time `now`. */
  function NewEntry(query: string, userId: string, now: nat): (e: SearchHistory)
    ensures e.query == query && e.userId == userId && e.timestamp == now
    ensures IsTimestampId(e.id, now)
  {
    SearchHistory(TimestampId(now), query, userId, now)
  }

  /** `[entry, ...history.slice(0, 19)]`: the new entry in front, followed by the
      most recent old entries in their order, at most MaxHistory in all. */
  function Prepend(entry: SearchHistory, history: seq<SearchHistory>): (r: seq<SearchHistory>)
    ensures |r| == Min(|history| + 1, MaxHistory) && 0 < |r| <= MaxHistory
    ensures r[0] == entry
    ensures forall i :: 1 <= i < |r| ==> r[i] == history[i - 1]
  {
    [entry] + Slice(history, MaxHistory - 1)
  }

  /** `parsed.slice(0, 20)`: the first MaxHistory stored entries, in order. */
  function Truncate(stored: seq<SearchHistory>): (r: seq<SearchHistory>)
    ensures |r| == Min(|stored|, MaxHistory) && |r| <= MaxHistory
    ensures forall i :: 0 <= i < |r| ==> r[i] == stored[i]
  {
    Slice(stored, MaxHistory)
  }

  /** The history after saving `entries` one after another, oldest first. */
  function SaveAll(history: seq<SearchHistory>, entries: seq<SearchHistory>): seq<SearchHistory>
  {
    if entries == [] then history
    else Prepend(entries[|entries| - 1], SaveAll(history, entries[..|entries| - 1]))
  }

  /** After any run of saves the log never exceeds MaxHistory; it holds
      every save and every old entry until it is full. */
  lemma {:induction false} SaveAllLength(history: seq<SearchHistory>, entries: seq<SearchHistory>)
    requires |history| <= MaxHistory
    ensures |SaveAll(history, entries)| == Min(|history| + |entries|, MaxHistory)
  {
    if entries != [] {
      SaveAllLength(history, entries[..|entries| - 1]);
    }
  }

  /** After any run of saves the log holds the newest entries first, then what
      was there before: once MaxHistory or more saves were made it holds
      exactly the last MaxHistory of them, newest first. */
  lemma {:induction false} SaveAllOrder(history: seq<SearchHistory>, entries: seq<SearchHistory>, i: nat)
    requires |history| <= MaxHistory
    requires i < Min(|history| + |entries|, MaxHistory)
    ensures i < |SaveAll(history, entries)|
    ensures SaveAll(history, entries)[i]
              == if i < |entries| then entries[|entries| - 1 - i] else history[i - |entries|]
  {
    SaveAllLength(history, entries);
    if entries != [] && i > 0 {
      var n := |entries|;
      var init := entries[..n - 1];
      SaveAllLength(history, init);
      SaveAllOrder(history, init, i - 1);
      if i < n {
        assert init[|init| - 1 - (i - 1)] == entries[n - 1 - i];
      }
    }
  }
}
