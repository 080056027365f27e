/** Two complete sessions driven through the AppContent events, showing what a
    caller can conclude from their contracts alone. */
module Scenarios {
  import opened SearchTypes
  import opened HistoryLog
  import opened Placeholders
  import opened App

  /** A signed-in user asks a question; two chunks arrive and the stream
      resolves: the answer is the chunks in order, with sources and
      follow-ups, and the query heads the history. */
  method AnsweredSession(now: nat)
  {
    var app := new AppContent(map[]);
    app.OnAuthStateChanged(Some("u1"), false);
    var accepted := app.Submit("capital of France", now, true);
    assert accepted && app.isSearching;
    assert app.searchHistory[0].query == "capital of France";
    app.OnChunk("The capital ");
    app.OnChunk("of France is Paris.");
    app.Complete();
    var result := app.currentResult.value;
    assert result.response == "The capital " + "of France is Paris.";
    assert |result.sources| == 2 && |result.followUpQuestions| == 3;
    assert result.isStreaming == Some(false);
  }

  /** The stream fails after some text arrived: the apology replaces that
      text, and the query stays in the history. A submission while the first
      one is still in flight is ignored. */
  method FailedSession(now: nat)
  {
    var app := new AppContent(map[]);
    app.OnAuthStateChanged(Some("u1"), false);
    var accepted := app.Submit("capital of France", now, true);
    app.OnChunk("Par");
    app.OnChunk("is is");
    assert app.currentResult.value.response == "Par" + "is is";
    var ignored := app.Submit("another question", now, true);
    assert !ignored && app.currentResult.value.query == "capital of France";
    app.Fail();
    assert app.currentResult.value.response == ErrorMessage;
    assert app.currentResult.value.sources == [];
    assert app.searchHistory[0].query == "capital of France";
  }

  /** The in-memory history is not scoped by user. User A signs out with
      entries in memory and user B, with nothing stored, signs in: loading
      keeps A's list, and B's first save writes A's entries under B's key. */
  method HistoryCarriesOverUserSwitch(app: AppContent, now: nat)
    requires app.Valid() && !app.isSearching && app.user == Some("A")
    requires app.searchHistory != [] && app.searchHistory[0].userId == "A"
    requires HistoryKey("B") !in app.storage
    modifies app
  {
    app.OnAuthStateChanged(Some("B"), false);
    app.LoadSearchHistory(true);
    assert app.searchHistory[0].userId == "A";
    var accepted := app.Submit("asked by B", now, true);
    assert accepted;
    assert app.storage[HistoryKey("B")][0].userId == "B";
    assert app.storage[HistoryKey("B")][1].userId == "A";
  }
}
