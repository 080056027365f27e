/** The artifacts a search session ends with (src/App.tsx:120-157): the two
    placeholder sources and three placeholder follow-up questions derived from
    the query on success, and the fixed apology that replaces the response on
    failure. All of it is pure string templating. */
module Placeholders {
  import opened SearchTypes
  import opened JsStrings

  const ErrorMessage: string := "Sorry, I encountered an error while searching. Please try again."

  /** `t` occurs in `s` starting at offset `k`. */
  predicate OccursAt(s: string, t: string, k: nat) {
    k + |t| <= |s| && s[k..k + |t|] == t
  }

  /** `t` occurs somewhere in `s`. */
  ghost predicate Contains(s: string, t: string) {
    exists k: nat :: OccursAt(s, t, k)
  }

  lemma OccursBetween(p: string, t: string, q: string)
    ensures OccursAt(p + t + q, t, |p|)
  {
    assert (p + t + q)[|p|..|p| + |t|] == t;
  }

  const GuideUrl: string := "https://example.com/source1"
  const GuideDomain: string := "example.com"
  const ResearchUrl: string := "https://research.example.com/article"
  const ResearchDomain: string := "research.example.com"

  /** The two placeholder sources, guide first (lines 121-134). */
  function MockSources(query: string): (r: seq<Source>)
    ensures |r| == 2
  {
    [Source("Comprehensive Guide to " + Slice(query, 50),
            GuideUrl,
            "Detailed information about " + query + " with expert insights and analysis.",
            GuideDomain),
     Source("Latest Research on " + Slice(query, 40),
            ResearchUrl,
            "Recent findings and developments related to " + query + ".",
            ResearchDomain)]
  }

  /** Each source title is a fixed phrase followed by the longest prefix of
      the query of at most 50 (guide) or 40 (research) characters. */
  lemma SourceTitles(query: string)
    ensures MockSources(query)[0].title == "Comprehensive Guide to " + query[..Min(50, |query|)]
    ensures MockSources(query)[1].title == "Latest Research on " + query[..Min(40, |query|)]
  {
  }

  /** Every source snippet quotes the whole query. */
  lemma SourcesQuoteQuery(query: string)
    ensures forall i :: 0 <= i < |MockSources(query)| ==> Contains(MockSources(query)[i].snippet, query)
  {
    var r := MockSources(query);
    OccursBetween("Detailed information about ", query, " with expert insights and analysis.");
    OccursBetween("Recent findings and developments related to ", query, ".");
    assert OccursAt(r[0].snippet, query, 27);
    assert OccursAt(r[1].snippet, query, 44);
  }

  /** The part of each title taken from the query is quoted in that same
      source's snippet: a title never cites text its snippet lacks. */
  lemma SnippetsQuoteTitleTails(query: string)
    ensures Contains(MockSources(query)[0].snippet, MockSources(query)[0].title[23..])
    ensures Contains(MockSources(query)[1].snippet, MockSources(query)[1].title[19..])
  {
    var r := MockSources(query);
    var tail0, tail1 := Slice(query, 50), Slice(query, 40);
    assert r[0].title[23..] == tail0;
    assert r[1].title[19..] == tail1;
    OccursBetween("Detailed information about ", query, " with expert insights and analysis.");
    OccursBetween("Recent findings and developments related to ", query, ".");
    PrefixOccurs(r[0].snippet, query, 27, |tail0|);
    PrefixOccurs(r[1].snippet, query, 44, |tail1|);
  }

  /** Where a text occurs, every prefix of it occurs too, at the same offset. */
  lemma PrefixOccurs(s: string, t: string, k: nat, m: nat)
    requires OccursAt(s, t, k) && m <= |t|
    ensures OccursAt(s, t[..m], k)
  {
    assert s[k..k + m] == s[k..k + |t|][..m];
  }

  /** The three placeholder follow-up questions (lines 136-140). */
  function MockFollowUps(query: string): (r: seq<string>)
    ensures |r| == 3
  {
    ["What are the latest developments in " + query + "?",
     "How does " + query + " compare to alternatives?",
     "What are the practical applications of " + query + "?"]
  }

  /** Every follow-up question embeds the query and ends with a question mark. */
  lemma FollowUpsEmbedQuery(query: string)
    ensures forall i :: 0 <= i < |MockFollowUps(query)| ==>
              Contains(MockFollowUps(query)[i], query) && MockFollowUps(query)[i] != []
              && MockFollowUps(query)[i][|MockFollowUps(query)[i]| - 1] == '?'
  {
    var r := MockFollowUps(query);
    OccursBetween("What are the latest developments in ", query, "?");
    OccursBetween("How does ", query, " compare to alternatives?");
    OccursBetween("What are the practical applications of ", query, "?");
    assert OccursAt(r[0], query, 36);
    assert OccursAt(r[1], query, 9);
    assert OccursAt(r[2], query, 39);
  }

  /** The three follow-up questions differ pairwise, whatever the query. */
  lemma FollowUpsDistinct(query: string)
    ensures var r := MockFollowUps(query); r[0] != r[1] && r[0] != r[2] && r[1] != r[2]
  {
    var r := MockFollowUps(query);
    assert r[0][0] != r[1][0] && r[2][0] != r[1][0] && r[0][13] != r[2][13];
  }
}
