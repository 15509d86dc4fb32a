/**
 * Message search (`searchMessages`, `searchByDateRange` and `searchBySource`
 * in client/src/lib/search.ts).
 *
 * A message is a hit when its text contains the query, ignoring case
 * (relevance 1), or else when some of the query's terms are related to
 * some of its own terms, one containing the other (relevance: the share of
 * query terms that are). Hits are ranked by relevance, most relevant first,
 * hits of equal relevance in store order, and cut to the limit.
 */
module Search {
  import opened Text
  import opened Seqs
  import opened Store
  import opened Highlights

  datatype SearchResult = SearchResult(message: ChatMessage, relevanceScore: real, highlights: seq<string>)

  /** The lower-cased terms of a text: `nlp(text).terms().out('array')`. */
  function Terms(nlp: Nlp, text: string): (r: seq<string>)
    ensures |r| == |nlp.terms(text)|
    ensures forall i :: 0 <= i < |r| ==> r[i] == Lower(nlp.terms(text)[i])
  {
    seq(|nlp.terms(text)|, i requires 0 <= i < |nlp.terms(text)| => Lower(nlp.terms(text)[i]))
  }

  /** One term contains the other. */
  predicate Related(messageKeyword: string, queryKeyword: string) {
    Contains(messageKeyword, queryKeyword) || Contains(queryKeyword, messageKeyword)
  }

  /** The query terms related to some term of the message, in query order. */
  function MatchingKeywords(queryKeywords: seq<string>, messageKeywords: seq<string>): (r: seq<string>)
    ensures |r| <= |queryKeywords|
    ensures forall i :: 0 <= i < |r| ==> r[i] in queryKeywords && exists j :: 0 <= j < |messageKeywords| && Related(messageKeywords[j], r[i])
    ensures forall i, j :: 0 <= i < |queryKeywords| && 0 <= j < |messageKeywords| && Related(messageKeywords[j], queryKeywords[i]) ==> queryKeywords[i] in r
  {
    Filter(queryKeywords, (qk: string) => exists j :: 0 <= j < |messageKeywords| && Related(messageKeywords[j], qk))
  }

  /** Whether the message text contains the query, ignoring case. */
  predicate ExactMatch(query: string, message: ChatMessage) {
    Contains(Lower(message.content), Lower(query))
  }

  function Matching(nlp: Nlp, query: string, message: ChatMessage): seq<string> {
    MatchingKeywords(Terms(nlp, query), Terms(nlp, message.content))
  }

  /** The result one message contributes to a search, if any. */
  function Evaluate(nlp: Nlp, query: string, message: ChatMessage): (r: Option<SearchResult>)
    ensures r.Some? <==> ExactMatch(query, message) || Matching(nlp, query, message) != []
    ensures r.Some? ==> r.value.message == message && 0.0 < r.value.relevanceScore <= 1.0
    ensures ExactMatch(query, message) ==> r == Some(SearchResult(message, 1.0, HighlightsOf(message.content, query)))
    ensures !ExactMatch(query, message) && |Matching(nlp, query, message)| > 0 ==>
      var matching := Matching(nlp, query, message);
      r == Some(SearchResult(message, |matching| as real / |Terms(nlp, query)| as real, HighlightsOf(message.content, Join(matching, " "))))
  {
    if ExactMatch(query, message) then
      Some(SearchResult(message, 1.0, HighlightsOf(message.content, query)))
    else
      var queryKeywords := Terms(nlp, query);
      var matching := Matching(nlp, query, message);
      if |matching| > 0 then
        Some(SearchResult(message, Ratio(|matching|, |queryKeywords|), HighlightsOf(message.content, Join(matching, " "))))
      else None
  }

  /** `part / whole` for `0 < part <= whole`, which lies in (0, 1]. */
  function Ratio(part: nat, whole: nat): (r: real)
    requires 0 < part <= whole
    ensures 0.0 < r <= 1.0
    ensures r == 1.0 <==> part == whole
  {
    QuotientBounds(part as real, whole as real);
    part as real / whole as real
  }

  lemma QuotientBounds(p: real, w: real)
    requires 0.0 < p <= w
    ensures 0.0 < p / w <= 1.0
    ensures p / w == 1.0 <==> p == w
  {
    var r := p / w;
    assert r * w == p;
    assert (1.0 - r) * w == w - p;
  }

  function Evaluator(nlp: Nlp, query: string): ChatMessage -> Option<SearchResult> {
    (m: ChatMessage) => Evaluate(nlp, query, m)
  }

  /** The results gathered for `messages`, in their order. */
  function Candidates(nlp: Nlp, query: string, messages: seq<ChatMessage>): seq<SearchResult> {
    Gather(messages, Evaluator(nlp, query))
  }

  /** The comparator `b.relevanceScore - a.relevanceScore` as an ascending key. */
  function ByScore(r: SearchResult): real {
    -r.relevanceScore
  }

  /** What `searchMessages(query, limit)` returns for the stored messages. */
  function SearchOf(nlp: Nlp, store: seq<ChatMessage>, query: string, limit: int): seq<SearchResult> {
    SliceTo(SortBy(Candidates(nlp, query, store), ByScore), limit)
  }

  /** The loop of `searchMessages`, then the sort and the cut. */
  method SearchMessages(nlp: Nlp, store: seq<ChatMessage>, query: string, limit: int) returns (results: seq<SearchResult>)
    ensures results == SearchOf(nlp, store, query, limit)
  {
    var found: seq<SearchResult> := [];
    var queryLower := Lower(query);
    var queryKeywords := Terms(nlp, query);
    for i := 0 to |store|
      invariant found == Candidates(nlp, query, store[..i])
    {
      var message := store[i];
      var contentLower := Lower(message.content);
      GatherSnoc(store, Evaluator(nlp, query), i);
      if Contains(contentLower, queryLower) {
        var highlights := ExtractHighlights(message.content, query);
        found := found + [SearchResult(message, 1.0, highlights)];
      } else {
        var messageKeywords := Terms(nlp, message.content);
        var matching := MatchingKeywords(queryKeywords, messageKeywords);
        if |matching| > 0 {
          var relevanceScore := Ratio(|matching|, |queryKeywords|);
          var highlights := ExtractHighlights(message.content, Join(matching, " "));
          found := found + [SearchResult(message, relevanceScore, highlights)];
        }
      }
    }
    assert store[..|store|] == store;
    results := SliceTo(SortBy(found, ByScore), limit);
  }

  /** The messages that are hits, in store order. */
  function Hits(nlp: Nlp, query: string, messages: seq<ChatMessage>): seq<ChatMessage> {
    Kept(messages, Evaluator(nlp, query))
  }

  /** One result per hit, in the order of the messages, and nothing else:
      the `i`-th result is what the `i`-th hit evaluates to. */
  lemma CandidatesAreHits(nlp: Nlp, query: string, messages: seq<ChatMessage>)
    ensures |Candidates(nlp, query, messages)| == |Hits(nlp, query, messages)|
    ensures forall i :: 0 <= i < |Candidates(nlp, query, messages)| ==>
      Evaluate(nlp, query, Hits(nlp, query, messages)[i]) == Some(Candidates(nlp, query, messages)[i])
  {
    GatherKept(messages, Evaluator(nlp, query));
  }

  /** The results are hits, ranked from the most to the least relevant, and
      there are no more of them than a non-negative limit. */
  lemma ResultsRanked(nlp: Nlp, store: seq<ChatMessage>, query: string, limit: int)
    ensures var r := SearchOf(nlp, store, query, limit);
      && (limit >= 0 ==> |r| <= limit)
      && (forall i :: 0 <= i < |r| ==> r[i] in Candidates(nlp, query, store))
      && (forall i, j :: 0 <= i < j < |r| ==> r[i].relevanceScore >= r[j].relevanceScore)
  {
    var c := Candidates(nlp, query, store);
    var s := SortBy(c, ByScore);
    var r := SearchOf(nlp, store, query, limit);
    forall i | 0 <= i < |r| ensures r[i] in c {
      assert r[i] == s[i];
      assert s[i] in multiset(s);
    }
    forall i, j | 0 <= i < j < |r| ensures r[i].relevanceScore >= r[j].relevanceScore {
      assert r[i] == s[i] && r[j] == s[j];
      assert ByScore(s[i]) <= ByScore(s[j]);
    }
  }

  /** Every result has a relevance in (0, 1], belongs to a stored message that
      is a hit, and a message containing the query scores 1 with snippets
      around the query. */
  lemma ResultsAreHits(nlp: Nlp, store: seq<ChatMessage>, query: string, limit: int)
    ensures forall i :: 0 <= i < |SearchOf(nlp, store, query, limit)| ==>
      var r := SearchOf(nlp, store, query, limit)[i];
      && r.message in store
      && Evaluate(nlp, query, r.message) == Some(r)
      && 0.0 < r.relevanceScore <= 1.0
      && (ExactMatch(query, r.message) ==> r.relevanceScore == 1.0 && r.highlights == HighlightsOf(r.message.content, query))
  {
    var c := Candidates(nlp, query, store);
    var h := Hits(nlp, query, store);
    ResultsRanked(nlp, store, query, limit);
    CandidatesAreHits(nlp, query, store);
    forall i | 0 <= i < |SearchOf(nlp, store, query, limit)|
      ensures var r := SearchOf(nlp, store, query, limit)[i];
        r.message in store && Evaluate(nlp, query, r.message) == Some(r)
    {
      var r := SearchOf(nlp, store, query, limit)[i];
      var k :| 0 <= k < |c| && c[k] == r;
      assert Evaluate(nlp, query, h[k]) == Some(r);
    }
  }

  /** Results of equal relevance keep the store order: for each relevance,
      the results with it are the first of the hits with it. */
  lemma TiesInStoreOrder(nlp: Nlp, store: seq<ChatMessage>, query: string, limit: int, v: real)
    ensures KeyClass(SearchOf(nlp, store, query, limit), ByScore, v) <= KeyClass(Candidates(nlp, query, store), ByScore, v)
  {
    var s := SortBy(Candidates(nlp, query, store), ByScore);
    var r := SearchOf(nlp, store, query, limit);
    KeyClassOfPrefix(s, ByScore, v, |r|);
    assert r == s[..|r|];
  }

  /** Only the most relevant hits are returned: a hit left out is no more
      relevant than any result, and with a non-negative limit it is left
      out only when the limit is reached. */
  lemma TopResults(nlp: Nlp, store: seq<ChatMessage>, query: string, limit: int, x: SearchResult)
    requires x in Candidates(nlp, query, store)
    requires x !in SearchOf(nlp, store, query, limit)
    ensures limit >= 0 ==> |SearchOf(nlp, store, query, limit)| == limit
    ensures forall i :: 0 <= i < |SearchOf(nlp, store, query, limit)| ==>
      SearchOf(nlp, store, query, limit)[i].relevanceScore >= x.relevanceScore
  {
    var c := Candidates(nlp, query, store);
    var s := SortBy(c, ByScore);
    var r := SearchOf(nlp, store, query, limit);
    assert x in multiset(c);
    assert x in s;
    var k :| 0 <= k < |s| && s[k] == x;
    assert r == s[..|r|];
    assert k >= |r|;
    forall i | 0 <= i < |r| ensures r[i].relevanceScore >= x.relevanceScore {
      assert r[i] == s[i];
      assert ByScore(s[i]) <= ByScore(s[k]);
    }
  }

  /** The results an empty query gives: every message, with relevance 1. */
  function EveryMessage(store: seq<ChatMessage>): (r: seq<SearchResult>)
    ensures |r| == |store|
    ensures forall i :: 0 <= i < |r| ==> r[i] == SearchResult(store[i], 1.0, HighlightsOf(store[i].content, ""))
  {
    seq(|store|, i requires 0 <= i < |store| => SearchResult(store[i], 1.0, HighlightsOf(store[i].content, "")))
  }

  /** Every text contains the empty query. */
  lemma EmptyQueryMatches(message: ChatMessage)
    ensures ExactMatch("", message)
  {
    assert Lower("") == "";
    assert IsOccurrence(Lower(message.content), "", 0);
  }

  lemma EmptyQueryCandidates(nlp: Nlp, messages: seq<ChatMessage>)
    ensures Candidates(nlp, "", messages) == EveryMessage(messages)
  {
    forall i | 0 <= i < |messages| ensures Evaluator(nlp, "")(messages[i]) == Some(EveryMessage(messages)[i]) {
      EmptyQueryMatches(messages[i]);
    }
    GatherAll(messages, Evaluator(nlp, ""));
  }

  /** The empty query returns the first `limit` stored messages in store
      order, each with relevance 1. */
  lemma EmptyQueryListsAll(nlp: Nlp, store: seq<ChatMessage>, limit: int)
    ensures SearchOf(nlp, store, "", limit) == SliceTo(EveryMessage(store), limit)
  {
    var c := Candidates(nlp, "", store);
    EmptyQueryCandidates(nlp, store);
    assert SortedBy(c, ByScore);
    StableSortUnique(c, c, ByScore);
  }

  /** `searchBySource(source)`: the stored messages from that source, in
      store order. */
  function SearchBySource(store: seq<ChatMessage>, source: Source): (r: seq<ChatMessage>)
    ensures forall i :: 0 <= i < |r| ==> r[i] in store && r[i].source == source
    ensures forall i :: 0 <= i < |store| && store[i].source == source ==> store[i] in r
  {
    Filter(store, (m: ChatMessage) => m.source == source)
  }

  function ByTimestamp(m: ChatMessage): real {
    m.timestamp as real
  }

  /** `searchByDateRange(startDate, endDate)`: the stored messages from
      `startDate` up to but not including `endDate`, ordered by timestamp and,
      at equal timestamps, in store order. */
  function SearchByDateRange(store: seq<ChatMessage>, startDate: int, endDate: int): (r: seq<ChatMessage>)
    ensures forall i :: 0 <= i < |r| ==> r[i] in store && startDate <= r[i].timestamp < endDate
    ensures forall i :: 0 <= i < |store| && startDate <= store[i].timestamp < endDate ==> store[i] in r
    ensures forall i, j :: 0 <= i < j < |r| ==> r[i].timestamp <= r[j].timestamp
    ensures forall v :: KeyClass(r, ByTimestamp, v) == KeyClass(Filter(store, (m: ChatMessage) => startDate <= m.timestamp < endDate), ByTimestamp, v)
  {
    var inRange := Filter(store, (m: ChatMessage) => startDate <= m.timestamp < endDate);
    SortByMembers(inRange, ByTimestamp);
    SortBy(inRange, ByTimestamp)
  }
}
