/**
 * Topic analysis of a conversation (`analyzeConversationTopics` in
 * client/src/lib/analysis.ts): the twenty keywords of the joined message
 * texts, each with the number of messages that mention it, ranked by that
 * number, ten at most.
 */
module Topics {
  import opened Text
  import opened Seqs
  import opened Store
  import opened Keywords

  /** One ranked topic. `percentage` is `None` where the source computes
      `0 / 0` (NaN), which only happens for a conversation without messages. */
  datatype TopicAnalysis = TopicAnalysis(topic: string, count: nat, percentage: Option<real>)

  /** The entries of a `Map<string, number>` in insertion order. */
  type Entries = seq<(string, nat)>

  /** `map.get(k)`. */
  function Lookup(e: Entries, k: string): Option<nat> {
    if e == [] then None else if e[0].0 == k then Some(e[0].1) else Lookup(e[1..], k)
  }

  /** `map.set(k, v)`: the value of `k` becomes `v` and no other value changes;
      a new key goes at the end, an existing key keeps its place. */
  function MapSet(e: Entries, k: string, v: nat): (r: Entries)
    ensures Lookup(r, k) == Some(v)
    ensures forall k' :: k' != k ==> Lookup(r, k') == Lookup(e, k')
    ensures Lookup(e, k).None? ==> r == e + [(k, v)]
    ensures Lookup(e, k).Some? ==> |r| == |e| && forall i :: 0 <= i < |e| ==> r[i].0 == e[i].0
  {
    if e == [] then [(k, v)]
    else if e[0].0 == k then [(k, v)] + e[1..]
    else
      var r := [e[0]] + MapSet(e[1..], k, v);
      assert r[1..] == MapSet(e[1..], k, v);
      r
  }

  /** The messages whose lower-cased text contains the lower-cased keyword. */
  function MentionCount(messages: seq<ChatMessage>, keyword: string): (n: nat)
    ensures n <= |messages|
  {
    |Filter(messages, (m: ChatMessage) => Contains(Lower(m.content), Lower(keyword)))|
  }

  /** The map after `topicCounts.set(keyword, count)` for each keyword in turn. */
  function CountAll(keywords: seq<string>, messages: seq<ChatMessage>): Entries {
    if keywords == [] then []
    else
      var last := keywords[|keywords| - 1];
      MapSet(CountAll(keywords[..|keywords| - 1], messages), last, MentionCount(messages, last))
  }

  lemma CountAllSnoc(keywords: seq<string>, messages: seq<ChatMessage>, i: nat)
    requires i < |keywords|
    ensures CountAll(keywords[..i + 1], messages)
      == MapSet(CountAll(keywords[..i], messages), keywords[i], MentionCount(messages, keywords[i]))
  {
    assert keywords[..i + 1][..i] == keywords[..i];
  }

  /** Each keyword paired with its mention count, in keyword order. */
  function Tally(keywords: seq<string>, messages: seq<ChatMessage>): (r: Entries)
    ensures |r| == |keywords|
  {
    if |keywords| == 0 then []
    else
      var last := keywords[|keywords| - 1];
      Tally(keywords[..|keywords| - 1], messages) + [(last, MentionCount(messages, last))]
  }

  lemma {:induction false} TallyAt(keywords: seq<string>, messages: seq<ChatMessage>)
    ensures forall i :: 0 <= i < |keywords| ==> Tally(keywords, messages)[i] == (keywords[i], MentionCount(messages, keywords[i]))
  {
    if |keywords| > 0 {
      var init := keywords[..|keywords| - 1];
      TallyAt(init, messages);
      forall i | 0 <= i < |init| ensures Tally(keywords, messages)[i] == Tally(init, messages)[i] && init[i] == keywords[i] {
      }
    }
  }

  /** With duplicate-free keywords, every `set` adds a new key at the end, so
      the map is the tally. */
  lemma {:induction false} CountAllIsTally(keywords: seq<string>, messages: seq<ChatMessage>)
    requires Distinct(keywords)
    ensures CountAll(keywords, messages) == Tally(keywords, messages)
  {
    if |keywords| > 0 {
      var init, last := keywords[..|keywords| - 1], keywords[|keywords| - 1];
      DistinctInit(keywords);
      CountAllIsTally(init, messages);
      TallyKeys(init, messages);
      LookupAbsent(Tally(init, messages), last);
    }
  }

  lemma {:induction false} TallyKeys(keywords: seq<string>, messages: seq<ChatMessage>)
    ensures forall i :: 0 <= i < |keywords| ==> Tally(keywords, messages)[i].0 == keywords[i]
  {
    if |keywords| > 0 {
      TallyKeys(keywords[..|keywords| - 1], messages);
    }
  }

  /** With duplicate-free keywords the map holds every keyword once, in
      keyword order, with its mention count. */
  lemma CountAllDistinct(keywords: seq<string>, messages: seq<ChatMessage>)
    requires Distinct(keywords)
    ensures |CountAll(keywords, messages)| == |keywords|
    ensures forall i :: 0 <= i < |keywords| ==>
      CountAll(keywords, messages)[i] == (keywords[i], MentionCount(messages, keywords[i]))
  {
    CountAllIsTally(keywords, messages);
    TallyAt(keywords, messages);
  }

  lemma {:induction false} LookupAbsent(e: Entries, k: string)
    requires forall i :: 0 <= i < |e| ==> e[i].0 != k
    ensures Lookup(e, k).None?
  {
    if e != [] {
      LookupAbsent(e[1..], k);
    }
  }

  function Percentage(count: nat, total: nat): Option<real> {
    if total == 0 then None else Some(count as real / total as real * 100.0)
  }

  /** The `{ topic, count, percentage }` records of the map entries. */
  function Rows(e: Entries, total: nat): (r: seq<TopicAnalysis>)
    ensures |r| == |e|
    ensures forall i :: 0 <= i < |r| ==> r[i] == TopicAnalysis(e[i].0, e[i].1, Percentage(e[i].1, total))
  {
    seq(|e|, i requires 0 <= i < |e| => TopicAnalysis(e[i].0, e[i].1, Percentage(e[i].1, total)))
  }

  /** The comparator `b.count - a.count`: a larger count sorts first. */
  function ByCount(t: TopicAnalysis): real {
    -(t.count as real)
  }

  /** The keywords of the conversation: twenty from the joined message texts. */
  function TopicKeywords(nlp: Nlp, messages: seq<ChatMessage>): seq<string> {
    ExtractKeywords(nlp, Join(Contents(messages), " "), 20)
  }

  /** The unranked records, in keyword order. */
  function Unranked(nlp: Nlp, messages: seq<ChatMessage>): seq<TopicAnalysis> {
    Rows(CountAll(TopicKeywords(nlp, messages), messages), |messages|)
  }

  /** The result of `analyzeConversationTopics`. */
  function TopicsOf(nlp: Nlp, store: seq<ChatMessage>, conversationId: string): seq<TopicAnalysis> {
    var messages := MessagesOf(store, conversationId);
    Take(SortBy(Unranked(nlp, messages), ByCount), 10)
  }

  /** The loop filling the map, the ranking and the cut to ten. */
  method AnalyzeConversationTopics(nlp: Nlp, store: seq<ChatMessage>, conversationId: string)
    returns (topics: seq<TopicAnalysis>)
    ensures topics == TopicsOf(nlp, store, conversationId)
  {
    var messages := MessagesOf(store, conversationId);
    var allText := Join(Contents(messages), " ");
    var keywords := ExtractKeywords(nlp, allText, 20);
    var topicCounts: Entries := [];
    for i := 0 to |keywords|
      invariant topicCounts == CountAll(keywords[..i], messages)
    {
      var count := MentionCount(messages, keywords[i]);
      CountAllSnoc(keywords, messages, i);
      topicCounts := MapSet(topicCounts, keywords[i], count);
    }
    assert keywords[..|keywords|] == keywords;
    var total := |messages|;
    topics := Take(SortBy(Rows(topicCounts, total), ByCount), 10);
  }

  /** At most ten topics, the most mentioned first. */
  lemma TopicsRanked(nlp: Nlp, store: seq<ChatMessage>, conversationId: string)
    ensures |TopicsOf(nlp, store, conversationId)| <= 10
    ensures forall i, j :: 0 <= i < j < |TopicsOf(nlp, store, conversationId)| ==>
      TopicsOf(nlp, store, conversationId)[i].count >= TopicsOf(nlp, store, conversationId)[j].count
  {
    var s := SortBy(Unranked(nlp, MessagesOf(store, conversationId)), ByCount);
    var r := TopicsOf(nlp, store, conversationId);
    forall i, j | 0 <= i < j < |r| ensures r[i].count >= r[j].count {
      assert r[i] == s[i] && r[j] == s[j];
      assert ByCount(s[i]) <= ByCount(s[j]);
    }
  }

  /** Every unranked record is a keyword with its mention count; its share is
      that count over the number of messages, between 0 and 100 percent. */
  lemma UnrankedRows(nlp: Nlp, messages: seq<ChatMessage>)
    ensures |Unranked(nlp, messages)| == |TopicKeywords(nlp, messages)|
    ensures forall i :: 0 <= i < |Unranked(nlp, messages)| ==>
      var t := Unranked(nlp, messages)[i];
      && t.topic == TopicKeywords(nlp, messages)[i]
      && t.count == MentionCount(messages, t.topic) <= |messages|
      && (|messages| > 0 ==> t.percentage.Some? && 0.0 <= t.percentage.value <= 100.0)
  {
    var kws := TopicKeywords(nlp, messages);
    CountAllDistinct(kws, messages);
    forall i | 0 <= i < |Unranked(nlp, messages)|
      ensures var t := Unranked(nlp, messages)[i];
        |messages| > 0 ==> t.percentage.Some? && 0.0 <= t.percentage.value <= 100.0
    {
      var t := Unranked(nlp, messages)[i];
      if |messages| > 0 {
        PercentageBounds(t.count, |messages|);
      }
    }
  }

  lemma PercentageBounds(count: nat, total: nat)
    requires 0 < total && count <= total
    ensures Percentage(count, total).Some?
    ensures 0.0 <= Percentage(count, total).value <= 100.0
  {
    var q := count as real / total as real;
    assert q * (total as real) == count as real;
    assert (1.0 - q) * (total as real) == (total - count) as real;
  }

  /** Each listed topic is a keyword of the conversation with its mention
      count and share. */
  lemma TopicsAreKeywords(nlp: Nlp, store: seq<ChatMessage>, conversationId: string)
    ensures var messages := MessagesOf(store, conversationId);
      forall i :: 0 <= i < |TopicsOf(nlp, store, conversationId)| ==>
        var t := TopicsOf(nlp, store, conversationId)[i];
        && t.topic in TopicKeywords(nlp, messages)
        && t.count == MentionCount(messages, t.topic)
        && t.percentage == Percentage(t.count, |messages|)
  {
    var messages := MessagesOf(store, conversationId);
    UnrankedRows(nlp, messages);
    RankedFrom(Unranked(nlp, messages), ByCount, 10);
  }

  /** No topic is listed twice. */
  lemma TopicsDistinct(nlp: Nlp, store: seq<ChatMessage>, conversationId: string)
    ensures forall i, j :: 0 <= i < j < |TopicsOf(nlp, store, conversationId)| ==>
      TopicsOf(nlp, store, conversationId)[i].topic != TopicsOf(nlp, store, conversationId)[j].topic
  {
    var messages := MessagesOf(store, conversationId);
    var u := Unranked(nlp, messages);
    var kws := TopicKeywords(nlp, messages);
    var r := TopicsOf(nlp, store, conversationId);
    UnrankedRows(nlp, messages);
    assert Distinct(u) by {
      forall i, j | 0 <= i < j < |u| ensures u[i] != u[j] {
        assert u[i].topic == kws[i] && u[j].topic == kws[j];
      }
    }
    RankedFrom(u, ByCount, 10);
    forall i, j | 0 <= i < j < |r| ensures r[i].topic != r[j].topic {
      if r[i].topic == r[j].topic {
        TopicDetermines(u, kws, r[i], r[j]);
      }
    }
  }

  /** Rows labelled by duplicate-free keywords are told apart by their topic. */
  lemma TopicDetermines(u: seq<TopicAnalysis>, kws: seq<string>, x: TopicAnalysis, y: TopicAnalysis)
    requires |u| == |kws| && Distinct(kws)
    requires forall k :: 0 <= k < |u| ==> u[k].topic == kws[k]
    requires x in u && y in u && x.topic == y.topic
    ensures x == y
  {
    var a :| 0 <= a < |u| && u[a] == x;
    var b :| 0 <= b < |u| && u[b] == y;
    assert kws[a] == kws[b];
  }

  /** Only the ten most mentioned keywords are listed: a keyword left out is
      mentioned in no more messages than any listed one, and when there are
      ten keywords or fewer none is left out. */
  lemma TopTen(nlp: Nlp, store: seq<ChatMessage>, conversationId: string, x: TopicAnalysis)
    requires x in Unranked(nlp, MessagesOf(store, conversationId))
    requires x !in TopicsOf(nlp, store, conversationId)
    ensures |TopicsOf(nlp, store, conversationId)| == 10
    ensures forall i :: 0 <= i < 10 ==> TopicsOf(nlp, store, conversationId)[i].count >= x.count
  {
    var u := Unranked(nlp, MessagesOf(store, conversationId));
    var s := SortBy(u, ByCount);
    assert x in multiset(u);
    assert x in s;
    var k :| 0 <= k < |s| && s[k] == x;
  }

  /** Topics with equal counts keep the order of their keywords: for every
      count, the listed topics with that count are a prefix of the keywords
      with that count, in keyword order. */
  lemma TiesInKeywordOrder(nlp: Nlp, store: seq<ChatMessage>, conversationId: string, v: real)
    ensures KeyClass(TopicsOf(nlp, store, conversationId), ByCount, v)
      <= KeyClass(Unranked(nlp, MessagesOf(store, conversationId)), ByCount, v)
  {
    var u := Unranked(nlp, MessagesOf(store, conversationId));
    var s := SortBy(u, ByCount);
    KeyClassOfPrefix(s, ByCount, v, if 10 < |s| then 10 else |s|);
    assert TopicsOf(nlp, store, conversationId) == s[..if 10 < |s| then 10 else |s|];
  }
}
