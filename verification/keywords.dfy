/**
 * Keyword extraction (`extractKeywords` in client/src/lib/analysis.ts): the
 * topic phrases and then the nouns the library finds, each kept at its first
 * occurrence, with terms of three characters or fewer dropped and the list
 * cut to `limit`.
 */
module Keywords {
  import opened Seqs
  import opened Store

  /** `[...topics, ...nouns]`: topic phrases first, then nouns. */
  function Candidates(nlp: Nlp, text: string): seq<string> {
    nlp.topics(text) + nlp.nouns(text)
  }

  predicate IsLong(k: string) {
    |k| > 3
  }

  /** Position of a candidate's first occurrence (0 for a non-candidate). */
  function Rank(c: seq<string>, x: string): int {
    if x in c then FirstIndex(c, x) else 0
  }

  /** The post-processing of the candidate list: deduplicate, keep the long
      terms, cut to `limit`. */
  function Select(c: seq<string>, limit: nat): seq<string> {
    Take(Filter(Dedup(c), IsLong), limit)
  }

  /** Every selected term is a long candidate, and the selection lists terms
      strictly in the order of their first occurrence (so it is duplicate free). */
  lemma SelectOrdered(c: seq<string>, limit: nat)
    ensures forall i :: 0 <= i < |Select(c, limit)| ==> IsLong(Select(c, limit)[i]) && Select(c, limit)[i] in c
    ensures forall i, j :: 0 <= i < j < |Select(c, limit)| ==>
      FirstIndex(c, Select(c, limit)[i]) < FirstIndex(c, Select(c, limit)[j])
  {
    var d := Dedup(c);
    var rank := x => Rank(c, x);
    assert forall i, j :: 0 <= i < j < |d| ==> rank(d[i]) < rank(d[j]);
    FilterIncreasing(d, IsLong, rank);
    var f := Filter(d, IsLong);
    assert forall i :: 0 <= i < |f| ==> f[i] in d;
  }

  /** A long candidate is left out only when the selection is full and every
      selected term occurs first before it. */
  lemma SelectComplete(c: seq<string>, limit: nat, k: string)
    requires k in c && IsLong(k) && k !in Select(c, limit)
    ensures |Select(c, limit)| == limit
    ensures forall i :: 0 <= i < limit ==> FirstIndex(c, Select(c, limit)[i]) < FirstIndex(c, k)
  {
    var d := Dedup(c);
    var f := Filter(d, IsLong);
    SelectOrdered(c, |f|);
    assert Select(c, |f|) == f;
    var m :| 0 <= m < |c| && c[m] == k;
    assert k in d;
    var n :| 0 <= n < |d| && d[n] == k;
    assert k in f;
    var q :| 0 <= q < |f| && f[q] == k;
    assert q >= limit;
  }

  /** The keywords of `text`: the first `limit` distinct candidates longer than
      three characters, in the order of their first occurrence among the
      candidates. */
  function ExtractKeywords(nlp: Nlp, text: string, limit: nat): (r: seq<string>)
    ensures |r| <= limit
    ensures Distinct(r)
    ensures forall i :: 0 <= i < |r| ==> IsLong(r[i]) && r[i] in Candidates(nlp, text)
    ensures forall i, j :: 0 <= i < j < |r| ==>
      FirstIndex(Candidates(nlp, text), r[i]) < FirstIndex(Candidates(nlp, text), r[j])
    ensures forall k :: k in Candidates(nlp, text) && IsLong(k) && k !in r ==>
      |r| == limit &&
      forall i :: 0 <= i < |r| ==> FirstIndex(Candidates(nlp, text), r[i]) < FirstIndex(Candidates(nlp, text), k)
  {
    var c := Candidates(nlp, text);
    SelectOrdered(c, limit);
    forall k | k in c && IsLong(k) && k !in Select(c, limit)
      ensures |Select(c, limit)| == limit
      ensures forall i :: 0 <= i < limit ==> FirstIndex(c, Select(c, limit)[i]) < FirstIndex(c, k)
    {
      SelectComplete(c, limit, k);
    }
    Select(c, limit)
  }

  /** A candidate's first occurrence lies among the topic phrases exactly when
      it is a topic phrase. */
  lemma FirstIndexInTopics(nlp: Nlp, text: string, k: string)
    requires k in Candidates(nlp, text)
    ensures FirstIndex(Candidates(nlp, text), k) < |nlp.topics(text)| <==> k in nlp.topics(text)
  {
    var c, t := Candidates(nlp, text), nlp.topics(text);
    var i := FirstIndex(c, k);
    if k in t {
      var j :| 0 <= j < |t| && t[j] == k;
      assert c[j] == k;
    }
    if i < |t| {
      assert t[i] == c[i];
    }
  }

  /** Topic phrases come before nouns: once a keyword that is not a topic
      phrase appears, no topic phrase follows it. */
  lemma {:induction false} TopicsBeforeNouns(nlp: Nlp, text: string, limit: nat, i: nat, j: nat)
    requires i < j < |ExtractKeywords(nlp, text, limit)|
    requires ExtractKeywords(nlp, text, limit)[j] in nlp.topics(text)
    ensures ExtractKeywords(nlp, text, limit)[i] in nlp.topics(text)
  {
    var r := ExtractKeywords(nlp, text, limit);
    FirstIndexInTopics(nlp, text, r[i]);
    FirstIndexInTopics(nlp, text, r[j]);
  }
}
