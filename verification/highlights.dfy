/**
 * Search-result snippets (`extractHighlights` in client/src/lib/search.ts):
 * up to three windows of context around case-insensitive occurrences of the
 * query, found one after the other by `indexOf` from one past the previous
 * occurrence; when there is none, the first 200 characters.
 */
module Highlights {
  import opened Text
  import opened Seqs

  const ContextLength := 100
  const MaxHighlights := 3
  const Ellipsis := "..."

  /** `text.substring(start, end)` around an occurrence at `index`, marked with
      an ellipsis on each side where text was cut off. */
  function Window(text: string, index: nat, queryLength: nat): (w: string)
    requires index + queryLength <= |text|
    ensures |w| <= queryLength + 2 * ContextLength + 2 * |Ellipsis|
  {
    var start := if index - ContextLength > 0 then index - ContextLength else 0;
    var end := if |text| < index + queryLength + ContextLength then |text| else index + queryLength + ContextLength;
    (if start > 0 then Ellipsis else "") + text[start..end] + (if end < |text| then Ellipsis else "")
  }

  /** The occurrences the loop visits from the `indexOf` call that starts at
      `from`, with room for `budget` more highlights. An occurrence at the
      very end (only the empty query has one) is visited again, because
      `indexOf` clamps a start beyond the end. */
  function Visits(textLower: string, queryLower: string, from: int, budget: nat): (r: seq<nat>)
    ensures |r| <= budget
    decreases budget
  {
    var index := IndexOf(textLower, queryLower, from);
    if index == -1 || budget == 0 then []
    else [index as nat] + Visits(textLower, queryLower, index + 1, budget - 1)
  }

  /** Every position in `r` is an occurrence at or after the clamped start. */
  predicate OccurrencesFrom(textLower: string, queryLower: string, from: int, r: seq<nat>) {
    forall k :: 0 <= k < |r| ==> IsOccurrence(textLower, queryLower, r[k]) && ClampIndex(textLower, from) <= r[k]
  }

  /** The positions increase, except that the empty query may be found again
      and again at the very end. */
  predicate Ascending(textLower: string, queryLower: string, r: seq<nat>) {
    forall i, j :: 0 <= i < j < |r| ==> r[i] < r[j] || (queryLower == [] && r[i] == r[j] == |textLower|)
  }

  /** Every visited position is an occurrence at or after the start. */
  lemma {:induction false} VisitsAreOccurrences(textLower: string, queryLower: string, from: int, budget: nat)
    ensures OccurrencesFrom(textLower, queryLower, from, Visits(textLower, queryLower, from, budget))
    decreases budget
  {
    var index := IndexOf(textLower, queryLower, from);
    if index != -1 && budget > 0 {
      VisitsAreOccurrences(textLower, queryLower, index + 1, budget - 1);
      var rest := Visits(textLower, queryLower, index + 1, budget - 1);
      var r := Visits(textLower, queryLower, from, budget);
      assert r == [index as nat] + rest;
      assert ClampIndex(textLower, from) <= index <= ClampIndex(textLower, index + 1);
    }
  }

  /** The visited positions increase, except that the empty query may be
      found again and again at the very end. */
  lemma {:induction false} VisitsAscending(textLower: string, queryLower: string, from: int, budget: nat)
    ensures Ascending(textLower, queryLower, Visits(textLower, queryLower, from, budget))
    decreases budget
  {
    var index := IndexOf(textLower, queryLower, from);
    if index != -1 && budget > 0 {
      VisitsAscending(textLower, queryLower, index + 1, budget - 1);
      VisitsAreOccurrences(textLower, queryLower, index + 1, budget - 1);
      var rest := Visits(textLower, queryLower, index + 1, budget - 1);
      var r := Visits(textLower, queryLower, from, budget);
      assert r == [index as nat] + rest;
      forall k | 0 <= k < |rest| ensures index < rest[k] || (queryLower == [] && rest[k] == index == |textLower|) {
        assert ClampIndex(textLower, index + 1) <= rest[k];
      }
    }
  }

  /** The positions the loop highlights. */
  function Occurrences(text: string, query: string): seq<nat> {
    Visits(Lower(text), Lower(query), 0, MaxHighlights)
  }

  function Windows(text: string, queryLength: nat, indices: seq<nat>): (r: seq<string>)
    requires forall k :: 0 <= k < |indices| ==> indices[k] + queryLength <= |text|
    ensures |r| == |indices|
    ensures forall k :: 0 <= k < |r| ==> r[k] == Window(text, indices[k], queryLength)
  {
    if |indices| == 0 then []
    else Windows(text, queryLength, indices[..|indices| - 1]) + [Window(text, indices[|indices| - 1], queryLength)]
  }

  /** What `extractHighlights(text, query)` returns. */
  function HighlightsOf(text: string, query: string): seq<string> {
    var occ := Occurrences(text, query);
    if occ == [] then [Take(text, 200) + Ellipsis] else Windows(text, |query|, occ)
  }

  /** There is always at least one snippet and never more than three. */
  lemma HighlightsCount(text: string, query: string)
    ensures 1 <= |HighlightsOf(text, query)| <= MaxHighlights
  {
    var occ := Occurrences(text, query);
    assert |occ| <= MaxHighlights;
  }

  /** `extractHighlights`: the windows the loop collects, or the fallback
      snippet when it collects none. */
  method ExtractHighlights(text: string, query: string) returns (highlights: seq<string>)
    ensures highlights == HighlightsOf(text, query)
  {
    highlights := CollectWindows(text, query);
    if |highlights| == 0 {
      highlights := [Take(text, 200) + Ellipsis];
    }
  }

  /** The `while` loop of `extractHighlights`. */
  method CollectWindows(text: string, query: string) returns (highlights: seq<string>)
    ensures |highlights| == |Occurrences(text, query)|
    ensures |highlights| > 0 ==> highlights == HighlightsOf(text, query)
  {
    highlights := [];
    var queryLower := Lower(query);
    var textLower := Lower(text);
    var index := IndexOf(textLower, queryLower, 0);
    ghost var from := 0;
    ghost var visited: seq<nat> := [];
    ProgressStart(text, query);
    while index != -1 && |highlights| < MaxHighlights
      invariant Progress(text, query, from, index, visited, highlights)
      decreases MaxHighlights - |highlights|
    {
      ghost var last := index;
      visited, highlights, index := NextHighlight(text, query, textLower, queryLower, from, index, visited, highlights);
      from := last + 1;
    }
    ProgressDone(text, query, from, index, visited, highlights);
  }

  /** The body of the loop: the window around the occurrence found, and the
      search from one past it. */
  method NextHighlight(text: string, query: string, textLower: string, queryLower: string,
              ghost from: int, index: int, ghost visited: seq<nat>, highlights: seq<string>)
    returns (ghost visited': seq<nat>, highlights': seq<string>, index': int)
    requires textLower == Lower(text) && queryLower == Lower(query)
    requires index != -1 && |highlights| < MaxHighlights
    requires Progress(text, query, from, index, visited, highlights)
    ensures |highlights'| == |highlights| + 1
    ensures Progress(text, query, index + 1, index', visited', highlights')
  {
    visited' := ProgressTurn(text, query, from, index, visited, highlights);
    var highlight := Window(text, index, |query|);
    highlights' := highlights + [highlight];
    index' := IndexOf(textLower, queryLower, index + 1);
  }

  /** What holds after each turn of the loop: `visited` are the positions
      found so far, `highlights` their windows, and the searches still to
      come from `from` visit the rest of the occurrences. */
  ghost predicate Progress(text: string, query: string, from: int, index: int, visited: seq<nat>, highlights: seq<string>) {
    && index == IndexOf(Lower(text), Lower(query), from)
    && |visited| == |highlights| <= MaxHighlights
    && (forall k :: 0 <= k < |visited| ==> visited[k] + |query| <= |text|)
    && highlights == Windows(text, |query|, visited)
    && visited + Visits(Lower(text), Lower(query), from, MaxHighlights - |visited|) == Occurrences(text, query)
  }

  lemma ProgressStart(text: string, query: string)
    ensures Progress(text, query, 0, IndexOf(Lower(text), Lower(query), 0), [], [])
  {
    assert [] + Occurrences(text, query) == Occurrences(text, query);
  }

  /** One turn of the loop: the occurrence found is the next position
      visited, and its window the next highlight. */
  lemma ProgressTurn(text: string, query: string, from: int, index: int, visited: seq<nat>, highlights: seq<string>)
    returns (next: seq<nat>)
    requires index != -1 && |highlights| < MaxHighlights
    requires Progress(text, query, from, index, visited, highlights)
    ensures index + |query| <= |text| && next == visited + [index as nat]
    ensures Progress(text, query, index + 1, IndexOf(Lower(text), Lower(query), index + 1), next, highlights + [Window(text, index, |query|)])
  {
    var budget := MaxHighlights - |visited|;
    VisitsStep(Lower(text), Lower(query), from, budget, visited, index);
    WindowsSnoc(text, |query|, visited, index);
    next := visited + [index as nat];
    assert MaxHighlights - |next| == budget - 1;
  }

  /** When the loop stops, the positions visited are all the occurrences
      it highlights, and the snippets are those `HighlightsOf` describes. */
  lemma ProgressDone(text: string, query: string, from: int, index: int, visited: seq<nat>, highlights: seq<string>)
    requires index == -1 || |highlights| == MaxHighlights
    requires Progress(text, query, from, index, visited, highlights)
    ensures |highlights| == |Occurrences(text, query)|
    ensures |highlights| > 0 ==> highlights == HighlightsOf(text, query)
  {
    assert visited + [] == visited;
  }

  lemma WindowsSnoc(text: string, queryLength: nat, indices: seq<nat>, i: nat)
    requires forall k :: 0 <= k < |indices| ==> indices[k] + queryLength <= |text|
    requires i + queryLength <= |text|
    ensures forall k :: 0 <= k < |indices + [i]| ==> (indices + [i])[k] + queryLength <= |text|
    ensures Windows(text, queryLength, indices + [i]) == Windows(text, queryLength, indices) + [Window(text, i, queryLength)]
  {
  }

  /** One turn of the loop moves the next occurrence from the unvisited to
      the visited part. */
  lemma VisitsStep(textLower: string, queryLower: string, from: int, budget: nat, visited: seq<nat>, index: int)
    requires index == IndexOf(textLower, queryLower, from) != -1 && budget > 0
    ensures visited + Visits(textLower, queryLower, from, budget)
        == (visited + [index as nat]) + Visits(textLower, queryLower, index + 1, budget - 1)
  {
  }

  /** The positions `r` visited with `budget` reach `q`: the budget was not
      used up, or `q` is not past the last position visited. */
  predicate Covers(r: seq<nat>, budget: nat, q: nat) {
    |r| < budget || (r != [] && q <= r[|r| - 1])
  }

  /** The shape of `Visits` after a successful search: the position found,
      then the visits from just past it. */
  lemma VisitsCons(textLower: string, queryLower: string, from: int, budget: nat, index: int)
    requires index == IndexOf(textLower, queryLower, from) != -1 && budget > 0
    ensures var r, rest := Visits(textLower, queryLower, from, budget), Visits(textLower, queryLower, index + 1, budget - 1);
      |r| == |rest| + 1 && r[0] == index
  {
  }

  /** A position visited after the first search is visited from its start
      one place later. */
  lemma VisitsShift(textLower: string, queryLower: string, from: int, budget: nat, index: int, j: nat)
    requires index == IndexOf(textLower, queryLower, from) != -1 && budget > 0
    requires j < |Visits(textLower, queryLower, index + 1, budget - 1)|
    ensures j + 1 < |Visits(textLower, queryLower, from, budget)|
    ensures Visits(textLower, queryLower, from, budget)[j + 1] == Visits(textLower, queryLower, index + 1, budget - 1)[j]
  {
    VisitsStep(textLower, queryLower, from, budget, [], index);
  }

  /** When the visits from the start reach `q` and the first search stops
      before `q`, the visits after it reach `q` too. */
  lemma CoversRest(textLower: string, queryLower: string, from: int, budget: nat, index: int, q: nat)
    requires index == IndexOf(textLower, queryLower, from) != -1 && index < q && budget > 0
    requires Covers(Visits(textLower, queryLower, from, budget), budget, q)
    ensures Covers(Visits(textLower, queryLower, index + 1, budget - 1), budget - 1, q)
  {
    VisitsCons(textLower, queryLower, from, budget, index);
    var rest := Visits(textLower, queryLower, index + 1, budget - 1);
    if rest != [] {
      VisitsShift(textLower, queryLower, from, budget, index, |rest| - 1);
    }
  }

  /** Nothing is skipped: every occurrence at or after the start is visited,
      up to the last one visited when the budget runs out. The position it
      is visited at is `k`. */
  lemma {:induction false} VisitsComplete(textLower: string, queryLower: string, from: int, budget: nat, q: nat) returns (k: nat)
    requires IsOccurrence(textLower, queryLower, q) && ClampIndex(textLower, from) <= q
    requires Covers(Visits(textLower, queryLower, from, budget), budget, q)
    ensures k < |Visits(textLower, queryLower, from, budget)| && Visits(textLower, queryLower, from, budget)[k] == q
    decreases budget, 1
  {
    IndexOfFinds(textLower, queryLower, from, q);
    var index := IndexOf(textLower, queryLower, from);
    assert budget > 0;
    VisitsCons(textLower, queryLower, from, budget, index);
    if q > index {
      CoversRest(textLower, queryLower, from, budget, index, q);
      k := VisitsCompleteAfter(textLower, queryLower, from, budget, q, index);
    } else {
      k := 0;
    }
  }

  /** The case of `VisitsComplete` where the search from the start finds an
      earlier occurrence: `q` is visited by the searches after it. */
  lemma {:induction false} VisitsCompleteAfter(textLower: string, queryLower: string, from: int, budget: nat, q: nat, index: int) returns (k: nat)
    requires IsOccurrence(textLower, queryLower, q)
    requires index == IndexOf(textLower, queryLower, from) != -1 && index < q && budget > 0
    requires Covers(Visits(textLower, queryLower, index + 1, budget - 1), budget - 1, q)
    ensures k < |Visits(textLower, queryLower, from, budget)| && Visits(textLower, queryLower, from, budget)[k] == q
    decreases budget, 0
  {
    ClampBelow(textLower, queryLower, index + 1, q);
    var j := VisitsComplete(textLower, queryLower, index + 1, budget - 1, q);
    VisitsShift(textLower, queryLower, from, budget, index, j);
    k := j + 1;
  }

  lemma ClampBelow(textLower: string, queryLower: string, from: int, q: nat)
    requires IsOccurrence(textLower, queryLower, q) && 0 <= from <= q
    ensures ClampIndex(textLower, from) <= q
  {
  }

  /** The highlighted positions are the leading occurrences of the lower-cased
      query in the lower-cased text, in order: all of them when there are
      fewer than three, otherwise every occurrence up to the third one. */
  lemma OccurrencesComplete(text: string, query: string, q: nat) returns (k: nat)
    requires IsOccurrence(Lower(text), Lower(query), q)
    ensures var r := Occurrences(text, query);
      |r| < MaxHighlights || q <= r[|r| - 1] ==> k < |r| && r[k] == q
  {
    var r := Occurrences(text, query);
    k := 0;
    if |r| < MaxHighlights || q <= r[|r| - 1] {
      assert ClampIndex(Lower(text), 0) == 0;
      assert Covers(r, MaxHighlights, q);
      k := VisitsComplete(Lower(text), Lower(query), 0, MaxHighlights, q);
    }
  }

  /** The fallback snippet is returned exactly when the text does not contain
      the query, ignoring case. */
  lemma FallbackIffNoMatch(text: string, query: string)
    ensures |Occurrences(text, query)| == 0 <==> !Contains(Lower(text), Lower(query))
    ensures |Occurrences(text, query)| == 0 ==> HighlightsOf(text, query) == [Take(text, 200) + Ellipsis]
  {
    var r := Occurrences(text, query);
    if Contains(Lower(text), Lower(query)) {
      var q :| IsOccurrence(Lower(text), Lower(query), q);
      var k := OccurrencesComplete(text, query, q);
    }
    if |r| > 0 {
      VisitsAreOccurrences(Lower(text), Lower(query), 0, MaxHighlights);
      assert IsOccurrence(Lower(text), Lower(query), r[0]);
    }
  }

  /** When the text contains the query, every snippet shows it. */
  lemma HighlightsShowQuery(text: string, query: string)
    requires |Occurrences(text, query)| > 0
    ensures forall k :: 0 <= k < |HighlightsOf(text, query)| ==> Contains(Lower(HighlightsOf(text, query)[k]), Lower(query))
  {
    var r := Occurrences(text, query);
    VisitsAreOccurrences(Lower(text), Lower(query), 0, MaxHighlights);
    forall k | 0 <= k < |r| ensures Contains(Lower(Window(text, r[k], |query|)), Lower(query)) {
      WindowContainsQuery(text, query, r[k]);
    }
  }

  /** Each window shows the occurrence it was made for: its lower-cased text
      contains the lower-cased query. */
  lemma WindowContainsQuery(text: string, query: string, index: nat)
    requires IsOccurrence(Lower(text), Lower(query), index)
    ensures Contains(Lower(Window(text, index, |query|)), Lower(query))
  {
    var start, end, pre, post := WindowParts(text, index, |query|);
    SliceContains(text, query, index, start, end, pre, post);
  }

  /** The marked slice between `start` and `end` shows an occurrence it holds. */
  lemma SliceContains(text: string, query: string, index: nat, start: nat, end: nat, pre: string, post: string)
    requires IsOccurrence(Lower(text), Lower(query), index)
    requires start <= index && index + |query| <= end <= |text|
    requires pre == "" || pre == Ellipsis
    requires post == "" || post == Ellipsis
    ensures Contains(Lower(pre + text[start..end] + post), Lower(query))
  {
    OccurrenceInSlice(Lower(text), Lower(query), index, start, end);
    LowerSlice(text, start, end);
    MarkedContains(pre, text[start..end], post, Lower(query), index - start);
  }

  /** A window is the text between `start` and `end`, which hold the
      occurrence, with a mark on each side. */
  lemma WindowParts(text: string, index: nat, queryLength: nat) returns (start: nat, end: nat, pre: string, post: string)
    requires index + queryLength <= |text|
    ensures start <= index && index + queryLength <= end <= |text|
    ensures index >= ContextLength ==> start == index - ContextLength
    ensures index < ContextLength ==> start == 0
    ensures index + queryLength + ContextLength <= |text| ==> end == index + queryLength + ContextLength
    ensures index + queryLength + ContextLength > |text| ==> end == |text|
    ensures pre == "" || pre == Ellipsis
    ensures pre == Ellipsis <==> start > 0
    ensures post == "" || post == Ellipsis
    ensures post == Ellipsis <==> end < |text|
    ensures Window(text, index, queryLength) == pre + text[start..end] + post
  {
    start := if index - ContextLength > 0 then index - ContextLength else 0;
    end := if |text| < index + queryLength + ContextLength then |text| else index + queryLength + ContextLength;
    pre := if start > 0 then Ellipsis else "";
    post := if end < |text| then Ellipsis else "";
  }

  /** Marking a cut with an ellipsis keeps an occurrence in the lower-cased
      text. */
  lemma MarkedContains(pre: string, mid: string, post: string, sub: string, p: nat)
    requires pre == "" || pre == Ellipsis
    requires post == "" || post == Ellipsis
    requires IsOccurrence(Lower(mid), sub, p)
    ensures Contains(Lower(pre + mid + post), sub)
  {
    LowerMarks(pre, post);
    LowerConcat(pre, mid);
    LowerConcat(pre + mid, post);
    OccurrenceShift(Lower(mid), sub, p, pre, post);
  }

  /** The ellipsis marks have no upper-case letters. */
  lemma LowerMarks(pre: string, post: string)
    requires pre == "" || pre == Ellipsis
    requires post == "" || post == Ellipsis
    ensures Lower(pre) == pre && Lower(post) == post
  {
  }
}
