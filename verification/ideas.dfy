/**
 * Idea extraction (`extractIdeas` in client/src/lib/analysis.ts).
 *
 * The three global, case-insensitive regular expressions are kept as data: a
 * list of alternative keywords, a list of optional elements, and the common
 * tail `\s+([^.!?]+[.!?])`. `MatchAt` is what the regular-expression engine
 * computes for a pattern of this shape at one position, following its
 * backtracking order: keywords in declared order, each optional element
 * taken before it is skipped, and the greedy `\s+` given back one character
 * only when the clause would otherwise be empty.
 */
module Ideas {
  import opened Text
  import opened Seqs
  import opened Store

  /** An optional element between the keyword and the clause. */
  datatype Optional =
    | SpaceWord(word: string)  // (?:\s+word)?
    | Char(c: char)            // c?

  datatype Pattern = Pattern(keywords: seq<string>, optionals: seq<Optional>)

  /** `(?:idea|suggestion|concept|thought|plan|proposal)(?:\s+is)?:?\s+([^.!?]+[.!?])` */
  const Explicit := Pattern(["idea", "suggestion", "concept", "thought", "plan", "proposal"], [SpaceWord("is"), Char(':')])
  /** `(?:you could|we could|might|perhaps|maybe|consider)(?:\s+try)?(?:\s+to)?\s+([^.!?]+[.!?])` */
  const Suggestive := Pattern(["you could", "we could", "might", "perhaps", "maybe", "consider"], [SpaceWord("try"), SpaceWord("to")])
  /** `(?:what if|how about|why not)\s+([^.!?]+[.!?])` */
  const Rhetorical := Pattern(["what if", "how about", "why not"], [])

  const IdeaPatterns := [Explicit, Suggestive, Rhetorical]

  predicate IsTerminator(c: char) {
    c == '.' || c == '!' || c == '?'
  }

  /** The captured group `text[start..end]`. */
  datatype Capture = Capture(start: nat, end: nat)

  /** A match of a pattern: where it starts and what it captured; the match
      ends where the capture ends. */
  datatype Match = Match(start: nat, capture: Capture)

  predicate AllClauses(text: string, ms: seq<Match>) {
    forall i :: 0 <= i < |ms| ==> IsClause(text, ms[i].capture)
  }

  /** A captured clause: at least one character that is not a terminator,
      then the first terminator after them. */
  predicate IsClause(text: string, c: Capture) {
    c.start + 1 < c.end <= |text| &&
    IsTerminator(text[c.end - 1]) &&
    forall k :: c.start <= k < c.end - 1 ==> !IsTerminator(text[k])
  }

  /** Case-insensitive match of the lower-case literal `w` at `p` (the `i` flag
      folds ASCII letters only). */
  predicate LiteralAt(text: string, w: string, p: nat) {
    p + |w| <= |text| && Lower(text[p..p + |w|]) == w
  }

  /** First terminator at or after `i`, or `|text|`. */
  function FirstTerminator(text: string, i: nat): (t: nat)
    requires i <= |text|
    ensures i <= t <= |text|
    ensures t == |text| || IsTerminator(text[t])
    ensures forall k :: i <= k < t ==> !IsTerminator(text[k])
    decreases |text| - i
  {
    if i == |text| || IsTerminator(text[i]) then i else FirstTerminator(text, i + 1)
  }

  /** `\s+([^.!?]+[.!?])` at `p`. */
  function Clause(text: string, p: nat): (r: Option<Capture>)
    requires p <= |text|
    ensures r.Some? ==> p < r.value.start && IsClause(text, r.value)
  {
    var ws := SpanSpace(text, p);
    if ws == p then None
    else
      var t := FirstTerminator(text, ws);
      if t == |text| then None
      else if t > ws then Some(Capture(ws, t + 1))
      else if ws - p >= 2 then Some(Capture(ws - 1, t + 1))
      else None
  }

  /** Where an optional element ends when it is taken at `p`. */
  function TakeOptional(o: Optional, text: string, p: nat): (r: Option<nat>)
    requires p <= |text|
    ensures r.Some? ==> p < r.value <= |text|
  {
    match o
    case SpaceWord(w) =>
      var q := SpanSpace(text, p);
      if q > p && LiteralAt(text, w, q) then Some(q + |w|) else None
    case Char(c) =>
      if p < |text| && LowerChar(text[p]) == c then Some(p + 1) else None
  }

  /** The optional elements and the clause, from `p`. */
  function MatchRest(opts: seq<Optional>, text: string, p: nat): (r: Option<Capture>)
    requires p <= |text|
    ensures r.Some? ==> p < r.value.start && IsClause(text, r.value)
    decreases |opts|
  {
    if opts == [] then Clause(text, p)
    else
      var taken := TakeOptional(opts[0], text, p);
      var viaTaken := if taken.Some? then MatchRest(opts[1..], text, taken.value) else None;
      if viaTaken.Some? then viaTaken else MatchRest(opts[1..], text, p)
  }

  /** The keyword alternation, tried in declared order, then the rest. */
  function MatchKeywords(keywords: seq<string>, opts: seq<Optional>, text: string, p: nat): (r: Option<Capture>)
    requires p <= |text|
    ensures r.Some? ==> p < r.value.start && IsClause(text, r.value)
  {
    if keywords == [] then None
    else
      var viaFirst := if LiteralAt(text, keywords[0], p) then MatchRest(opts, text, p + |keywords[0]|) else None;
      if viaFirst.Some? then viaFirst else MatchKeywords(keywords[1..], opts, text, p)
  }

  /** The capture of a match of `pat` starting exactly at `p`, if any. */
  function MatchAt(pat: Pattern, text: string, p: nat): (r: Option<Capture>)
    requires p <= |text|
  {
    MatchKeywords(pat.keywords, pat.optionals, text, p)
  }

  /** `pat.exec(text)` with `lastIndex == from`: the leftmost match starting at
      or after `from`. */
  function Exec(pat: Pattern, text: string, from: nat): (m: Option<Match>)
    requires from <= |text|
    ensures m.Some? ==> from <= m.value.start < m.value.capture.start && IsClause(text, m.value.capture)
    ensures m.Some? ==> MatchAt(pat, text, m.value.start) == Some(m.value.capture)
    ensures forall q :: from <= q <= |text| && (m.Some? ==> q < m.value.start) ==> MatchAt(pat, text, q).None?
    decreases |text| - from
  {
    var c := MatchAt(pat, text, from);
    if c.Some? then Some(Match(from, c.value))
    else if from == |text| then None
    else Exec(pat, text, from + 1)
  }

  /** The successive matches of the `while (pattern.exec(text))` loop once
      `lastIndex` is `from`: each search resumes where the previous match
      ended, so matches never overlap. */
  function Scan(pat: Pattern, text: string, from: nat): (ms: seq<Match>)
    requires from <= |text|
    ensures AllClauses(text, ms)
    ensures forall i :: 0 <= i < |ms| ==> from <= ms[i].start < ms[i].capture.start
    ensures forall i, j :: 0 <= i < j < |ms| ==> ms[i].capture.end <= ms[j].start
    decreases |text| - from
  {
    match Exec(pat, text, from)
    case None => []
    case Some(m) => [m] + Scan(pat, text, m.capture.end)
  }

  /** Scanning misses nothing: no match of the pattern starts between the end
      of one match and the start of the next, nor after the last one. */
  lemma {:induction false} ScanLeftmost(pat: Pattern, text: string, from: nat, i: nat, q: nat)
    requires from <= |text|
    requires i <= |Scan(pat, text, from)|
    requires (if i == 0 then from else Scan(pat, text, from)[i - 1].capture.end) <= q <= |text|
    requires i < |Scan(pat, text, from)| ==> q < Scan(pat, text, from)[i].start
    ensures MatchAt(pat, text, q).None?
    decreases |text| - from
  {
    var ms := Scan(pat, text, from);
    match Exec(pat, text, from)
    case None =>
    case Some(m) =>
      if i > 0 {
        assert ms[1..] == Scan(pat, text, m.capture.end);
        ScanLeftmost(pat, text, m.capture.end, i - 1, q);
      }
  }

  /** The trimmed capture, when it is longer than ten characters. */
  function Kept(text: string, ms: seq<Match>): seq<string>
    requires AllClauses(text, ms)
  {
    if ms == [] then []
    else
      var c := ms[0].capture;
      assert IsClause(text, c);
      var idea := Trim(text[c.start..c.end]);
      (if |idea| > 10 then [idea] else []) + Kept(text, ms[1..])
  }

  lemma KeptCons(text: string, m: Match, rest: seq<Match>)
    requires AllClauses(text, [m] + rest)
    ensures IsClause(text, m.capture) && AllClauses(text, rest)
    ensures var idea := Trim(text[m.capture.start..m.capture.end]);
      Kept(text, [m] + rest) == (if |idea| > 10 then [idea] else []) + Kept(text, rest)
  {
    assert ([m] + rest)[0] == m;
    assert ([m] + rest)[1..] == rest;
  }

  lemma ScanStep(pat: Pattern, text: string, from: nat)
    requires from <= |text|
    ensures Exec(pat, text, from).None? ==> Scan(pat, text, from) == []
    ensures Exec(pat, text, from).Some? ==>
      Scan(pat, text, from) == [Exec(pat, text, from).value] + Scan(pat, text, Exec(pat, text, from).value.capture.end)
  {
  }

  lemma KeptStep(pat: Pattern, text: string, from: nat)
    requires from <= |text| && Exec(pat, text, from).Some?
    ensures var m := Exec(pat, text, from).value;
      var idea := Trim(text[m.capture.start..m.capture.end]);
      var rest := Kept(text, Scan(pat, text, m.capture.end));
      && (|idea| > 10 ==> Kept(text, Scan(pat, text, from)) == [idea] + rest)
      && (|idea| <= 10 ==> Kept(text, Scan(pat, text, from)) == rest)
  {
    var m := Exec(pat, text, from).value;
    var rest := Kept(text, Scan(pat, text, m.capture.end));
    ScanStep(pat, text, from);
    KeptCons(text, m, Scan(pat, text, m.capture.end));
    assert [] + rest == rest;
  }

  /** Moving one block from the unread part to the read part of a sequence. */
  lemma ShiftBlock<T>(before: seq<T>, block: seq<T>, rest: seq<T>, unread: seq<T>, total: seq<T>)
    requires before + unread == total && unread == block + rest
    ensures (before + block) + rest == total
  {
  }

  /** The ideas one pattern yields. */
  function PatternIdeas(pat: Pattern, text: string): seq<string> {
    Kept(text, Scan(pat, text, 0))
  }

  /** The ideas of the patterns `pats`, pattern after pattern. */
  function IdeasOf(pats: seq<Pattern>, text: string): seq<string> {
    if pats == [] then [] else IdeasOf(pats[..|pats| - 1], text) + PatternIdeas(pats[|pats| - 1], text)
  }

  /** What every extracted idea looks like: more than ten characters, no
      surrounding whitespace, and ending at its first terminator. */
  predicate IsIdea(s: string) {
    |s| > 10 && !IsSpace(s[0]) &&
    IsTerminator(s[|s| - 1]) &&
    forall k :: 0 <= k < |s| - 1 ==> !IsTerminator(s[k])
  }

  /** A kept capture is an idea: trimming only removes leading whitespace,
      because the clause ends with its terminator. */
  lemma ClauseIdea(text: string, c: Capture)
    requires IsClause(text, c)
    ensures |Trim(text[c.start..c.end])| > 10 ==> IsIdea(Trim(text[c.start..c.end]))
    ensures Contains(text, Trim(text[c.start..c.end]))
  {
    var p := TrimmedClause(text, c);
    var idea := Trim(text[c.start..c.end]);
    assert IsOccurrence(text, idea, p);
    if |idea| > 10 {
      forall k | 0 <= k < |idea| - 1 ensures !IsTerminator(idea[k]) {
        assert idea[k] == text[p + k];
      }
    }
  }

  /** The trimmed clause is the text from its first non-space character to
      the end of the clause. */
  lemma TrimmedClause(text: string, c: Capture) returns (p: nat)
    requires IsClause(text, c)
    ensures c.start <= p < c.end
    ensures Trim(text[c.start..c.end]) == text[p..c.end]
  {
    var clause := text[c.start..c.end];
    assert clause[|clause| - 1] == text[c.end - 1];
    TrimKeepsEnd(clause);
    p := c.start + LeadingSpaces(clause);
    assert clause[LeadingSpaces(clause)..] == text[p..c.end];
  }

  lemma {:induction false} KeptAreIdeas(text: string, ms: seq<Match>)
    requires AllClauses(text, ms)
    ensures forall k :: 0 <= k < |Kept(text, ms)| ==> IsIdea(Kept(text, ms)[k]) && Contains(text, Kept(text, ms)[k])
  {
    if ms != [] {
      assert IsClause(text, ms[0].capture);
      ClauseIdea(text, ms[0].capture);
      KeptAreIdeas(text, ms[1..]);
    }
  }

  /** The body of the `forEach` callback: `exec` again and again from where
      the last match ended, keeping the long trimmed captures. */
  method ScanPattern(pattern: Pattern, text: string) returns (ideas: seq<string>)
    ensures ideas == PatternIdeas(pattern, text)
  {
    ideas := [];
    var lastIndex := 0;
    while true
      invariant lastIndex <= |text|
      invariant ideas + Kept(text, Scan(pattern, text, lastIndex)) == PatternIdeas(pattern, text)
      decreases |text| - lastIndex
    {
      var found := Exec(pattern, text, lastIndex);
      if found.None? {
        ScanStep(pattern, text, lastIndex);
        break;
      }
      var m := found.value;
      var idea := Trim(text[m.capture.start..m.capture.end]);
      KeptStep(pattern, text, lastIndex);
      if |idea| > 10 {
        ShiftBlock(ideas, [idea], Kept(text, Scan(pattern, text, m.capture.end)),
          Kept(text, Scan(pattern, text, lastIndex)), PatternIdeas(pattern, text));
        ideas := ideas + [idea];
      }
      lastIndex := m.capture.end;
    }
  }

  /** `extractIdeas`: the patterns in their declared order. */
  method ExtractIdeas(text: string) returns (ideas: seq<string>)
    ensures ideas == IdeasOf(IdeaPatterns, text)
    ensures forall k :: 0 <= k < |ideas| ==> IsIdea(ideas[k]) && Contains(text, ideas[k])
  {
    var patterns := IdeaPatterns;
    ideas := [];
    for n := 0 to |patterns|
      invariant ideas == IdeasOf(patterns[..n], text)
    {
      var found := ScanPattern(patterns[n], text);
      assert patterns[..n + 1][..n] == patterns[..n];
      ideas := ideas + found;
    }
    assert patterns[..|patterns|] == patterns;
    ExtractedAreIdeas(IdeaPatterns, text);
  }

  /** Every extracted idea has the shape `IsIdea` describes and is a piece
      of the text. */
  lemma {:induction false} ExtractedAreIdeas(pats: seq<Pattern>, text: string)
    ensures forall k :: 0 <= k < |IdeasOf(pats, text)| ==>
      IsIdea(IdeasOf(pats, text)[k]) && Contains(text, IdeasOf(pats, text)[k])
  {
    if pats != [] {
      ExtractedAreIdeas(pats[..|pats| - 1], text);
      KeptAreIdeas(text, Scan(pats[|pats| - 1], text, 0));
    }
  }
}
