/**
 * The lexicon sentiment scorer (`analyzeSentiment` in
 * client/src/lib/analysis.ts): each whitespace-separated token of the
 * lower-cased text adds one if it contains a positive word and takes one
 * away if it contains a negative word; the sum is scaled by a tenth of the
 * token count (at least one), clamped to [-1, 1] and labelled.
 */
module Sentiment {
  import opened Text

  const PositiveWords: seq<string> :=
    ["good", "great", "excellent", "amazing", "wonderful", "fantastic", "love", "perfect", "best", "happy", "helpful"]
  const NegativeWords: seq<string> :=
    ["bad", "terrible", "awful", "horrible", "worst", "hate", "poor", "disappointing", "frustrating", "difficult"]

  datatype Label = Negative | Neutral | Positive

  /** `polarity` is the `label` field of the source record. */
  datatype SentimentScore = SentimentScore(score: real, polarity: Label)

  /** `lexicon.some(w => token.includes(w))`. */
  predicate MentionsAny(lexicon: seq<string>, token: string) {
    exists i :: 0 <= i < |lexicon| && Contains(token, lexicon[i])
  }

  /** What one token adds to the counter. */
  function Contribution(token: string): (d: int)
    ensures -1 <= d <= 1
    ensures MentionsAny(PositiveWords, token) && MentionsAny(NegativeWords, token) ==> d == 0
  {
    (if MentionsAny(PositiveWords, token) then 1 else 0) - (if MentionsAny(NegativeWords, token) then 1 else 0)
  }

  /** The counter after all `tokens`. */
  function RawScore(tokens: seq<string>): int {
    if tokens == [] then 0 else RawScore(tokens[..|tokens| - 1]) + Contribution(tokens[|tokens| - 1])
  }

  function Clamp(x: real): real {
    if x < -1.0 then -1.0 else if x > 1.0 then 1.0 else x
  }

  /** `Math.max(-1, Math.min(1, raw / Math.max(tokenCount / 10, 1)))`. */
  function Normalize(raw: int, tokenCount: nat): real {
    var scale := tokenCount as real / 10.0;
    Clamp(raw as real / (if scale > 1.0 then scale else 1.0))
  }

  function LabelOf(score: real): Label {
    if score < -0.1 then Negative else if score > 0.1 then Positive else Neutral
  }

  function Tokens(text: string): seq<string> {
    SplitWs(Lower(text))
  }

  /** The score and label of `text`. */
  function SentimentOf(text: string): SentimentScore {
    var score := Normalize(RawScore(Tokens(text)), |Tokens(text)|);
    SentimentScore(score, LabelOf(score))
  }

  /** The scorer loop: the counter walks the tokens and changes by at most one
      per token. */
  method AnalyzeSentiment(text: string) returns (s: SentimentScore)
    ensures s == SentimentOf(text)
    ensures -1.0 <= s.score <= 1.0
    ensures s.polarity == Positive <==> s.score > 0.1
    ensures s.polarity == Negative <==> s.score < -0.1
    ensures s.polarity == Neutral <==> -0.1 <= s.score <= 0.1
  {
    var words := SplitWs(Lower(text));
    var score := 0;
    var i := 0;
    while i < |words|
      invariant 0 <= i <= |words|
      invariant score == RawScore(words[..i])
      invariant -i <= score <= i
    {
      assert words[..i + 1][..i] == words[..i];
      if MentionsAny(PositiveWords, words[i]) {
        score := score + 1;
      }
      if MentionsAny(NegativeWords, words[i]) {
        score := score - 1;
      }
      i := i + 1;
    }
    assert words[..|words|] == words;
    var normalized := Normalize(score, |words|);
    var polarity := Neutral;
    if normalized > 0.1 {
      polarity := Positive;
    }
    if normalized < -0.1 {
      polarity := Negative;
    }
    s := SentimentScore(normalized, polarity);
  }

  /** The counter never moves further from zero than the number of tokens. */
  lemma {:induction false} RawScoreBound(tokens: seq<string>)
    ensures -|tokens| <= RawScore(tokens) <= |tokens|
  {
    if tokens != [] {
      RawScoreBound(tokens[..|tokens| - 1]);
    }
  }

  /** A text of at most ten tokens is not scaled down: its score is the
      clamped counter. */
  lemma ShortTextUnscaled(text: string)
    requires |Tokens(text)| <= 10
    ensures SentimentOf(text).score == Clamp(RawScore(Tokens(text)) as real)
  {
  }

  /** The empty text splits into one empty token, so it is neutral with score 0. */
  lemma EmptyTextNeutral()
    ensures Tokens("") == [""]
    ensures SentimentOf("") == SentimentScore(0.0, Neutral)
  {
    assert !MentionsAny(PositiveWords, "") by {
      forall i | 0 <= i < |PositiveWords| ensures !Contains("", PositiveWords[i]) {
        assert |PositiveWords[i]| > 0;
      }
    }
    assert !MentionsAny(NegativeWords, "") by {
      forall i | 0 <= i < |NegativeWords| ensures !Contains("", NegativeWords[i]) {
        assert |NegativeWords[i]| > 0;
      }
    }
    assert RawScore([""]) == RawScore([]) + Contribution("");
  }
}
