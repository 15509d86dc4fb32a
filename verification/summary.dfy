/**
 * The one-line conversation summary (`generateConversationSummary` in
 * client/src/lib/analysis.ts): the message count, five keywords of the
 * joined message texts and the overall sentiment label.
 */
module Summary {
  import opened Text
  import opened Store
  import opened Keywords
  import opened Sentiment

  const NoMessages := "No messages found."
  const Intro := "This conversation contains "
  const Discussing := " messages discussing "
  const Overall := ". Overall sentiment: "

  /** The label as the template literal renders it. */
  function LabelName(l: Label): string {
    match l
    case Negative => "negative"
    case Neutral => "neutral"
    case Positive => "positive"
  }

  /** The template literal with its three holes filled. */
  function Sentence(count: string, keywords: string, name: string): string {
    Intro + count + Discussing + keywords + Overall + name + "."
  }

  /** Where each hole of the template ends up. */
  lemma SentenceParts(count: string, keywords: string, name: string)
    ensures var r := Sentence(count, keywords, name);
      && |Intro| + |count| + |Discussing| + |keywords| + |Overall| + |name| + 1 == |r|
      && r[..|Intro|] == Intro
      && r[|Intro|..|Intro| + |count|] == count
      && r[..|Intro| + |count| + |Discussing|] == Intro + count + Discussing
      && IsOccurrence(r, keywords, |Intro| + |count| + |Discussing|)
      && r[|r| - |Overall + name + "."|..] == Overall + name + "."
  {
    var r := Sentence(count, keywords, name);
    var a := Intro + count + Discussing;
    var tail := Overall + name + ".";
    assert r == a + keywords + tail;
    assert r[|a|..|a| + |keywords|] == keywords;
    assert r[|r| - |tail|..] == tail;
    assert r[..|Intro|] == Intro;
    assert r[|Intro|..|Intro| + |count|] == count;
    assert r[..|a|] == a;
  }

  function SummaryKeywords(nlp: Nlp, messages: seq<ChatMessage>): seq<string> {
    ExtractKeywords(nlp, Join(Contents(messages), " "), 5)
  }

  function SummarySentiment(messages: seq<ChatMessage>): Label {
    SentimentOf(Join(Contents(messages), " ")).polarity
  }

  /** The summary of the conversation's messages; the fixed notice exactly
      when it has none. */
  function GenerateConversationSummary(nlp: Nlp, store: seq<ChatMessage>, conversationId: string): (r: string)
    ensures r == NoMessages <==> |MessagesOf(store, conversationId)| == 0
  {
    var messages := MessagesOf(store, conversationId);
    if |messages| == 0 then NoMessages
    else
      var count, keywords, name := Decimal(|messages|), Join(SummaryKeywords(nlp, messages), ", "), LabelName(SummarySentiment(messages));
      SentenceParts(count, keywords, name);
      assert Sentence(count, keywords, name)[0] == 'T' != NoMessages[0];
      Sentence(count, keywords, name)
  }

  lemma SummaryIsSentence(nlp: Nlp, store: seq<ChatMessage>, conversationId: string)
    requires |MessagesOf(store, conversationId)| > 0
    ensures var messages := MessagesOf(store, conversationId);
      GenerateConversationSummary(nlp, store, conversationId)
        == Sentence(Decimal(|messages|), Join(SummaryKeywords(nlp, messages), ", "), LabelName(SummarySentiment(messages)))
  {
  }

  /** The number written after the opening words is the number of messages. */
  lemma SummaryCount(nlp: Nlp, store: seq<ChatMessage>, conversationId: string)
    requires |MessagesOf(store, conversationId)| > 0
    ensures var r := GenerateConversationSummary(nlp, store, conversationId);
      var n := |MessagesOf(store, conversationId)|;
      && |Intro| + |Decimal(n)| <= |r|
      && r[..|Intro|] == Intro
      && (forall k :: |Intro| <= k < |Intro| + |Decimal(n)| ==> IsDigit(r[k]))
      && DecimalValue(r[|Intro|..|Intro| + |Decimal(n)|]) == n
  {
    var messages := MessagesOf(store, conversationId);
    SummaryIsSentence(nlp, store, conversationId);
    SentenceParts(Decimal(|messages|), Join(SummaryKeywords(nlp, messages), ", "), LabelName(SummarySentiment(messages)));
  }

  /** After the opening words, the count and " messages discussing " come
      the keywords (at most five) joined by ", ". */
  lemma SummaryKeywordSlot(nlp: Nlp, store: seq<ChatMessage>, conversationId: string)
    requires |MessagesOf(store, conversationId)| > 0
    ensures var messages := MessagesOf(store, conversationId);
      var r := GenerateConversationSummary(nlp, store, conversationId);
      var head := Intro + Decimal(|messages|) + Discussing;
      && |SummaryKeywords(nlp, messages)| <= 5
      && |head| <= |r| && r[..|head|] == head
      && IsOccurrence(r, Join(SummaryKeywords(nlp, messages), ", "), |head|)
  {
    var messages := MessagesOf(store, conversationId);
    var count, keywords, name := Decimal(|messages|), Join(SummaryKeywords(nlp, messages), ", "), LabelName(SummarySentiment(messages));
    SummaryIsSentence(nlp, store, conversationId);
    SentenceParts(count, keywords, name);
  }

  /** `r` ends with `tail`. */
  predicate EndsWith(r: string, tail: string) {
    |tail| <= |r| && r[|r| - |tail|..] == tail
  }

  /** The summary closes with the sentiment name of the joined text. */
  lemma SummaryEndsWithSentiment(nlp: Nlp, store: seq<ChatMessage>, conversationId: string)
    requires |MessagesOf(store, conversationId)| > 0
    ensures EndsWith(GenerateConversationSummary(nlp, store, conversationId),
                     Overall + LabelName(SummarySentiment(MessagesOf(store, conversationId))) + ".")
  {
    var messages := MessagesOf(store, conversationId);
    SummaryIsSentence(nlp, store, conversationId);
    SentenceTail(Decimal(|messages|), Join(SummaryKeywords(nlp, messages), ", "), LabelName(SummarySentiment(messages)));
  }

  lemma SentenceTail(count: string, keywords: string, name: string)
    ensures EndsWith(Sentence(count, keywords, name), Overall + name + ".")
  {
    var r := Sentence(count, keywords, name);
    var tail := Overall + name + ".";
    assert r == (Intro + count + Discussing + keywords) + tail;
  }

  /** Each of the (at most five) keywords appears in the summary. */
  lemma SummaryMentionsKeywords(nlp: Nlp, store: seq<ChatMessage>, conversationId: string, i: nat)
    requires |MessagesOf(store, conversationId)| > 0
    requires i < |SummaryKeywords(nlp, MessagesOf(store, conversationId))|
    ensures Contains(GenerateConversationSummary(nlp, store, conversationId),
                     SummaryKeywords(nlp, MessagesOf(store, conversationId))[i])
  {
    var messages := MessagesOf(store, conversationId);
    var kws := SummaryKeywords(nlp, messages);
    var count, keywords, name := Decimal(|messages|), Join(kws, ", "), LabelName(SummarySentiment(messages));
    var p := JoinOccurrence(kws, ", ", i);
    SummaryIsSentence(nlp, store, conversationId);
    SentenceParts(count, keywords, name);
    OccurrenceWithin(Sentence(count, keywords, name), keywords, |Intro| + |count| + |Discussing|, kws[i], p);
  }
}
