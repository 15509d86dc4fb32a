/**
 * Idea mining over a whole conversation (`extractConversationIdeas` in
 * client/src/lib/analysis.ts) and the `ideas` table it writes to.
 *
 * The table is declared with an auto-incremented primary key (`++id` in
 * client/src/lib/db.ts): the store numbers added rows 1, 2, 3, ... and
 * `bulkAdd` numbers a batch consecutively in its order.
 */
module IdeaLog {
  import opened Seqs
  import opened Store
  import opened Ideas
  import opened Text

  /** The records of one message's ideas, stamped with `now`. */
  function MessageIdeas(message: ChatMessage, conversationId: string, now: int, ideas: seq<string>): (r: seq<Idea>)
    ensures |r| == |ideas|
    ensures forall k :: 0 <= k < |r| ==> r[k] == Idea(None, conversationId, message.id, ideas[k], now)
  {
    seq(|ideas|, k requires 0 <= k < |ideas| => Idea(None, conversationId, message.id, ideas[k], now))
  }

  /** The records collected for `messages`, message after message, each
      message's ideas in the order `extractIdeas` returns them. */
  function ConversationIdeas(messages: seq<ChatMessage>, conversationId: string, now: int): seq<Idea> {
    if messages == [] then []
    else
      var last := messages[|messages| - 1];
      ConversationIdeas(messages[..|messages| - 1], conversationId, now)
        + MessageIdeas(last, conversationId, now, IdeasOf(IdeaPatterns, last.content))
  }

  lemma MessageIdeasSnoc(message: ChatMessage, conversationId: string, now: int, ideas: seq<string>, k: nat)
    requires k < |ideas|
    ensures MessageIdeas(message, conversationId, now, ideas[..k + 1])
      == MessageIdeas(message, conversationId, now, ideas[..k]) + [Idea(None, conversationId, message.id, ideas[k], now)]
  {
  }

  lemma ConversationIdeasSnoc(messages: seq<ChatMessage>, conversationId: string, now: int, i: nat)
    requires i < |messages|
    ensures ConversationIdeas(messages[..i + 1], conversationId, now)
      == ConversationIdeas(messages[..i], conversationId, now)
        + MessageIdeas(messages[i], conversationId, now, IdeasOf(IdeaPatterns, messages[i].content))
  {
    assert messages[..i + 1][..i] == messages[..i];
  }

  /** Every collected record belongs to the conversation, points at one of
      its messages, carries an idea found in that message's text, and has no
      key yet. */
  lemma {:induction false} ConversationIdeasShape(messages: seq<ChatMessage>, conversationId: string, now: int)
    ensures forall k :: 0 <= k < |ConversationIdeas(messages, conversationId, now)| ==>
      var r := ConversationIdeas(messages, conversationId, now)[k];
      && r.id == None && r.conversationId == conversationId && r.extractedAt == now
      && IsIdea(r.content)
      && exists i :: 0 <= i < |messages| && r.messageId == messages[i].id && Contains(messages[i].content, r.content)
  {
    if messages != [] {
      var init, last := messages[..|messages| - 1], messages[|messages| - 1];
      ConversationIdeasShape(init, conversationId, now);
      ExtractedAreIdeas(IdeaPatterns, last.content);
      var a: seq<Idea> := ConversationIdeas(init, conversationId, now);
      var b: seq<Idea> := MessageIdeas(last, conversationId, now, IdeasOf(IdeaPatterns, last.content));
      forall k: int | 0 <= k < |a + b|
        ensures exists i: int :: 0 <= i < |messages| && (a + b)[k].messageId == messages[i].id && Contains(messages[i].content, (a + b)[k].content)
      {
        if k < |a| {
          var i :| 0 <= i < |init| && a[k].messageId == init[i].id && Contains(init[i].content, a[k].content);
          assert messages[i] == init[i];
        } else {
          assert messages[|messages| - 1] == last;
        }
      }
    }
  }

  /** The loop of `extractConversationIdeas` that gathers the records: each
      message's ideas are pushed in the order `extractIdeas` returns them. */
  method CollectIdeas(messages: seq<ChatMessage>, conversationId: string, now: int) returns (ideas: seq<Idea>)
    ensures ideas == ConversationIdeas(messages, conversationId, now)
  {
    ideas := [];
    for i := 0 to |messages|
      invariant ideas == ConversationIdeas(messages[..i], conversationId, now)
    {
      var message := messages[i];
      var messageIdeas := ExtractIdeas(message.content);
      ghost var before := ideas;
      for k := 0 to |messageIdeas|
        invariant ideas == before + MessageIdeas(message, conversationId, now, messageIdeas[..k])
      {
        MessageIdeasSnoc(message, conversationId, now, messageIdeas, k);
        ideas := ideas + [Idea(None, conversationId, message.id, messageIdeas[k], now)];
      }
      assert messageIdeas[..|messageIdeas|] == messageIdeas;
      ConversationIdeasSnoc(messages, conversationId, now, i);
    }
    assert messages[..|messages|] == messages;
  }

  /** The `ideas` table: its rows in key order and the next key to hand out. */
  class IdeaTable {
    var rows: seq<Idea>
    var nextId: nat

    /** Every row has a key below `nextId`, and keys increase along `rows`. */
    ghost predicate Valid()
      reads this
    {
      nextId >= 1 &&
      (forall i :: 0 <= i < |rows| ==> rows[i].id.Some? && 1 <= rows[i].id.value < nextId) &&
      (forall i, j :: 0 <= i < j < |rows| ==> rows[i].id.Some? && rows[j].id.Some? && rows[i].id.value < rows[j].id.value)
    }

    constructor ()
      ensures Valid()
      ensures rows == [] && nextId == 1
    {
      rows := [];
      nextId := 1;
    }

    /** `db.ideas.bulkAdd(batch)`. */
    method BulkAdd(batch: seq<Idea>)
      requires Valid()
      modifies this
      ensures Valid()
      ensures rows == old(rows) + Numbered(batch, old(nextId), IdeaWithKey)
      ensures nextId == old(nextId) + |batch|
    {
      rows := rows + Numbered(batch, nextId, IdeaWithKey);
      nextId := nextId + |batch|;
    }

    /** `db.ideas.clear()`: every row goes; the key generator is not reset,
        so keys handed out later stay above every key handed out before. */
    method Clear()
      requires Valid()
      modifies this
      ensures Valid()
      ensures rows == [] && nextId == old(nextId)
    {
      rows := [];
    }

    /** `extractConversationIdeas`: add the ideas of every message of the
        conversation in one batch, if there are any. */
    method ExtractConversationIdeas(store: seq<ChatMessage>, conversationId: string, now: int)
      requires Valid()
      modifies this
      ensures Valid()
      ensures rows == old(rows) + Numbered(ConversationIdeas(MessagesOf(store, conversationId), conversationId, now), old(nextId), IdeaWithKey)
      ensures nextId == old(nextId) + |ConversationIdeas(MessagesOf(store, conversationId), conversationId, now)|
    {
      var messages := MessagesOf(store, conversationId);
      var ideas := CollectIdeas(messages, conversationId, now);
      if |ideas| > 0 {
        BulkAdd(ideas);
      }
    }
  }
}
