/**
 * The records kept in the browser's IndexedDB store, and the natural-language
 * library the analytics call into.
 *
 * The store itself is not modelled as a database: a table is the sequence of
 * its rows in primary-key order, which is also the order in which an indexed
 * `where(...).equals(...)` query returns rows sharing one key.
 */
module Store {
  import opened Seqs

  datatype Source = ChatGPT | Claude | Gemini | Other

  const UserRole := "user"
  const AssistantRole := "assistant"

  /** A stored chat message. `id` is assigned by the store's auto-increment
      key and is absent on records that have not been added yet; `timestamp`
      is the Date's time value in milliseconds. */
  datatype ChatMessage = ChatMessage(
    id: Option<nat>,
    conversationId: string,
    source: Source,
    timestamp: int,
    role: string,
    content: string)

  /** A stored conversation (the analysis fields the detail page writes back
      are not part of this model). */
  datatype Conversation = Conversation(
    id: string,
    source: Source,
    title: string,
    startDate: int,
    endDate: int,
    messageCount: nat)

  /** An idea snippet; `id` is assigned by the store when the idea is added. */
  datatype Idea = Idea(
    id: Option<nat>,
    conversationId: string,
    messageId: Option<nat>,
    content: string,
    extractedAt: int)

  /** The `compromise` library, seen only through the three term lists the
      code reads from a parsed document. */
  datatype Nlp = Nlp(
    nouns: string -> seq<string>,
    topics: string -> seq<string>,
    terms: string -> seq<string>)

  /** `db.messages.where('conversationId').equals(conversationId).toArray()`. */
  function MessagesOf(store: seq<ChatMessage>, conversationId: string): (r: seq<ChatMessage>)
    ensures forall i :: 0 <= i < |r| ==> r[i] in store && r[i].conversationId == conversationId
    ensures forall i :: 0 <= i < |store| && store[i].conversationId == conversationId ==> store[i] in r
  {
    Filter(store, (m: ChatMessage) => m.conversationId == conversationId)
  }

  /** Querying a table made of two runs of rows queries each run. */
  lemma {:induction false} MessagesOfConcat(a: seq<ChatMessage>, b: seq<ChatMessage>, conversationId: string)
    ensures MessagesOf(a + b, conversationId) == MessagesOf(a, conversationId) + MessagesOf(b, conversationId)
  {
    if a == [] {
      assert a + b == b;
    } else {
      assert (a + b)[0] == a[0];
      assert (a + b)[1..] == a[1..] + b;
      MessagesOfConcat(a[1..], b, conversationId);
    }
  }

  /** A query for a conversation every row belongs to returns every row. */
  lemma {:induction false} MessagesOfAll(s: seq<ChatMessage>, conversationId: string)
    requires forall i :: 0 <= i < |s| ==> s[i].conversationId == conversationId
    ensures MessagesOf(s, conversationId) == s
  {
    if s != [] {
      MessagesOfAll(s[1..], conversationId);
    }
  }

  /** A query for a conversation no row belongs to returns nothing. */
  lemma {:induction false} MessagesOfNone(s: seq<ChatMessage>, conversationId: string)
    requires forall i :: 0 <= i < |s| ==> s[i].conversationId != conversationId
    ensures MessagesOf(s, conversationId) == []
  {
    if s != [] {
      MessagesOfNone(s[1..], conversationId);
    }
  }

  /** `bulkAdd` on a table with an auto-incremented key: the batch with the
      keys `first`, `first + 1`, ... assigned in order. */
  function Numbered<T>(batch: seq<T>, first: nat, withKey: (T, nat) -> T): (r: seq<T>)
    ensures |r| == |batch|
    ensures forall k :: 0 <= k < |r| ==> r[k] == withKey(batch[k], first + k)
  {
    seq(|batch|, k requires 0 <= k < |batch| => withKey(batch[k], first + k))
  }

  function MessageWithKey(m: ChatMessage, key: nat): ChatMessage {
    m.(id := Some(key))
  }

  function IdeaWithKey(i: Idea, key: nat): Idea {
    i.(id := Some(key))
  }

  function Contents(messages: seq<ChatMessage>): (r: seq<string>)
    ensures |r| == |messages|
    ensures forall i :: 0 <= i < |r| ==> r[i] == messages[i].content
  {
    seq(|messages|, i requires 0 <= i < |messages| => messages[i].content)
  }
}
