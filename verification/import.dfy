/**
 * The importers of client/src/lib/import.ts: a ChatGPT export becomes one
 * conversation record per exported conversation that has messages, plus its
 * message records; any other upload becomes at most one conversation. Both
 * importers hand their batches to the `conversations` and `messages` tables.
 *
 * `crypto.randomUUID()` and `new Date()` are parameters: `uuid(i)` is the
 * identifier drawn for the `i`-th element of the upload and `clock(i)` the
 * time read while building the `i`-th generic message. `JSON.stringify` is
 * the parameter `stringify`.
 */
module Importers {
  import opened Seqs
  import opened Text
  import opened Store
  import opened IdeaLog

  /** A parsed JSON upload. Anything that is not an array is handled as an
      array holding just that value. */
  datatype Upload<T> = Many(items: seq<T>) | One(item: T)

  function Items<T>(data: Upload<T>): (r: seq<T>)
    ensures |r| == if data.Many? then |data.items| else 1
  {
    match data
    case Many(items) => items
    case One(item) => [item]
  }

  // ---------------------------------------------------------------------
  // ChatGPT exports

  /** The `message` of a mapping node. A message whose `content` or `parts`
      is missing is written with no parts; `createTime` is `None` where
      `create_time` is missing. */
  datatype ExportMessage = ExportMessage(authorRole: string, parts: seq<string>, createTime: Option<real>)

  datatype ExportNode = ExportNode(message: Option<ExportMessage>)

  /** One exported conversation. `mapping` holds the node objects in the
      order `Object.values` lists them; a missing mapping is empty. */
  datatype ChatGPTExport = ChatGPTExport(title: Option<string>, mapping: seq<ExportNode>)

  const UntitledConversation := "Untitled Conversation"
  const ImportedConversation := "Imported Conversation"

  /** A node becomes a message when it has a message with at least one part. */
  predicate Qualifies(node: ExportNode) {
    node.message.Some? && |node.message.value.parts| > 0
  }

  /** `node.message?.create_time || 0`. */
  function CreateTime(node: ExportNode): real {
    if node.message.Some? && node.message.value.createTime.Some? then node.message.value.createTime.value else 0.0
  }

  /** The time value of `new Date(seconds * 1000)`: whole milliseconds, the
      fraction cut off toward zero. */
  function Millis(seconds: real): (ms: int)
    ensures 0.0 <= seconds ==> 0 <= ms && ms as real <= seconds * 1000.0 < ms as real + 1.0
    ensures seconds < 0.0 ==> ms <= 0 && ms as real - 1.0 < seconds * 1000.0 <= ms as real
  {
    var x := seconds * 1000.0;
    if x >= 0.0 then x.Floor else -((-x).Floor)
  }

  /** Later export times never give earlier timestamps. */
  lemma MillisMonotone(a: real, b: real)
    requires a <= b
    ensures Millis(a) <= Millis(b)
  {
  }

  /** The nodes that become messages, ascending by creation time; the sort
      is stable, so nodes with equal times keep their mapping order. */
  function MessageNodes(conv: ChatGPTExport): seq<ExportNode> {
    SortBy(Filter(conv.mapping, Qualifies), CreateTime)
  }

  /** The record the `map` callback builds for one node. */
  function ToMessage(node: ExportNode, conversationId: string): ChatMessage {
    ChatMessage(
      None, conversationId, ChatGPT,
      Millis(CreateTime(node)),
      if node.message.Some? && node.message.value.authorRole == UserRole then UserRole else AssistantRole,
      if node.message.Some? then Join(node.message.value.parts, "\n") else "")
  }

  /** `m` is the message imported from `node` into conversation
      `conversationId`: its role is `user` exactly when the author's role is
      `user` and `assistant` otherwise, its text is the parts joined by line
      breaks, its timestamp the creation time in milliseconds. */
  predicate BuiltFrom(m: ChatMessage, node: ExportNode, conversationId: string)
    requires Qualifies(node)
  {
    var msg := node.message.value;
    && m.id == None
    && m.conversationId == conversationId
    && m.source == ChatGPT
    && m.timestamp == Millis(CreateTime(node))
    && (m.role == UserRole || m.role == AssistantRole)
    && (m.role == UserRole <==> msg.authorRole == UserRole)
    && m.content == Join(msg.parts, "\n")
  }

  /** The messages of one exported conversation. */
  function ConversationMessages(conv: ChatGPTExport, conversationId: string): seq<ChatMessage> {
    var nodes := MessageNodes(conv);
    seq(|nodes|, k requires 0 <= k < |nodes| => ToMessage(nodes[k], conversationId))
  }

  /** `chatGPTConv.title || 'Untitled Conversation'`. */
  function Title(title: Option<string>): string {
    if title.Some? && title.value != "" then title.value else UntitledConversation
  }

  /** The conversation record both importers build over a non-empty list of
      messages. */
  function ConversationRecord(id: string, source: Source, title: string, messages: seq<ChatMessage>): Conversation
    requires |messages| > 0
  {
    Conversation(id, source, title, messages[0].timestamp, messages[|messages| - 1].timestamp, |messages|)
  }

  /** The conversation records of the upload, in upload order; an exported
      conversation without messages gives none. */
  function ImportedConversations(convs: seq<ChatGPTExport>, uuid: nat -> string): seq<Conversation> {
    if |convs| == 0 then []
    else
      var n := |convs| - 1;
      var messages := ConversationMessages(convs[n], uuid(n));
      ImportedConversations(convs[..n], uuid)
        + if |messages| == 0 then [] else [ConversationRecord(uuid(n), ChatGPT, Title(convs[n].title), messages)]
  }

  /** The message records of the upload, conversation after conversation. */
  function ImportedMessages(convs: seq<ChatGPTExport>, uuid: nat -> string): seq<ChatMessage> {
    if |convs| == 0 then []
    else
      var n := |convs| - 1;
      ImportedMessages(convs[..n], uuid) + ConversationMessages(convs[n], uuid(n))
  }

  lemma ImportedSnoc(convs: seq<ChatGPTExport>, uuid: nat -> string, i: nat)
    requires i < |convs|
    ensures var messages := ConversationMessages(convs[i], uuid(i));
      && ImportedConversations(convs[..i + 1], uuid) == ImportedConversations(convs[..i], uuid)
        + (if |messages| == 0 then [] else [ConversationRecord(uuid(i), ChatGPT, Title(convs[i].title), messages)])
      && ImportedMessages(convs[..i + 1], uuid) == ImportedMessages(convs[..i], uuid) + messages
  {
    assert convs[..i + 1][..i] == convs[..i];
  }

  /** The loop of `importChatGPTData` over the exported conversations. */
  method ConvertChatGPTData(convs: seq<ChatGPTExport>, uuid: nat -> string)
    returns (conversations: seq<Conversation>, messages: seq<ChatMessage>)
    ensures conversations == ImportedConversations(convs, uuid)
    ensures messages == ImportedMessages(convs, uuid)
  {
    conversations, messages := [], [];
    for i := 0 to |convs|
      invariant conversations == ImportedConversations(convs[..i], uuid)
      invariant messages == ImportedMessages(convs[..i], uuid)
    {
      ImportedSnoc(convs, uuid, i);
      var conversationId := uuid(i);
      var conversationMessages := ConversationMessages(convs[i], conversationId);
      if |conversationMessages| == 0 {
        continue;
      }
      var conversation := Conversation(
        conversationId, ChatGPT, Title(convs[i].title),
        conversationMessages[0].timestamp,
        conversationMessages[|conversationMessages| - 1].timestamp,
        |conversationMessages|);
      conversations := conversations + [conversation];
      messages := messages + conversationMessages;
    }
    assert convs[..|convs|] == convs;
  }

  // Properties of one exported conversation

  /** One message per qualifying node of the mapping. */
  lemma ConversationMessagesCount(conv: ChatGPTExport, conversationId: string)
    ensures |ConversationMessages(conv, conversationId)| == |Filter(conv.mapping, Qualifies)|
  {
    var kept := Filter(conv.mapping, Qualifies);
    var nodes := MessageNodes(conv);
    assert |nodes| == |multiset(nodes)| == |multiset(kept)| == |kept|;
  }

  /** Every message is built from a qualifying node of the mapping. */
  lemma MessageFromNode(conv: ChatGPTExport, conversationId: string, k: nat) returns (node: ExportNode)
    requires k < |ConversationMessages(conv, conversationId)|
    ensures node in conv.mapping && Qualifies(node)
    ensures BuiltFrom(ConversationMessages(conv, conversationId)[k], node, conversationId)
  {
    var kept := Filter(conv.mapping, Qualifies);
    node := MessageNodes(conv)[k];
    SortByMembers(kept, CreateTime);
    assert node in kept;
  }

  /** Every qualifying node of the mapping gives one of the messages. */
  lemma NodeGivesMessage(conv: ChatGPTExport, conversationId: string, j: nat) returns (k: nat)
    requires j < |conv.mapping| && Qualifies(conv.mapping[j])
    ensures k < |ConversationMessages(conv, conversationId)|
    ensures BuiltFrom(ConversationMessages(conv, conversationId)[k], conv.mapping[j], conversationId)
  {
    var kept := Filter(conv.mapping, Qualifies);
    var nodes := MessageNodes(conv);
    SortByMembers(kept, CreateTime);
    var i :| 0 <= i < |kept| && kept[i] == conv.mapping[j];
    k :| 0 <= k < |nodes| && nodes[k] == kept[i];
  }

  /** The messages of a conversation are in timestamp order. */
  lemma ConversationMessagesInOrder(conv: ChatGPTExport, conversationId: string)
    ensures forall i, j :: 0 <= i < j < |ConversationMessages(conv, conversationId)| ==>
      ConversationMessages(conv, conversationId)[i].timestamp <= ConversationMessages(conv, conversationId)[j].timestamp
  {
    var nodes := MessageNodes(conv);
    var r := ConversationMessages(conv, conversationId);
    forall i, j | 0 <= i < j < |r| ensures r[i].timestamp <= r[j].timestamp {
      assert CreateTime(nodes[i]) <= CreateTime(nodes[j]);
      MillisMonotone(CreateTime(nodes[i]), CreateTime(nodes[j]));
    }
  }

  /** The record of an exported conversation with messages spans them: the
      start date is the earliest timestamp and the end date the latest, the
      count is the number of qualifying nodes, and the title is the exported
      one unless that is missing or empty. */
  lemma ChatGPTConversationSpan(conv: ChatGPTExport, conversationId: string)
    requires |ConversationMessages(conv, conversationId)| > 0
    ensures var messages := ConversationMessages(conv, conversationId);
      var c := ConversationRecord(conversationId, ChatGPT, Title(conv.title), messages);
      && c.startDate <= c.endDate
      && (forall k :: 0 <= k < |messages| ==> c.startDate <= messages[k].timestamp <= c.endDate)
      && 1 <= c.messageCount == |Filter(conv.mapping, Qualifies)|
      && c.title != ""
      && (conv.title.Some? && conv.title.value != "" ==> c.title == conv.title.value)
  {
    ConversationMessagesInOrder(conv, conversationId);
    ConversationMessagesCount(conv, conversationId);
  }

  /** An exported conversation has messages when some node of its mapping
      qualifies. */
  predicate HasMessages(conv: ChatGPTExport) {
    |Filter(conv.mapping, Qualifies)| > 0
  }

  // Properties of the whole upload

  /** The last exported conversation adds at most its own record. */
  lemma ImportedConversationsStep(convs: seq<ChatGPTExport>, uuid: nat -> string)
    requires |convs| > 0
    ensures ImportedConversations(convs[..|convs| - 1], uuid) <= ImportedConversations(convs, uuid)
    ensures |ImportedConversations(convs, uuid)| <= |ImportedConversations(convs[..|convs| - 1], uuid)| + 1
    ensures |ConversationMessages(convs[|convs| - 1], uuid(|convs| - 1))| > 0 ==>
      && |ImportedConversations(convs, uuid)| == |ImportedConversations(convs[..|convs| - 1], uuid)| + 1
      && ImportedConversations(convs, uuid)[|ImportedConversations(convs[..|convs| - 1], uuid)|]
        == ConversationRecord(uuid(|convs| - 1), ChatGPT, Title(convs[|convs| - 1].title),
                              ConversationMessages(convs[|convs| - 1], uuid(|convs| - 1)))
    ensures |ConversationMessages(convs[|convs| - 1], uuid(|convs| - 1))| == 0 ==>
      ImportedConversations(convs, uuid) == ImportedConversations(convs[..|convs| - 1], uuid)
  {
  }

  lemma ImportedConversationsLength(convs: seq<ChatGPTExport>, uuid: nat -> string)
    requires |convs| > 0
    ensures |ImportedConversations(convs, uuid)| == |ImportedConversations(convs[..|convs| - 1], uuid)|
      + if |Filter(convs[|convs| - 1].mapping, Qualifies)| > 0 then 1 else 0
  {
    ConversationMessagesCount(convs[|convs| - 1], uuid(|convs| - 1));
  }

  /** The last exported conversation adds its messages at the end. */
  lemma ImportedMessagesStep(convs: seq<ChatGPTExport>, uuid: nat -> string)
    requires |convs| > 0
    ensures ImportedMessages(convs, uuid)
      == ImportedMessages(convs[..|convs| - 1], uuid) + ConversationMessages(convs[|convs| - 1], uuid(|convs| - 1))
  {
  }

  /** The sum of the `messageCount` fields. */
  function TotalMessageCount(conversations: seq<Conversation>): nat {
    if |conversations| == 0 then 0
    else TotalMessageCount(conversations[..|conversations| - 1]) + conversations[|conversations| - 1].messageCount
  }

  /** The returned conversation count: one per exported conversation with a
      qualifying node. */
  lemma {:induction false} ImportedConversationCount(convs: seq<ChatGPTExport>, uuid: nat -> string)
    ensures |ImportedConversations(convs, uuid)| == |Filter(convs, HasMessages)|
  {
    if |convs| > 0 {
      var n := |convs| - 1;
      var init := convs[..n];
      ImportedConversationCount(init, uuid);
      ImportedConversationsLength(convs, uuid);
      FilterSnoc(convs, HasMessages);
    }
  }

  /** The returned message count is the sum of the conversations' counts. */
  lemma {:induction false} ImportedMessageTotal(convs: seq<ChatGPTExport>, uuid: nat -> string)
    ensures |ImportedMessages(convs, uuid)| == TotalMessageCount(ImportedConversations(convs, uuid))
  {
    if |convs| > 0 {
      var n := |convs| - 1;
      ImportedMessageTotal(convs[..n], uuid);
      ImportedConversationsStep(convs, uuid);
      ImportedMessagesStep(convs, uuid);
      var a := ImportedConversations(convs[..n], uuid);
      var cs := ImportedConversations(convs, uuid);
      if |cs| > |a| {
        assert cs[..|cs| - 1] == a;
      }
    }
  }

  /** Every conversation record comes from an exported conversation with
      messages, under the identifier drawn for that conversation. */
  lemma {:induction false} ImportedConversationsFrom(convs: seq<ChatGPTExport>, uuid: nat -> string, k: nat)
    returns (j: nat)
    requires k < |ImportedConversations(convs, uuid)|
    ensures j < |convs|
    ensures |ConversationMessages(convs[j], uuid(j))| > 0
    ensures ImportedConversations(convs, uuid)[k]
      == ConversationRecord(uuid(j), ChatGPT, Title(convs[j].title), ConversationMessages(convs[j], uuid(j)))
  {
    var n := |convs| - 1;
    ImportedConversationsStep(convs, uuid);
    var a := ImportedConversations(convs[..n], uuid);
    if k == |a| {
      j := n;
    } else {
      j := ImportedConversationsFrom(convs[..n], uuid, k);
      assert convs[..n][j] == convs[j];
    }
  }

  /** An exported conversation with messages has its record among the
      imported conversations, at the returned position. */
  lemma {:induction false} ImportedConversationOf(convs: seq<ChatGPTExport>, uuid: nat -> string, j: nat)
    returns (k: nat)
    requires j < |convs|
    requires |ConversationMessages(convs[j], uuid(j))| > 0
    ensures k < |ImportedConversations(convs, uuid)|
    ensures ImportedConversations(convs, uuid)[k]
      == ConversationRecord(uuid(j), ChatGPT, Title(convs[j].title), ConversationMessages(convs[j], uuid(j)))
  {
    var n := |convs| - 1;
    ImportedConversationsStep(convs, uuid);
    var a := ImportedConversations(convs[..n], uuid);
    if j == n {
      k := |a|;
    } else {
      var init := convs[..n];
      assert init[j] == convs[j];
      k := ImportedConversationOf(init, uuid, j);
      assert a[k] == ImportedConversations(convs, uuid)[k];
    }
  }

  /** Every imported conversation is a ChatGPT conversation with at least
      one message, a start date no later than its end date and a non-empty
      title. */
  lemma ImportedConversationsValid(convs: seq<ChatGPTExport>, uuid: nat -> string)
    ensures forall k :: 0 <= k < |ImportedConversations(convs, uuid)| ==>
      var c := ImportedConversations(convs, uuid)[k];
      c.source == ChatGPT && 1 <= c.messageCount && c.startDate <= c.endDate && c.title != ""
  {
    forall k | 0 <= k < |ImportedConversations(convs, uuid)|
      ensures var c := ImportedConversations(convs, uuid)[k];
        c.source == ChatGPT && 1 <= c.messageCount && c.startDate <= c.endDate && c.title != ""
    {
      var j := ImportedConversationsFrom(convs, uuid, k);
      ChatGPTConversationSpan(convs[j], uuid(j));
    }
  }

  /** Every message belongs to the conversation drawn for its position. */
  lemma {:induction false} ImportedMessagesOwner(convs: seq<ChatGPTExport>, uuid: nat -> string, k: nat)
    returns (j: nat)
    requires k < |ImportedMessages(convs, uuid)|
    ensures j < |convs|
    ensures |ConversationMessages(convs[j], uuid(j))| > 0
    ensures ImportedMessages(convs, uuid)[k].conversationId == uuid(j)
  {
    var n := |convs| - 1;
    ImportedMessagesStep(convs, uuid);
    var a := ImportedMessages(convs[..n], uuid);
    if k < |a| {
      j := ImportedMessagesOwner(convs[..n], uuid, k);
      assert convs[..n][j] == convs[j];
    } else {
      j := n;
      assert ImportedMessages(convs, uuid)[k] == ConversationMessages(convs[n], uuid(n))[k - |a|];
    }
  }

  /** The identifiers drawn for the first `n` elements are all different. */
  predicate Unique(uuid: nat -> string, n: nat) {
    forall i, j :: 0 <= i < j < n ==> uuid(i) != uuid(j)
  }

  /** Once stored, querying the messages by a conversation's identifier
      gives back exactly that conversation's messages, in order, provided
      the drawn identifiers do not collide. */
  lemma {:induction false} MessagesOfImported(convs: seq<ChatGPTExport>, uuid: nat -> string, j: nat)
    requires Unique(uuid, |convs|)
    requires j < |convs|
    ensures MessagesOf(ImportedMessages(convs, uuid), uuid(j)) == ConversationMessages(convs[j], uuid(j))
  {
    var n := |convs| - 1;
    var init := convs[..n];
    var a := ImportedMessages(init, uuid);
    var b := ConversationMessages(convs[n], uuid(n));
    ImportedMessagesStep(convs, uuid);
    MessagesOfConcat(a, b, uuid(j));
    if j == n {
      forall k | 0 <= k < |a| ensures a[k].conversationId != uuid(j) {
        var i := ImportedMessagesOwner(init, uuid, k);
      }
      MessagesOfNone(a, uuid(j));
      MessagesOfAll(b, uuid(j));
    } else {
      assert init[j] == convs[j];
      MessagesOfImported(init, uuid, j);
      MessagesOfNone(b, uuid(j));
    }
  }

  /** Each stored conversation's count is the number of stored messages
      that point at it, provided the drawn identifiers do not collide. */
  lemma StoredCountsAgree(convs: seq<ChatGPTExport>, uuid: nat -> string, k: nat)
    requires Unique(uuid, |convs|)
    requires k < |ImportedConversations(convs, uuid)|
    ensures |MessagesOf(ImportedMessages(convs, uuid), ImportedConversations(convs, uuid)[k].id)|
      == ImportedConversations(convs, uuid)[k].messageCount
  {
    var j := ImportedConversationsFrom(convs, uuid, k);
    MessagesOfImported(convs, uuid, j);
  }

  /** Every stored message points at a stored conversation, at the returned
      position. */
  lemma MessageHasConversation(convs: seq<ChatGPTExport>, uuid: nat -> string, k: nat) returns (i: nat)
    requires k < |ImportedMessages(convs, uuid)|
    ensures i < |ImportedConversations(convs, uuid)|
    ensures ImportedConversations(convs, uuid)[i].id == ImportedMessages(convs, uuid)[k].conversationId
  {
    var j := ImportedMessagesOwner(convs, uuid, k);
    i := ImportedConversationOf(convs, uuid, j);
  }

  // ---------------------------------------------------------------------
  // Generic uploads

  /** One element of a generic upload, through the four fields the importer
      reads: a missing or falsy `timestamp` is `None`, a missing or falsy
      `role`, `content` or `text` is `""`. */
  datatype GenericMessage = GenericMessage(timestamp: Option<int>, role: string, content: string, text: string)

  /** The record the `map` callback builds for the element at `index`. */
  function GenericToMessage(msg: GenericMessage, index: nat, conversationId: string, source: Source,
                            clock: nat -> int, stringify: GenericMessage -> string): ChatMessage
  {
    ChatMessage(
      None, conversationId, source,
      if msg.timestamp.Some? && msg.timestamp.value != 0 then msg.timestamp.value else clock(index),
      if msg.role != "" then msg.role else if index % 2 == 0 then UserRole else AssistantRole,
      if msg.content != "" then msg.content else if msg.text != "" then msg.text else stringify(msg))
  }

  function GenericMessages(items: seq<GenericMessage>, conversationId: string, source: Source,
                           clock: nat -> int, stringify: GenericMessage -> string): (r: seq<ChatMessage>)
    ensures |r| == |items|
    ensures forall k :: 0 <= k < |r| ==> r[k] == GenericToMessage(items[k], k, conversationId, source, clock, stringify)
  {
    seq(|items|, k requires 0 <= k < |items| => GenericToMessage(items[k], k, conversationId, source, clock, stringify))
  }

  /** The single conversation of a generic upload, or none when it is empty. */
  function GenericConversations(messages: seq<ChatMessage>, conversationId: string, source: Source): seq<Conversation> {
    if |messages| == 0 then [] else [ConversationRecord(conversationId, source, ImportedConversation, messages)]
  }

  /** Each generic message keeps the element's role, text and time when it
      has them; a missing role alternates `user`, `assistant`, ... by
      position, a missing text falls back to `text` and then to the
      serialised element, a missing time to the clock. */
  lemma GenericMessageFields(items: seq<GenericMessage>, conversationId: string, source: Source,
                             clock: nat -> int, stringify: GenericMessage -> string, k: nat)
    requires k < |items|
    ensures var m := GenericMessages(items, conversationId, source, clock, stringify)[k];
      var msg := items[k];
      && m.id == None && m.conversationId == conversationId && m.source == source
      && (msg.role != "" ==> m.role == msg.role)
      && (msg.role == "" ==> (m.role == UserRole <==> k % 2 == 0) && (m.role == AssistantRole <==> k % 2 == 1))
      && (m.content == msg.content || m.content == msg.text || m.content == stringify(msg))
      && (msg.content != "" ==> m.content == msg.content)
      && (msg.content == "" && msg.text != "" ==> m.content == msg.text)
      && (msg.content != "" || msg.text != "" ==> m.content != "")
      && (msg.content == "" && msg.text == "" ==> m.content == stringify(msg))
      && (msg.timestamp.Some? && msg.timestamp.value != 0 ==> m.timestamp == msg.timestamp.value)
      && (msg.timestamp.None? || msg.timestamp.value == 0 ==> m.timestamp == clock(k))
  {
  }

  /** A generic upload gives one conversation when it has elements and none
      otherwise; that conversation counts every element, and every message
      is stored under it. */
  lemma GenericImportShape(items: seq<GenericMessage>, conversationId: string, source: Source,
                           clock: nat -> int, stringify: GenericMessage -> string)
    ensures var messages := GenericMessages(items, conversationId, source, clock, stringify);
      var conversations := GenericConversations(messages, conversationId, source);
      && |conversations| == (if items == [] then 0 else 1)
      && |messages| == |items| == TotalMessageCount(conversations)
      && (items != [] ==>
            && conversations[0].title == ImportedConversation
            && conversations[0].id == conversationId
            && MessagesOf(messages, conversationId) == messages)
  {
    var messages := GenericMessages(items, conversationId, source, clock, stringify);
    var conversations := GenericConversations(messages, conversationId, source);
    MessagesOfAll(messages, conversationId);
    if items != [] {
      assert conversations[..0] == [];
    }
  }

  // ---------------------------------------------------------------------
  // The tables

  /** The `conversations` and `messages` tables: rows in insertion order,
      and the next key the messages table's auto-increment hands out. */
  class ChatStore {
    var conversations: seq<Conversation>
    var messages: seq<ChatMessage>
    var nextMessageId: nat

    /** Every message has a key below `nextMessageId`, and keys increase
        along `messages`. */
    ghost predicate Valid()
      reads this
    {
      nextMessageId >= 1 &&
      (forall i :: 0 <= i < |messages| ==> messages[i].id.Some? && 1 <= messages[i].id.value < nextMessageId) &&
      (forall i, j :: 0 <= i < j < |messages| ==> messages[i].id.Some? && messages[j].id.Some? && messages[i].id.value < messages[j].id.value)
    }

    constructor ()
      ensures Valid()
      ensures conversations == [] && messages == [] && nextMessageId == 1
    {
      conversations, messages := [], [];
      nextMessageId := 1;
    }

    /** `db.conversations.bulkAdd(batch)`. */
    method BulkAddConversations(batch: seq<Conversation>)
      requires Valid()
      modifies this
      ensures Valid()
      ensures conversations == old(conversations) + batch
      ensures messages == old(messages) && nextMessageId == old(nextMessageId)
    {
      conversations := conversations + batch;
    }

    /** `db.messages.bulkAdd(batch)`: the batch is keyed consecutively. */
    method BulkAddMessages(batch: seq<ChatMessage>)
      requires Valid()
      modifies this
      ensures Valid()
      ensures messages == old(messages) + Numbered(batch, old(nextMessageId), MessageWithKey)
      ensures nextMessageId == old(nextMessageId) + |batch|
      ensures conversations == old(conversations)
    {
      messages := messages + Numbered(batch, nextMessageId, MessageWithKey);
      nextMessageId := nextMessageId + |batch|;
    }

    /** `clear()` on both tables; the key generator is not reset. */
    method Clear()
      requires Valid()
      modifies this
      ensures Valid()
      ensures conversations == [] && messages == [] && nextMessageId == old(nextMessageId)
    {
      conversations, messages := [], [];
    }
  }

  /** `importChatGPTData`: convert the upload, add both batches, and report
      how many conversations and messages were added. */
  method ImportChatGPTData(db: ChatStore, data: Upload<ChatGPTExport>, uuid: nat -> string)
    returns (conversationCount: nat, messageCount: nat)
    requires db.Valid()
    modifies db
    ensures db.Valid()
    ensures db.conversations == old(db.conversations) + ImportedConversations(Items(data), uuid)
    ensures db.messages == old(db.messages) + Numbered(ImportedMessages(Items(data), uuid), old(db.nextMessageId), MessageWithKey)
    ensures conversationCount == |ImportedConversations(Items(data), uuid)|
    ensures messageCount == |ImportedMessages(Items(data), uuid)|
  {
    var conversations, messages := ConvertChatGPTData(Items(data), uuid);
    db.BulkAddConversations(conversations);
    db.BulkAddMessages(messages);
    return |conversations|, |messages|;
  }

  /** `importGenericData`: one conversation holding every element of the
      upload, added only when there is at least one element. */
  method ImportGenericData(db: ChatStore, data: Upload<GenericMessage>, source: Source, conversationId: string,
                           clock: nat -> int, stringify: GenericMessage -> string)
    returns (conversationCount: nat, messageCount: nat)
    requires source != ChatGPT
    requires db.Valid()
    modifies db
    ensures db.Valid()
    ensures var batch := GenericMessages(Items(data), conversationId, source, clock, stringify);
      && db.conversations == old(db.conversations) + GenericConversations(batch, conversationId, source)
      && db.messages == old(db.messages) + Numbered(batch, old(db.nextMessageId), MessageWithKey)
      && conversationCount == |GenericConversations(batch, conversationId, source)|
      && messageCount == |batch|
  {
    var conversationMessages := GenericMessages(Items(data), conversationId, source, clock, stringify);
    var conversations: seq<Conversation> := [];
    var messages: seq<ChatMessage> := [];
    if |conversationMessages| > 0 {
      var conversation := Conversation(
        conversationId, source, ImportedConversation,
        conversationMessages[0].timestamp,
        conversationMessages[|conversationMessages| - 1].timestamp,
        |conversationMessages|);
      conversations := conversations + [conversation];
      messages := messages + conversationMessages;
      db.BulkAddConversations(conversations);
      db.BulkAddMessages(messages);
    }
    return |conversations|, |messages|;
  }

  /** `clearAllData`: empty the message, conversation and idea tables. */
  method ClearAllData(db: ChatStore, ideas: IdeaTable)
    requires db.Valid() && ideas.Valid()
    modifies db, ideas
    ensures db.Valid() && ideas.Valid()
    ensures db.conversations == [] && db.messages == [] && ideas.rows == []
    ensures db.nextMessageId == old(db.nextMessageId) && ideas.nextId == old(ideas.nextId)
  {
    db.Clear();
    ideas.Clear();
  }
}
