/**
 * The row store of backend/src/db/initDB.ts: the tables `conversations`, `messages` and
 * `knowledge_base`, their constraints carried as the object invariant of a class, the single
 * transaction the controller opens, and the insert-if-absent seeding of the knowledge base.
 * SQL itself, timestamps and the surrogate key of `knowledge_base` are not modelled.
 */
module Database {

  /** A conversation key (a UUID in the schema; its format is not modelled). */
  type ConversationId = string

  /** A row of `messages`: serial key, owning conversation, sender and text. */
  datatype Message = Message(id: nat, conversationId: ConversationId, sender: string, text: string)

  /** A row of `knowledge_base` (its serial key is replaced by the row's position). */
  datatype KnowledgeEntry = KnowledgeEntry(title: string, content: string)

  /** The CHECK constraint on `messages.sender`. */
  predicate IsSender(sender: string)
  {
    sender == "user" || sender == "ai"
  }

  /** Message keys strictly increase along the sequence. */
  predicate IdsIncreasing(messages: seq<Message>)
  {
    forall i, j :: 0 <= i < j < |messages| ==> messages[i].id < messages[j].id
  }

  /**
   * The constraints of `messages`: serial keys in insertion order and below the next value of the
   * sequence, every conversation key referring to an existing conversation, and a valid sender.
   */
  predicate MessagesWellFormed(conversations: set<ConversationId>, messages: seq<Message>, nextId: nat)
  {
    && IdsIncreasing(messages)
    && forall i :: 0 <= i < |messages| ==>
         messages[i].id < nextId && messages[i].conversationId in conversations && IsSender(messages[i].sender)
  }

  /** The UNIQUE constraint on `knowledge_base.title`. */
  predicate UniqueTitles(kb: seq<KnowledgeEntry>)
  {
    forall i, j :: 0 <= i < j < |kb| ==> kb[i].title != kb[j].title
  }

  predicate HasTitle(kb: seq<KnowledgeEntry>, title: string)
  {
    exists i :: 0 <= i < |kb| && kb[i].title == title
  }

  /** In a key-ordered table the first row's key is below the key of every later row. */
  lemma HeadBelowRest(messages: seq<Message>)
    requires |messages| > 0
    ensures IdsIncreasing(messages) ==> forall m :: m in messages[1..] ==> messages[0].id < m.id
  {
    if IdsIncreasing(messages) {
      forall m | m in messages[1..] ensures messages[0].id < m.id {
        var k :| 0 <= k < |messages[1..]| && messages[1..][k] == m;
        assert messages[k + 1] == m;
      }
    }
  }

  /** The messages of one conversation, in table order: the rows whose conversation key is `c`. */
  function MessagesOf(messages: seq<Message>, c: ConversationId): (r: seq<Message>)
    ensures |r| <= |messages|
    ensures forall m :: m in r ==> m in messages && m.conversationId == c
  {
    if messages == [] then []
    else if messages[0].conversationId == c then [messages[0]] + MessagesOf(messages[1..], c)
    else MessagesOf(messages[1..], c)
  }

  /** No row of the conversation is missed. */
  lemma {:induction false} MessagesOfComplete(messages: seq<Message>, c: ConversationId, m: Message)
    requires m in messages && m.conversationId == c
    ensures m in MessagesOf(messages, c)
  {
    if messages[0] != m {
      MessagesOfComplete(messages[1..], c, m);
    }
  }

  /** The selected rows keep the key order of the table. */
  lemma {:induction false} MessagesOfIncreasing(messages: seq<Message>, c: ConversationId)
    requires IdsIncreasing(messages)
    ensures IdsIncreasing(MessagesOf(messages, c))
  {
    if messages != [] {
      MessagesOfIncreasing(messages[1..], c);
      HeadBelowRest(messages);
    }
  }

  /** Selecting one conversation distributes over appending rows. */
  lemma {:induction false} MessagesOfAppend(a: seq<Message>, b: seq<Message>, c: ConversationId)
    ensures MessagesOf(a + b, c) == MessagesOf(a, c) + MessagesOf(b, c)
  {
    if a != [] {
      assert (a + b)[0] == a[0];
      assert (a + b)[1..] == a[1..] + b;
      MessagesOfAppend(a[1..], b, c);
      if a[0].conversationId == c {
        assert MessagesOf(a + b, c) == [a[0]] + MessagesOf(a[1..] + b, c);
      } else {
        assert MessagesOf(a + b, c) == MessagesOf(a[1..] + b, c);
      }
    } else {
      assert a + b == b;
    }
  }

  /** A row belongs to the selection exactly when it is a row of the conversation. */
  lemma TranscriptComplete(messages: seq<Message>, c: ConversationId)
    ensures forall m :: m in MessagesOf(messages, c) <==> m in messages && m.conversationId == c
  {
    forall m | m in messages && m.conversationId == c ensures m in MessagesOf(messages, c) {
      MessagesOfComplete(messages, c, m);
    }
  }

  /** A conversation with no rows in the table has an empty transcript. */
  lemma {:induction false} MessagesOfAbsent(messages: seq<Message>, c: ConversationId)
    requires forall i :: 0 <= i < |messages| ==> messages[i].conversationId != c
    ensures MessagesOf(messages, c) == []
  {
    if messages != [] {
      MessagesOfAbsent(messages[1..], c);
    }
  }

  /** The rows left by `ON DELETE CASCADE` when conversation `c` is deleted. */
  function DropConversation(messages: seq<Message>, c: ConversationId): (r: seq<Message>)
    ensures forall m :: m in r ==> m in messages && m.conversationId != c
  {
    if messages == [] then []
    else if messages[0].conversationId == c then DropConversation(messages[1..], c)
    else [messages[0]] + DropConversation(messages[1..], c)
  }

  /** The surviving rows keep the key order of the table. */
  lemma {:induction false} DropConversationIncreasing(messages: seq<Message>, c: ConversationId)
    requires IdsIncreasing(messages)
    ensures IdsIncreasing(DropConversation(messages, c))
  {
    if messages != [] {
      DropConversationIncreasing(messages[1..], c);
      HeadBelowRest(messages);
    }
  }

  /** Deleting a conversation removes its whole transcript and leaves every other transcript as it was. */
  lemma {:induction false} DropConversationTranscripts(messages: seq<Message>, c: ConversationId, d: ConversationId)
    ensures MessagesOf(DropConversation(messages, c), c) == []
    ensures d != c ==> MessagesOf(DropConversation(messages, c), d) == MessagesOf(messages, d)
  {
    if messages != [] {
      DropConversationTranscripts(messages[1..], c, d);
    }
  }

  /** One row of the seeding INSERT with `ON CONFLICT (title) DO NOTHING`. */
  function InsertIfAbsent(kb: seq<KnowledgeEntry>, e: KnowledgeEntry): (r: seq<KnowledgeEntry>)
    ensures HasTitle(kb, e.title) ==> r == kb
    ensures !HasTitle(kb, e.title) ==> r == kb + [e]
    ensures HasTitle(r, e.title)
    ensures UniqueTitles(kb) ==> UniqueTitles(r)
  {
    if HasTitle(kb, e.title) then kb
    else
      assert (kb + [e])[|kb|].title == e.title;
      kb + [e]
  }

  /** The rows of a multi-row seeding INSERT applied one after another, left to right. */
  function Seeded(kb: seq<KnowledgeEntry>, entries: seq<KnowledgeEntry>): (r: seq<KnowledgeEntry>)
    ensures |kb| <= |r| <= |kb| + |entries|
    decreases |entries|
  {
    if entries == [] then kb else Seeded(InsertIfAbsent(kb, entries[0]), entries[1..])
  }

  /**
   * Seeding never overwrites: every existing row keeps its place and its content, the unique-title
   * constraint survives, and afterwards every seeded title is present.
   */
  lemma {:induction false} SeededExtends(kb: seq<KnowledgeEntry>, entries: seq<KnowledgeEntry>)
    ensures |kb| <= |Seeded(kb, entries)| && Seeded(kb, entries)[..|kb|] == kb
    ensures UniqueTitles(kb) ==> UniqueTitles(Seeded(kb, entries))
    ensures forall k :: 0 <= k < |entries| ==> HasTitle(Seeded(kb, entries), entries[k].title)
    decreases |entries|
  {
    if entries != [] {
      var kb' := InsertIfAbsent(kb, entries[0]);
      SeededExtends(kb', entries[1..]);
      var r := Seeded(kb, entries);
      assert r[..|kb'|][..|kb|] == r[..|kb|];
      var w :| 0 <= w < |kb'| && kb'[w].title == entries[0].title;
      assert r[w] == kb'[w];
      forall k | 0 <= k < |entries| ensures HasTitle(r, entries[k].title) {
        if k > 0 { assert entries[k] == entries[1..][k - 1]; }
      }
    }
  }

  /** Seeding a knowledge base that already holds every seeded title changes nothing. */
  lemma {:induction false} SeededNoop(kb: seq<KnowledgeEntry>, entries: seq<KnowledgeEntry>)
    requires forall k :: 0 <= k < |entries| ==> HasTitle(kb, entries[k].title)
    ensures Seeded(kb, entries) == kb
    decreases |entries|
  {
    if entries != [] {
      assert HasTitle(kb, entries[0].title);
      forall k | 0 <= k < |entries[1..]| ensures HasTitle(kb, entries[1..][k].title) {
        assert entries[1..][k] == entries[k + 1];
      }
      SeededNoop(kb, entries[1..]);
    }
  }

  /** Running the seeding twice leaves the same knowledge base as running it once. */
  lemma SeedingIdempotent(kb: seq<KnowledgeEntry>, entries: seq<KnowledgeEntry>)
    ensures Seeded(Seeded(kb, entries), entries) == Seeded(kb, entries)
  {
    SeededExtends(kb, entries);
    SeededNoop(Seeded(kb, entries), entries);
  }

  /** Dropping the first row keeps titles distinct. */
  lemma UniqueTitlesTail(entries: seq<KnowledgeEntry>)
    requires entries != [] && UniqueTitles(entries)
    ensures UniqueTitles(entries[1..])
  {
    forall i, j | 0 <= i < j < |entries[1..]| ensures entries[1..][i].title != entries[1..][j].title {
      assert entries[1..][i] == entries[i + 1] && entries[1..][j] == entries[j + 1];
    }
  }

  /**
   * One step of fresh seeding: the first row is appended, and the remaining rows are still
   * distinct-titled and absent from the grown knowledge base.
   */
  lemma SeededFreshStep(kb: seq<KnowledgeEntry>, entries: seq<KnowledgeEntry>)
    requires entries != [] && UniqueTitles(entries)
    requires forall k :: 0 <= k < |entries| ==> !HasTitle(kb, entries[k].title)
    ensures InsertIfAbsent(kb, entries[0]) == kb + [entries[0]]
    ensures UniqueTitles(entries[1..])
    ensures forall k :: 0 <= k < |entries[1..]| ==> !HasTitle(kb + [entries[0]], entries[1..][k].title)
    ensures (kb + [entries[0]]) + entries[1..] == kb + entries
  {
    assert !HasTitle(kb, entries[0].title);
    forall k | 0 <= k < |entries[1..]| ensures !HasTitle(kb + [entries[0]], entries[1..][k].title) {
      assert entries[1..][k] == entries[k + 1];
      assert entries[k + 1].title != entries[0].title;
      assert !HasTitle(kb, entries[k + 1].title);
    }
    UniqueTitlesTail(entries);
  }

  /** When no seeded title is present yet and the seeded titles are distinct, every seeded row is appended in order. */
  lemma {:induction false} SeededFresh(kb: seq<KnowledgeEntry>, entries: seq<KnowledgeEntry>)
    requires UniqueTitles(entries)
    requires forall k :: 0 <= k < |entries| ==> !HasTitle(kb, entries[k].title)
    ensures Seeded(kb, entries) == kb + entries
    decreases |entries|
  {
    if entries != [] {
      SeededFreshStep(kb, entries);
      SeededFresh(kb + [entries[0]], entries[1..]);
    }
  }

  /** The three policy snippets the server seeds at start-up, in statement order. */
  const SeedEntries: seq<KnowledgeEntry> := [
    KnowledgeEntry("Shipping Policy", "We ship within India and USA. Delivery takes 5-7 business days."),
    KnowledgeEntry("Return Policy", "Returns are accepted within 7 days of delivery if the product is unused."),
    KnowledgeEntry("Support Hours", "Customer Support is available Monday to Friday, 9am to 6pm IST.")
  ]

  /** Seeding an empty knowledge base yields exactly the three policy snippets, in order. */
  lemma SeedingEmpty()
    ensures Seeded([], SeedEntries) == SeedEntries
    ensures |Seeded([], SeedEntries)| == 3
    ensures Seeded([], SeedEntries)[0].title == "Shipping Policy"
    ensures Seeded([], SeedEntries)[1].title == "Return Policy"
    ensures Seeded([], SeedEntries)[2].title == "Support Hours"
  {
    assert SeedEntries[1].title[0] != SeedEntries[2].title[0];
    SeededFresh([], SeedEntries);
  }

  /** The contents of the knowledge rows in retrieval order. */
  function Contents(kb: seq<KnowledgeEntry>): (r: seq<string>)
    ensures |r| == |kb| && forall i :: 0 <= i < |kb| ==> r[i] == kb[i].content
  {
    seq(|kb|, i requires 0 <= i < |kb| => kb[i].content)
  }

  /**
   * The database. The tables are fields; the invariant Valid() is the schema's constraints. A
   * transaction keeps the table contents seen at BEGIN, which ROLLBACK restores; the serial counter
   * of `messages` is outside the transaction and is never rolled back.
   */
  class Store {
    var conversations: set<ConversationId>
    var messages: seq<Message>
    var nextMessageId: nat
    var knowledge: seq<KnowledgeEntry>
    var inTransaction: bool
    var savedConversations: set<ConversationId>
    var savedMessages: seq<Message>

    ghost predicate Valid()
      reads this
    {
      && MessagesWellFormed(conversations, messages, nextMessageId)
      && UniqueTitles(knowledge)
      && (inTransaction ==> MessagesWellFormed(savedConversations, savedMessages, nextMessageId))
    }

    /** The transcript of conversation `c`: its rows in table order; empty for an unknown conversation. */
    function Transcript(c: ConversationId): (r: seq<Message>)
      reads this
      requires Valid()
      ensures c !in conversations ==> r == []
    {
      if c in conversations then MessagesOf(messages, c)
      else MessagesOfAbsent(messages, c); []
    }

    /** A transcript lists exactly the rows of its conversation, by increasing key. */
    lemma TranscriptOrdered(c: ConversationId)
      requires Valid()
      ensures IdsIncreasing(Transcript(c))
      ensures forall m :: m in Transcript(c) <==> m in messages && m.conversationId == c
    {
      MessagesOfIncreasing(messages, c);
      TranscriptComplete(messages, c);
    }

    /** Every row of a conversation has a key below the serial counter, so the next row inserted sorts after all of them. */
    lemma TranscriptBelowCounter(c: ConversationId)
      requires Valid()
      ensures forall m :: m in MessagesOf(messages, c) ==> m.id < nextMessageId
    {
      forall m | m in MessagesOf(messages, c) ensures m.id < nextMessageId {
        var i :| 0 <= i < |messages| && messages[i] == m;
      }
    }

    /** A freshly created database: the three tables exist and are empty. */
    constructor ()
      ensures Valid() && !inTransaction
      ensures conversations == {} && messages == [] && knowledge == []
    {
      conversations, messages, nextMessageId, knowledge := {}, [], 1, [];
      inTransaction, savedConversations, savedMessages := false, {}, [];
    }

    /** `SELECT 1 FROM conversations WHERE id = $1`: whether the conversation exists. */
    method HasConversation(c: ConversationId) returns (found: bool)
      ensures found <==> c in conversations
    {
      found := c in conversations;
    }

    /** `INSERT INTO conversations (id) VALUES ($1)`, for a key that the primary key admits. */
    method InsertConversation(c: ConversationId)
      requires Valid() && c !in conversations
      modifies this
      ensures Valid()
      ensures conversations == old(conversations) + {c}
      ensures messages == old(messages) && nextMessageId == old(nextMessageId) && knowledge == old(knowledge)
      ensures inTransaction == old(inTransaction)
      ensures savedConversations == old(savedConversations) && savedMessages == old(savedMessages)
    {
      conversations := conversations + {c};
    }

    /** `INSERT INTO messages (conversation_id, sender, text)`, for a row the constraints admit; the row gets the next serial key. */
    method InsertMessage(c: ConversationId, sender: string, text: string)
      requires Valid() && c in conversations && IsSender(sender)
      modifies this
      ensures Valid()
      ensures messages == old(messages) + [Message(old(nextMessageId), c, sender, text)]
      ensures nextMessageId == old(nextMessageId) + 1
      ensures conversations == old(conversations) && knowledge == old(knowledge)
      ensures inTransaction == old(inTransaction)
      ensures savedConversations == old(savedConversations) && savedMessages == old(savedMessages)
    {
      messages := messages + [Message(nextMessageId, c, sender, text)];
      nextMessageId := nextMessageId + 1;
    }

    /** `DELETE FROM conversations WHERE id = $1`, whose foreign key cascades to the conversation's messages. */
    method DeleteConversation(c: ConversationId)
      requires Valid()
      modifies this
      ensures Valid()
      ensures conversations == old(conversations) - {c}
      ensures messages == DropConversation(old(messages), c)
      ensures forall d :: MessagesOf(messages, d) == if d == c then [] else MessagesOf(old(messages), d)
      ensures nextMessageId == old(nextMessageId) && knowledge == old(knowledge)
      ensures inTransaction == old(inTransaction)
      ensures savedConversations == old(savedConversations) && savedMessages == old(savedMessages)
    {
      conversations := conversations - {c};
      DropConversationIncreasing(messages, c);
      messages := DropConversation(messages, c);
      forall d ensures MessagesOf(messages, d) == (if d == c then [] else MessagesOf(old(messages), d)) {
        DropConversationTranscripts(old(messages), c, d);
      }
    }

    /** `BEGIN`: remember the table contents. */
    method Begin()
      requires Valid() && !inTransaction
      modifies this
      ensures Valid() && inTransaction
      ensures savedConversations == conversations && savedMessages == messages
      ensures conversations == old(conversations) && messages == old(messages)
      ensures nextMessageId == old(nextMessageId) && knowledge == old(knowledge)
    {
      inTransaction := true;
      savedConversations, savedMessages := conversations, messages;
    }

    /** `COMMIT`: keep what the transaction wrote. */
    method Commit()
      requires Valid() && inTransaction
      modifies this
      ensures Valid() && !inTransaction
      ensures conversations == old(conversations) && messages == old(messages)
      ensures nextMessageId == old(nextMessageId) && knowledge == old(knowledge)
    {
      inTransaction := false;
    }

    /** `ROLLBACK`: return the tables to their contents at BEGIN; the serial counter keeps its value. */
    method Rollback()
      requires Valid() && inTransaction
      modifies this
      ensures Valid() && !inTransaction
      ensures conversations == old(savedConversations) && messages == old(savedMessages)
      ensures nextMessageId == old(nextMessageId) && knowledge == old(knowledge)
    {
      inTransaction := false;
      conversations, messages := savedConversations, savedMessages;
    }

    /**
     * The seeding statement of initDB: each policy snippet is inserted unless a row with its title
     * already exists. The knowledge base becomes Seeded(old knowledge, SeedEntries).
     */
    method SeedKnowledge()
      requires Valid()
      modifies this
      ensures Valid()
      ensures knowledge == Seeded(old(knowledge), SeedEntries)
      ensures conversations == old(conversations) && messages == old(messages)
      ensures nextMessageId == old(nextMessageId) && inTransaction == old(inTransaction)
      ensures savedConversations == old(savedConversations) && savedMessages == old(savedMessages)
    {
      var i := 0;
      while i < |SeedEntries|
        invariant 0 <= i <= |SeedEntries|
        invariant Valid()
        invariant Seeded(knowledge, SeedEntries[i..]) == Seeded(old(knowledge), SeedEntries)
        invariant conversations == old(conversations) && messages == old(messages)
        invariant nextMessageId == old(nextMessageId) && inTransaction == old(inTransaction)
        invariant savedConversations == old(savedConversations) && savedMessages == old(savedMessages)
      {
        assert SeedEntries[i..][1..] == SeedEntries[i + 1..];
        knowledge := InsertIfAbsent(knowledge, SeedEntries[i]);
        i := i + 1;
      }
    }
  }

  /** initDB on a new database: the tables are created, then seeded with exactly the three policy snippets. */
  method InitDB() returns (store: Store)
    ensures fresh(store) && store.Valid() && !store.inTransaction
    ensures store.conversations == {} && store.messages == []
    ensures store.knowledge == SeedEntries
  {
    store := new Store();
    store.SeedKnowledge();
    SeedingEmpty();
  }
}
