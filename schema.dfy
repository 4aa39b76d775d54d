/**
 * The two tables of the chat store, `conversations` and `messages`, as row
 * values, and the constraints the table definitions declare on them: unique
 * primary keys, a non-null foreign key from each message to its conversation,
 * and a role column restricted to two values.
 */
module Schema {
  import opened Wrappers

  /** A timestamp column (`integer` in `timestamp` mode). */
  type Timestamp = int

  /** The `role` column's enumeration: only these two values can be stored. */
  datatype Role = User | Assistant

  /** A row of `conversations`. The title column is nullable; `createdAt` is not. */
  datatype Conversation = Conversation(id: string, title: Option<string>, createdAt: Timestamp)

  /** A row of `messages`. Every column is non-null, so every field is a plain value. */
  datatype Message = Message(
    id: string,
    conversationId: string,
    role: Role,
    content: string,
    createdAt: Timestamp)

  /** The primary key of `conversations`: no two rows share an id. */
  ghost predicate UniqueConversationIds(cs: seq<Conversation>)
  {
    forall i, j :: 0 <= i < j < |cs| ==> cs[i].id != cs[j].id
  }

  /** The primary key of `messages`: no two rows share an id. */
  ghost predicate UniqueMessageIds(ms: seq<Message>)
  {
    forall i, j :: 0 <= i < j < |ms| ==> ms[i].id != ms[j].id
  }

  predicate HasConversation(cs: seq<Conversation>, id: string)
  {
    exists c :: c in cs && c.id == id
  }

  predicate HasMessageId(ms: seq<Message>, id: string)
  {
    exists m :: m in ms && m.id == id
  }

  /** The foreign key `messages.conversation_id -> conversations.id`. */
  ghost predicate ForeignKeys(cs: seq<Conversation>, ms: seq<Message>)
  {
    forall m :: m in ms ==> HasConversation(cs, m.conversationId)
  }

  /** Every constraint the schema declares, over the whole store. */
  ghost predicate ValidTables(cs: seq<Conversation>, ms: seq<Message>)
  {
    UniqueConversationIds(cs) && UniqueMessageIds(ms) && ForeignKeys(cs, ms)
  }

  /** Appending a conversation whose id is new keeps every constraint. */
  lemma AddConversationKeepsValid(cs: seq<Conversation>, ms: seq<Message>, c: Conversation)
    requires !HasConversation(cs, c.id)
    ensures ValidTables(cs, ms) ==> ValidTables(cs + [c], ms)
    ensures HasConversation(cs + [c], c.id)
  {
    assert c in cs + [c];
    if ValidTables(cs, ms) {
      forall m | m in ms ensures HasConversation(cs + [c], m.conversationId) {
        var d :| d in cs && d.id == m.conversationId;
        assert d in cs + [c];
      }
    }
  }

  /** Appending a message whose id is new and whose conversation exists keeps every constraint. */
  lemma AddMessageKeepsValid(cs: seq<Conversation>, ms: seq<Message>, m: Message)
    requires !HasMessageId(ms, m.id)
    requires HasConversation(cs, m.conversationId)
    ensures ValidTables(cs, ms) ==> ValidTables(cs, ms + [m])
  {
    if ValidTables(cs, ms) {
      forall i, j | 0 <= i < j < |ms + [m]| ensures (ms + [m])[i].id != (ms + [m])[j].id {
        if j == |ms| {
          assert ms[i] in ms;
        }
      }
    }
  }

  /**
   * Under the foreign key, a conversation id that names no conversation has no
   * messages.
   */
  lemma NoMessagesWithoutConversation(cs: seq<Conversation>, ms: seq<Message>, id: string)
    requires ForeignKeys(cs, ms)
    requires !HasConversation(cs, id)
    ensures forall m :: m in ms ==> m.conversationId != id
  {
  }
}
