/**
 * The chat store: the two tables as an in-memory state, the effect of each
 * insert and select the chat code runs on them, and a `Store` object whose
 * methods perform those statements in place.
 *
 * Whether the storage engine is reachable is an oracle: each statement takes a
 * flag `fails` that makes it raise instead of running.
 */
module Db {
  import opened Wrappers
  import opened Schema
  import opened Query

  /** Why a statement raised: the engine failed, or an insert broke a primary key. */
  datatype DbError = Unavailable | PrimaryKeyViolation

  /**
   * The store's contents. `conversationCreatedAtDefault` is the value of the
   * `conversations.created_at` column default: `new Date()` in the table
   * definition runs once when the schema module loads, so every conversation
   * inserted without a timestamp receives this one value.
   */
  datatype DbState = DbState(
    conversations: seq<Conversation>,
    messages: seq<Message>,
    conversationCreatedAtDefault: Timestamp)

  ghost predicate Valid(db: DbState)
  {
    ValidTables(db.conversations, db.messages)
  }

  /** Every conversation carries the column default as its creation time. */
  ghost predicate ConversationsAtDefault(db: DbState)
  {
    forall c :: c in db.conversations ==> c.createdAt == db.conversationCreatedAtDefault
  }

  predicate ConversationExists(db: DbState, id: string)
  {
    HasConversation(db.conversations, id)
  }

  /**
   * `insert into conversations (id, title)`: raises when the engine fails or the
   * id is taken; otherwise adds the row with the default creation time.
   */
  function AddConversation(db: DbState, id: string, title: Option<string>, fails: bool): (r: Result<DbState, DbError>)
    ensures r.Success? <==> !fails && !ConversationExists(db, id)
    ensures r.Success? ==> ConversationExists(r.value, id)
    ensures r.Success? ==>
      r.value.conversations == db.conversations + [Conversation(id, title, db.conversationCreatedAtDefault)]
    ensures r.Success? ==> r.value.messages == db.messages
    ensures r.Success? ==> r.value.conversationCreatedAtDefault == db.conversationCreatedAtDefault
    ensures r.Success? && Valid(db) ==> Valid(r.value)
    ensures r.Success? && ConversationsAtDefault(db) ==> ConversationsAtDefault(r.value)
  {
    if fails then Failure(Unavailable)
    else if ConversationExists(db, id) then Failure(PrimaryKeyViolation)
    else
      var row := Conversation(id, title, db.conversationCreatedAtDefault);
      AddConversationKeepsValid(db.conversations, db.messages, row);
      assert row in db.conversations + [row];
      Success(db.(conversations := db.conversations + [row]))
  }

  /**
   * `insert into messages`: raises when the engine fails or the id is taken.
   * The caller must name an existing conversation (the foreign key).
   */
  function AddMessage(db: DbState, row: Message, fails: bool): (r: Result<DbState, DbError>)
    requires ConversationExists(db, row.conversationId)
    ensures r.Success? <==> !fails && !HasMessageId(db.messages, row.id)
    ensures r.Success? ==> r.value.conversations == db.conversations
    ensures r.Success? ==> r.value.messages == db.messages + [row]
    ensures r.Success? ==> r.value.conversationCreatedAtDefault == db.conversationCreatedAtDefault
    ensures r.Success? && Valid(db) ==> Valid(r.value)
  {
    if fails then Failure(Unavailable)
    else if HasMessageId(db.messages, row.id) then Failure(PrimaryKeyViolation)
    else
      AddMessageKeepsValid(db.conversations, db.messages, row);
      Success(db.(messages := db.messages + [row]))
  }

  /**
   * `select from messages where conversation_id = cid order by created_at`
   * with an optional `.limit(n)`.
   */
  function Select(db: DbState, cid: string, limit: Option<nat>, fails: bool): (r: Result<seq<Message>, DbError>)
    ensures r.Failure? <==> fails
    ensures r.Success? ==> SortedByCreatedAt(r.value)
    ensures r.Success? ==> forall m :: m in r.value ==> m in db.messages && m.conversationId == cid
    ensures r.Success? && limit.None? ==> |r.value| == |MessagesOf(db.messages, cid)|
    ensures r.Success? && limit.Some? ==> |r.value| == Min(limit.value, |MessagesOf(db.messages, cid)|)
    ensures r.Success? ==>
      r.value == if limit.None? then History(db.messages, cid) else Limit(History(db.messages, cid), limit.value)
  {
    if fails then Failure(Unavailable)
    else
      HistoryIsConversationInOrder(db.messages, cid);
      var h := History(db.messages, cid);
      match limit
      case None => Success(h)
      case Some(n) =>
        var w := Limit(h, n);
        assert forall m :: m in w ==> m in h;
        Success(w)
  }

  function Min(a: nat, b: nat): nat
  {
    if a <= b then a else b
  }

  /** The database connection: both tables, updated in place by each statement. */
  class Store {
    var conversations: seq<Conversation>
    var messages: seq<Message>
    const conversationCreatedAtDefault: Timestamp

    function State(): DbState
      reads this
    {
      DbState(conversations, messages, conversationCreatedAtDefault)
    }

    /** Empty tables; `loadedAt` is the clock reading taken when the schema module loaded. */
    constructor (loadedAt: Timestamp)
      ensures State() == DbState([], [], loadedAt)
      ensures Valid(State()) && ConversationsAtDefault(State())
    {
      conversations, messages := [], [];
      conversationCreatedAtDefault := loadedAt;
    }

    method InsertConversation(id: string, title: Option<string>, fails: bool) returns (r: Outcome<DbError>)
      modifies this
      ensures var e := AddConversation(old(State()), id, title, fails);
        match e
        case Success(db) => r == Pass && State() == db
        case Failure(err) => r == Fail(err) && State() == old(State())
    {
      if fails {
        return Fail(Unavailable);
      }
      if HasConversation(conversations, id) {
        return Fail(PrimaryKeyViolation);
      }
      conversations := conversations + [Conversation(id, title, conversationCreatedAtDefault)];
      r := Pass;
    }

    /** `select from conversations where id = ? limit 1`, reported as whether a row came back. */
    method FindConversation(id: string, fails: bool) returns (r: Result<bool, DbError>)
      ensures fails ==> r == Failure(Unavailable)
      ensures !fails ==> r == Success(ConversationExists(State(), id))
    {
      if fails {
        return Failure(Unavailable);
      }
      r := Success(HasConversation(conversations, id));
    }

    method InsertMessage(row: Message, fails: bool) returns (r: Outcome<DbError>)
      requires ConversationExists(State(), row.conversationId)
      modifies this
      ensures var e := AddMessage(old(State()), row, fails);
        match e
        case Success(db) => r == Pass && State() == db
        case Failure(err) => r == Fail(err) && State() == old(State())
    {
      if fails {
        return Fail(Unavailable);
      }
      if HasMessageId(messages, row.id) {
        return Fail(PrimaryKeyViolation);
      }
      messages := messages + [row];
      r := Pass;
    }

    method SelectMessages(cid: string, limit: Option<nat>, fails: bool) returns (r: Result<seq<Message>, DbError>)
      ensures r == Select(State(), cid, limit, fails)
    {
      if fails {
        return Failure(Unavailable);
      }
      var h := History(messages, cid);
      if limit.Some? {
        h := Limit(h, limit.value);
      }
      r := Success(h);
    }
  }
}
