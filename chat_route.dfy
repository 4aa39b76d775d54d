/**
 * The chat routes. `POST /chat/message` validates the body, resolves the
 * session (a new conversation when no id, or an unknown id, is given), stores
 * the user message, generates the reply, stores the assistant message and
 * answers with the reply and the resolved id. `GET /chat/:sessionId` returns
 * the session's messages, oldest first.
 *
 * `Post` says what the handler does to the store and answers; `PostMessage`
 * does it statement by statement on a `Store`. Every id, clock reading,
 * provider answer and storage failure is an oracle, given in `Oracles`.
 */
module ChatRoute {
  import opened Wrappers
  import opened Schema
  import opened Query
  import opened Db
  import opened Validation
  import opened Llm

  const NewChatTitle := "New Chat"
  const InternalErrorText := "Internal Server Error"

  /** The handler's replies: 200 with `{reply, sessionId}`, 400 or 500 with `{error}`. */
  datatype Response =
    | Reply(reply: string, sessionId: string)
    | BadRequest(error: string)
    | ServerError(error: string)

  datatype HistoryResponse = HistoryOk(history: seq<Message>) | HistoryError(error: string)

  /** The storage statements the handler runs, so that an oracle can say which of them fail. */
  datatype DbCall = ConversationLookup | ConversationInsert | UserInsert | HistoryRead | AssistantInsert

  /**
   * The handler's nondeterministic inputs: the value `uuidv4()` yields when a
   * conversation is minted and for each message, the two `new Date()`
   * readings, the provider, and the statements at which storage fails.
   */
  datatype Oracles = Oracles(
    freshSessionId: string,
    userMessageId: string,
    assistantMessageId: string,
    userCreatedAt: Timestamp,
    assistantCreatedAt: Timestamp,
    provider: Provider,
    failing: set<DbCall>)

  /** The handler's answer and the store it leaves behind. */
  datatype Exchange = Exchange(response: Response, db: DbState)

  datatype Resolved = Resolved(sessionId: string, db: DbState)

  /**
   * Session resolution: `sessionId || uuidv4()`, then either the insert of a new
   * conversation or a lookup (and, when it finds nothing, a fresh id and an
   * insert). An empty `sessionId` is falsy and counts as none.
   */
  function Resolve(db: DbState, requested: Option<string>, o: Oracles): (r: Result<Resolved, DbError>)
    ensures r.Success? ==> ConversationExists(r.value.db, r.value.sessionId)
    ensures r.Success? ==> r.value.db.messages == db.messages
    ensures r.Success? ==> r.value.db.conversationCreatedAtDefault == db.conversationCreatedAtDefault
    ensures r.Success? && Valid(db) ==> Valid(r.value.db)
    ensures r.Success? && ConversationsAtDefault(db) ==> ConversationsAtDefault(r.value.db)
  {
    if Truthy(requested) && ConversationLookup in o.failing then Failure(Unavailable)
    else if Truthy(requested) && ConversationExists(db, requested.value) then Success(Resolved(requested.value, db))
    else
      match AddConversation(db, o.freshSessionId, Some(NewChatTitle), ConversationInsert in o.failing)
      case Failure(e) => Failure(e)
      case Success(db1) => Success(Resolved(o.freshSessionId, db1))
  }

  function UserRow(o: Oracles, sid: string, message: string): Message
  {
    Message(o.userMessageId, sid, User, message, o.userCreatedAt)
  }

  function AssistantRow(o: Oracles, sid: string, reply: string): Message
  {
    Message(o.assistantMessageId, sid, Assistant, reply, o.assistantCreatedAt)
  }

  /**
   * The rest of the handler, once the session is resolved: store the user message,
   * generate the reply, store the assistant message, answer. A raised storage
   * error ends in a 500 with the store as the failing statement left it: the
   * writes before it stay.
   */
  function Converse(db1: DbState, sid: string, message: string, o: Oracles): (e: Exchange)
    requires ConversationExists(db1, sid)
    ensures e.response.Reply? || e.response == ServerError(InternalErrorText)
    ensures e.db.conversations == db1.conversations
    ensures e.db.conversationCreatedAtDefault == db1.conversationCreatedAtDefault
    ensures Valid(db1) ==> Valid(e.db)
    ensures e.response.Reply? ==>
      e.response.sessionId == sid
      && e.db.messages == db1.messages + [UserRow(o, sid, message)] + [AssistantRow(o, sid, e.response.reply)]
      && e.response.reply == ReplyFor(o.provider(Context(Window(db1.messages + [UserRow(o, sid, message)], sid), message)))
  {
    match AddMessage(db1, UserRow(o, sid, message), UserInsert in o.failing)
    case Failure(_) => Exchange(ServerError(InternalErrorText), db1)
    case Success(db2) =>
      match ReplyOutcome(db2, sid, message, HistoryRead in o.failing, o.provider)
      case Failure(_) => Exchange(ServerError(InternalErrorText), db2)
      case Success(reply) =>
        match AddMessage(db2, AssistantRow(o, sid, reply), AssistantInsert in o.failing)
        case Failure(_) => Exchange(ServerError(InternalErrorText), db2)
        case Success(db3) =>
          Exchange(Reply(reply, sid), db3)
  }

  /** The handler as a whole: validation, session resolution, then the exchange. */
  function Post(db: DbState, body: Body, o: Oracles): Exchange
  {
    match Validate(body)
    case Failure(issue) => Exchange(BadRequest(issue), db)
    case Success(req) =>
      match Resolve(db, req.sessionId, o)
      case Failure(_) => Exchange(ServerError(InternalErrorText), db)
      case Success(r) => Converse(r.db, r.sessionId, req.message, o)
  }

  /** `POST /chat/message`, run against the store. */
  method PostMessage(store: Store, body: Body, o: Oracles) returns (response: Response)
    modifies store
    ensures response == Post(old(store.State()), body, o).response
    ensures store.State() == Post(old(store.State()), body, o).db
  {
    var parsed := Validate(body);
    if parsed.Failure? {
      return BadRequest(parsed.error);
    }
    var message, sessionId := parsed.value.message, parsed.value.sessionId;
    var current := OrElse(sessionId, o.freshSessionId);
    if !Truthy(sessionId) {
      var inserted := store.InsertConversation(current, Some(NewChatTitle), ConversationInsert in o.failing);
      if inserted.Fail? {
        return ServerError(InternalErrorText);
      }
    } else {
      var found := store.FindConversation(current, ConversationLookup in o.failing);
      if found.Failure? {
        return ServerError(InternalErrorText);
      }
      if !found.value {
        current := o.freshSessionId;
        var inserted := store.InsertConversation(current, Some(NewChatTitle), ConversationInsert in o.failing);
        if inserted.Fail? {
          return ServerError(InternalErrorText);
        }
      }
    }
    var userInserted := store.InsertMessage(UserRow(o, current, message), UserInsert in o.failing);
    if userInserted.Fail? {
      return ServerError(InternalErrorText);
    }
    var reply := GenerateReply(store, current, message, HistoryRead in o.failing, o.provider);
    if reply.Failure? {
      return ServerError(InternalErrorText);
    }
    var assistantInserted := store.InsertMessage(AssistantRow(o, current, reply.value), AssistantInsert in o.failing);
    if assistantInserted.Fail? {
      return ServerError(InternalErrorText);
    }
    response := Reply(reply.value, current);
  }

  /** `GET /chat/:sessionId`: read-only; any id is accepted. */
  method GetHistory(store: Store, sessionId: string, readFails: bool) returns (response: HistoryResponse)
    ensures readFails ==> response == HistoryError(InternalErrorText)
    ensures !readFails ==> response == HistoryOk(History(store.messages, sessionId))
  {
    var rows := store.SelectMessages(sessionId, None, readFails);
    if rows.Failure? {
      return HistoryError(InternalErrorText);
    }
    response := HistoryOk(rows.value);
  }

  /** A body the schema refuses gets a 400 with the first issue, and the store is untouched. */
  lemma InvalidBodyChangesNothing(db: DbState, body: Body, o: Oracles)
    requires Validate(body).Failure?
    ensures Post(db, body, o).response == BadRequest(Issues(body)[0])
    ensures Post(db, body, o).db == db
  {
  }

  /**
   * Without a (non-empty) `sessionId`, a successful call returns the minted id,
   * under which exactly one conversation titled 'New Chat' was added.
   */
  lemma NoSessionMintsConversation(db: DbState, body: Body, o: Oracles)
    requires Validate(body).Success? && !Truthy(Validate(body).value.sessionId)
    requires Post(db, body, o).response.Reply?
    ensures Post(db, body, o).response.sessionId == o.freshSessionId
    ensures !ConversationExists(db, o.freshSessionId)
    ensures Post(db, body, o).db.conversations
      == db.conversations + [Conversation(o.freshSessionId, Some(NewChatTitle), db.conversationCreatedAtDefault)]
  {
  }

  /**
   * A `sessionId` that names a conversation adds no conversation, whatever
   * the outcome of the call, and a successful call answers with it unchanged.
   */
  lemma KnownSessionReused(db: DbState, body: Body, o: Oracles, sid: string)
    requires Validate(body).Success? && Validate(body).value.sessionId == Some(sid)
    requires sid != "" && ConversationExists(db, sid)
    ensures Post(db, body, o).db.conversations == db.conversations
    ensures Post(db, body, o).response.Reply? ==> Post(db, body, o).response.sessionId == sid
  {
  }

  /**
   * A `sessionId` that names no conversation is silently replaced: the answer
   * carries the newly minted id, a new 'New Chat' conversation exists under it,
   * and, with working storage and unused ids, the call is still answered with
   * a 200 rather than an error for the unknown id.
   */
  lemma UnknownSessionReplaced(db: DbState, body: Body, o: Oracles, sid: string)
    requires Validate(body).Success? && Validate(body).value.sessionId == Some(sid)
    requires sid != "" && !ConversationExists(db, sid)
    ensures FreshAndHealthy(db, o) ==> Post(db, body, o).response.Reply?
    ensures Post(db, body, o).response.Reply? ==>
      Post(db, body, o).response.sessionId == o.freshSessionId
      && Post(db, body, o).db.conversations
         == db.conversations + [Conversation(o.freshSessionId, Some(NewChatTitle), db.conversationCreatedAtDefault)]
  {
    if FreshAndHealthy(db, o) {
      ValidBodySucceeds(db, body, o);
    }
    if Post(db, body, o).response.Reply? {
      var req := Validate(body).value;
      var r := Resolve(db, req.sessionId, o);
      assert r.Success?;
      assert r.value.sessionId == o.freshSessionId;
    }
  }

  /**
   * A successful call appends exactly two rows, the user message and then the
   * assistant message carrying the reply it answers with, both under the
   * returned session id, which names an existing conversation.
   */
  lemma SuccessAppendsExchange(db: DbState, body: Body, o: Oracles)
    ensures var out := Post(db, body, o);
      out.response.Reply? ==>
        Validate(body).Success?
        && out.db.messages == db.messages
             + [UserRow(o, out.response.sessionId, Validate(body).value.message)]
             + [AssistantRow(o, out.response.sessionId, out.response.reply)]
        && ConversationExists(out.db, out.response.sessionId)
  {
    if Post(db, body, o).response.Reply? {
      var r := Resolve(db, Validate(body).value.sessionId, o);
      assert r.Success?;
    }
  }

  /** A successful call leaves every other conversation's messages as they were. */
  lemma SuccessKeepsOtherConversations(db: DbState, body: Body, o: Oracles, c: string)
    ensures var out := Post(db, body, o);
      out.response.Reply? && c != out.response.sessionId ==>
        MessagesOf(out.db.messages, c) == MessagesOf(db.messages, c)
  {
    var out := Post(db, body, o);
    if out.response.Reply? && c != out.response.sessionId {
      SuccessAppendsExchange(db, body, o);
      var u := UserRow(o, out.response.sessionId, Validate(body).value.message);
      var a := AssistantRow(o, out.response.sessionId, out.response.reply);
      HistoryAppendOther(db.messages, u, c);
      HistoryAppendOther(db.messages + [u], a, c);
    }
  }

  /**
   * Whatever the oracles do, the handler keeps every schema constraint: unique
   * ids, and each message referring to a conversation that existed when it was
   * written; and every conversation it adds carries the one column default.
   */
  lemma PostKeepsStoreValid(db: DbState, body: Body, o: Oracles)
    requires Valid(db)
    ensures Valid(Post(db, body, o).db)
    ensures ConversationsAtDefault(db) ==> ConversationsAtDefault(Post(db, body, o).db)
    ensures Post(db, body, o).db.conversationCreatedAtDefault == db.conversationCreatedAtDefault
  {
  }

  /**
   * No storage statement raises, and the ids the oracle hands out are unused:
   * the minted conversation id and the two message ids.
   */
  predicate FreshAndHealthy(db: DbState, o: Oracles)
  {
    o.failing == {}
    && !ConversationExists(db, o.freshSessionId)
    && o.userMessageId != o.assistantMessageId
    && !HasMessageId(db.messages, o.userMessageId) && !HasMessageId(db.messages, o.assistantMessageId)
  }

  /** Fresh ids and a healthy store: a valid body always gets a 200, whatever the provider does. */
  lemma ValidBodySucceeds(db: DbState, body: Body, o: Oracles)
    requires Validate(body).Success?
    requires FreshAndHealthy(db, o)
    ensures Post(db, body, o).response.Reply?
  {
    var req := Validate(body).value;
    var r := Resolve(db, req.sessionId, o).value;
    var u := UserRow(o, r.sessionId, req.message);
    assert forall m :: m in db.messages + [u] ==> m in db.messages || m == u;
  }

  /**
   * A failing history read is not absorbed: the request ends in a 500, the
   * session stays resolved, and the posted message stays stored, appended
   * after the untouched earlier rows, without an assistant reply.
   */
  lemma HistoryReadFailureSurfaces(db: DbState, body: Body, o: Oracles)
    requires Validate(body).Success?
    requires o.failing == {HistoryRead}
    requires !ConversationExists(db, o.freshSessionId)
    requires !HasMessageId(db.messages, o.userMessageId)
    ensures Resolve(db, Validate(body).value.sessionId, o).Success?
    ensures var out, r := Post(db, body, o), Resolve(db, Validate(body).value.sessionId, o).value;
      out.response == ServerError(InternalErrorText)
      && out.db.conversations == r.db.conversations
      && ConversationExists(out.db, r.sessionId)
      && out.db.messages == db.messages + [UserRow(o, r.sessionId, Validate(body).value.message)]
  {
  }

  /**
   * The reply of a successful call is the provider's answer to the context
   * built from the store as it stood after the user message was written.
   */
  lemma ReplyAnswersStoredContext(db: DbState, body: Body, o: Oracles)
    ensures var out := Post(db, body, o);
      out.response.Reply? ==>
        Validate(body).Success?
        && var sid, m := out.response.sessionId, Validate(body).value.message;
           out.response.reply == ReplyFor(o.provider(Context(Window(db.messages + [UserRow(o, sid, m)], sid), m)))
  {
  }

  /**
   * For a conversation created by the call itself, the provider sees
   * `[system, user M, user M]`: the stored message and the appended one.
   */
  lemma NewConversationSendsMessageTwice(db: DbState, body: Body, o: Oracles)
    requires Valid(db)
    requires Post(db, body, o).response.Reply?
    requires !ConversationExists(db, Post(db, body, o).response.sessionId)
    ensures var m := Validate(body).value.message;
      Post(db, body, o).response.reply == ReplyFor(o.provider(
        [ChatEntry(SystemSpeaker, SystemPrompt), ChatEntry(UserSpeaker, m), ChatEntry(UserSpeaker, m)]))
  {
    var out := Post(db, body, o);
    var sid, m := out.response.sessionId, Validate(body).value.message;
    NoMessagesWithoutConversation(db.conversations, db.messages, sid);
    NewConversationContext(db.messages, UserRow(o, sid, m));
    ReplyAnswersStoredContext(db, body, o);
  }

  /**
   * Round trip: when the clock does not run backwards, reading the history of
   * the returned id after a successful call ends with the user message and then
   * the assistant reply.
   */
  lemma {:induction false} HistoryEndsWithExchange(db: DbState, body: Body, o: Oracles)
    requires Post(db, body, o).response.Reply?
    requires forall x :: x in db.messages ==> x.createdAt <= o.userCreatedAt
    requires o.userCreatedAt <= o.assistantCreatedAt
    ensures var out := Post(db, body, o);
      var h := History(out.db.messages, out.response.sessionId);
      |h| >= 2
      && h[|h| - 2] == UserRow(o, out.response.sessionId, Validate(body).value.message)
      && h[|h| - 1] == AssistantRow(o, out.response.sessionId, out.response.reply)
  {
    var out := Post(db, body, o);
    SuccessAppendsExchange(db, body, o);
    var sid := out.response.sessionId;
    var u, a := UserRow(o, sid, Validate(body).value.message), AssistantRow(o, sid, out.response.reply);
    assert out.db.messages == db.messages + [u] + [a];
    ExchangeEndsHistory(db.messages, u, a);
  }

  /**
   * A session minted by the call: after one successful exchange its history
   * is exactly the user message followed by the assistant reply.
   */
  lemma FreshSessionHistoryIsExchange(db: DbState, body: Body, o: Oracles)
    requires Valid(db)
    requires Post(db, body, o).response.Reply?
    requires !ConversationExists(db, Post(db, body, o).response.sessionId)
    requires o.userCreatedAt <= o.assistantCreatedAt
    ensures var out := Post(db, body, o);
      var sid := out.response.sessionId;
      History(out.db.messages, sid)
        == [UserRow(o, sid, Validate(body).value.message), AssistantRow(o, sid, out.response.reply)]
  {
    var out := Post(db, body, o);
    SuccessAppendsExchange(db, body, o);
    var sid := out.response.sessionId;
    var u, a := UserRow(o, sid, Validate(body).value.message), AssistantRow(o, sid, out.response.reply);
    NoMessagesWithoutConversation(db.conversations, db.messages, sid);
    assert out.db.messages == db.messages + [u] + [a];
    FirstExchangeHistory(db.messages, u, a);
  }
}
