# Chat session lifecycle of a support-chat widget

This project models the session core of a customer-support chat widget, in
Dafny. On the server it covers the `POST /chat/message` handler: validating the body,
resolving or minting the session, storing the user message, generating the
reply and storing the assistant message. It also covers the `GET /chat/:sessionId`
history read, the reply generator that builds the provider context and picks
the fallback texts, the request schema, and the two tables with their
constraints. On the client it covers the `useChat` state: the `send`,
`loadHistory`, `resetSession` and mount transitions.

Modules: one per source file of the core, plus three shared ones (`Query`, `Db` and `Wrappers`):

- `Schema` (`schema.dfy`): the row values and the table constraints (`ValidTables`).
- `Query` (`query.dfy`): the message query, meaning the filter by conversation, the
  stable ascending sort by `createdAt` and the limit.
- `Db` (`db.dfy`): the database connection the routes use: the store state, the effect of each insert and select
  (`AddConversation`, `AddMessage`, `Select`) and the `Store` class that runs them in place.
- `Validation` (`validation.dfy`): the body schema, with lengths counted in UTF-16 code units.
- `Llm` (`llm.dfy`): the context window, the context, the reply fallbacks and `GenerateReply`.
- `ChatRoute` (`chat_route.dfy`): `Post`, which specifies the whole handler, the
  `PostMessage` and `GetHistory` methods, and the endpoint properties.
- `UseChat` (`use_chat.dfy`): the client state as the class `ChatState`.
- `Wrappers` (`wrappers.dfy`): `Option`, `Result`, `Outcome` and JavaScript truthiness of optional strings.

Oracles, which are parameters rather than computations:

- every `uuidv4()` value;
- every `new Date()` reading;
- the completion provider, as a function from the context sent to a `ProviderOutcome`;
- which storage statements raise (`Oracles.failing`);
- the outcome of each client HTTP call.

Behaviour the code has and the model keeps:

- An empty `sessionId` string is falsy in `sessionId || uuidv4()` and in `!sessionId`. It is
  therefore treated like a missing one: a new conversation is minted.
- The history query orders ascending and then applies `limit(10)`. The
  window is therefore the OLDEST ten messages (`Llm.WindowIsOldest`). Once a
  conversation holds ten messages, later messages that are no older than the
  stored ones leave the window unchanged (`Llm.WindowFrozenAtLimit`).
- The user message is stored before the reply is generated. When the
  conversation held fewer than ten messages before it, and none of them is
  younger than it, it is therefore sent twice: once as the last history entry
  and once as the final entry (`Llm.StoredMessageSentTwice`). A brand-new
  conversation sends `[system, user M, user M]`. When the conversation already
  held ten or more messages, none younger than the new one, the window is the
  one read before the message was stored (`Llm.WindowFrozenAtLimit`), so the
  message is sent once, as the final entry.
- The server does not trim. A message of spaces only is accepted. Only the
  client refuses blank text.

## Model

| member | source | states |
|---|---|---|
| `Schema.AddConversationKeepsValid` | server/src/db/schema.ts:4 | adding a conversation with an unused primary key keeps both keys unique and every foreign key satisfied |
| `Schema.AddMessageKeepsValid` | server/src/db/schema.ts:10-11 | adding a message with an unused id whose conversation exists keeps every table constraint |
| `Schema.NoMessagesWithoutConversation` | server/src/db/schema.ts:11 | under the foreign key, an id naming no conversation has no messages |
| `Query.MessagesOfMembers` | server/src/routes/chat.ts:67-69 | the filter keeps each row of the given conversation exactly as often as it is stored, and no row of another conversation |
| `Query.ByCreatedAtSortsAndPermutes` | server/src/routes/chat.ts:70 | the ordering is ascending by `createdAt` and is a permutation of its input of the same length |
| `Query.Limit` | server/src/services/llm.ts:55 | `limit(n)` is the prefix of length min(n, size) |
| `Query.HistoryIsConversationInOrder` | server/src/routes/chat.ts:64-72 | history is sorted ascending, holds each row of the conversation exactly as often as the table stores it, and no row of another conversation |
| `Query.HistoryOfUnknownIsEmpty` | server/src/routes/chat.ts:67-72 | a session with no rows, such as an unknown id, gets an empty history, not an error |
| `Query.HistoryAppendOther` | server/src/routes/chat.ts:67-70 | a row of another conversation changes neither this conversation's rows nor its history |
| `Query.HistoryAppendLatest` | server/src/routes/chat.ts:67-70 | a row no older than its conversation's rows goes to the end of that history |
| `Query.ExchangeEndsHistory` | server/src/routes/chat.ts:67-70 | two rows of one conversation appended in clock order, after rows no younger, end its history in that order |
| `Query.FirstExchangeHistory` | server/src/routes/chat.ts:67-70 | two rows of a conversation that had none, appended in clock order, are its whole history in that order |
| `Db.AddConversation` | server/src/routes/chat.ts:29 | the insert succeeds exactly when storage works and the id is unused; then the existing conversations are kept and one row with that id, that title and the shared default timestamp is appended, messages are untouched and validity is kept |
| `Db.AddMessage` | server/src/routes/chat.ts:38-44 | the insert needs an existing conversation; it succeeds exactly when storage works and the id is unused, appends exactly the row, and keeps validity |
| `Db.Select` | server/src/services/llm.ts:51-55 | the select fails only when storage does; it returns the conversation's history, cut to the first `limit` rows when a limit is given: sorted rows of that conversation only, min(limit, n) of them or all n |
| `Db.Store.constructor` | server/src/db/schema.ts:6 | a new store is empty and valid; the conversation default timestamp is the one value read when the schema loads |
| `Db.Store.InsertConversation` | server/src/routes/chat.ts:34 | the object's tables change exactly as `AddConversation` says, or not at all when it raises |
| `Db.Store.FindConversation` | server/src/routes/chat.ts:31 | the lookup reports whether a conversation with that id exists, or raises |
| `Db.Store.InsertMessage` | server/src/routes/chat.ts:48-54 | the object's tables change exactly as `AddMessage` says, or not at all when it raises |
| `Db.Store.SelectMessages` | server/src/routes/chat.ts:67-70 | reading the object returns what `Select` specifies |
| `Validation.Utf16Length` | server/src/utils/validation.ts:4 | JavaScript length lies between the character count and twice it |
| `Validation.Utf16LengthOfBmp` | server/src/utils/validation.ts:4 | for text inside the Basic Multilingual Plane, code units equal characters |
| `Validation.Validate` | server/src/utils/validation.ts:3-6 | a body is accepted iff it is an object, `message` is a string of 1..2000 code units and `sessionId` is missing or a string; parsing passes both through unchanged; the error is the message field's first issue when it has one |
| `Validation.EmptyMessageRejected` | server/src/utils/validation.ts:4 | an empty message is refused with "Message cannot be empty" |
| `Validation.LongMessageRejected` | server/src/utils/validation.ts:4 | a message over 2000 code units is refused with "Message too long" |
| `Validation.AstralCharactersCountTwice` | server/src/utils/validation.ts:4 | 1001 characters beyond the Basic Multilingual Plane are too long, since they are 2002 code units |
| `Validation.AstralLength` | server/src/utils/validation.ts:4 | every character beyond the Basic Multilingual Plane counts two code units |
| `Validation.BlankMessageAccepted` | server/src/utils/validation.ts:4 | with no trimming, 1..2000 spaces are accepted unchanged, with or without a session id |
| `Validation.MessageIssueComesFirst` | server/src/utils/validation.ts:3-5 | when both fields are bad, the message field's issue is the one reported |
| `Validation.SessionIdTypeReported` | server/src/utils/validation.ts:5 | a non-string `sessionId` beside a good message is refused with the type error |
| `Llm.ReplyFor` | server/src/services/llm.ts:72-76 | whatever the provider does, the reply is a non-empty string |
| `Llm.ReplyOutcome` | server/src/services/llm.ts:50-77 | `generateReply` fails exactly when the history read fails; otherwise the reply is the provider's answer to the context of the oldest-ten window |
| `Llm.GenerateReply` | server/src/services/llm.ts:50-77 | the method returns what `ReplyOutcome` specifies and raises only on a failed read |
| `Llm.ProviderFailureFallsBack` | server/src/services/llm.ts:73-76 | a raising provider, or a response without `choices`, yields the fixed "having trouble connecting" text |
| `Llm.EmptyAnswerFallsBack` | server/src/services/llm.ts:72 | no first choice, no message or empty content yields "I apologize, I couldn't generate a response." |
| `Llm.ContentIsReply` | server/src/services/llm.ts:72 | non-empty content of the first choice is the reply unchanged |
| `Llm.WindowIsOldest` | server/src/services/llm.ts:51-55 | the window is the first min(10, n) history rows; no row in it is younger than any row left out |
| `Llm.ContextShape` | server/src/services/llm.ts:57-68 | the context is the system entry, then each history row's role and content in order, then the user message |
| `Llm.ContextBound` | server/src/services/llm.ts:51-68 | the context has 2 + min(10, n) entries, never more than 12 |
| `Llm.StoredMessageSentTwice` | server/src/services/llm.ts:51-67 | for a latest message stored in a conversation of fewer than ten, the last two context entries are both that user message |
| `Llm.NewConversationContext` | server/src/services/llm.ts:51-67 | with no earlier messages, the context is `[system, user M, user M]` |
| `Llm.WindowFrozenAtLimit` | server/src/services/llm.ts:51-55 | from ten messages on, a later message leaves the window unchanged |
| `ChatRoute.Resolve` | server/src/routes/chat.ts:26-36 | a resolved id always names an existing conversation; resolution adds no messages and keeps validity and the shared default |
| `ChatRoute.Converse` | server/src/routes/chat.ts:38-56 | after resolution the handler answers 200 or 500 only, never adds a conversation, keeps validity, and on success answers with the resolved id, appends the user row then the assistant row, and replies with the provider's answer to the window read after the user row was stored |
| `ChatRoute.PostMessage` | server/src/routes/chat.ts:18-62 | the handler's answer and the new store are those `Post` specifies |
| `ChatRoute.GetHistory` | server/src/routes/chat.ts:64-77 | the history read answers with the session's rows oldest first, or a 500 when storage fails |
| `ChatRoute.InvalidBodyChangesNothing` | server/src/routes/chat.ts:20-23 | a refused body gets a 400 with the first issue and the store is untouched |
| `ChatRoute.NoSessionMintsConversation` | server/src/routes/chat.ts:26-29 | without a session id, success returns the minted id, under which one 'New Chat' conversation with the default timestamp was added |
| `ChatRoute.KnownSessionReused` | server/src/routes/chat.ts:30-36 | a known id adds no conversation on any outcome of the call, and on success it is returned unchanged |
| `ChatRoute.UnknownSessionReplaced` | server/src/routes/chat.ts:31-35 | on success, an unknown id is replaced by the minted id with a new 'New Chat' conversation; with working storage and unused ids the call succeeds, so the unknown id is not an error |
| `ChatRoute.SuccessAppendsExchange` | server/src/routes/chat.ts:38-56 | success appends exactly the user row then the assistant row carrying the returned reply, under an existing returned id |
| `ChatRoute.SuccessKeepsOtherConversations` | server/src/routes/chat.ts:38-54 | on success no other conversation's messages change |
| `ChatRoute.PostKeepsStoreValid` | server/src/routes/chat.ts:26-54 | for any oracles, the handler keeps ids unique and every message's conversation existing; all its conversations share the module-load default timestamp |
| `ChatRoute.ValidBodySucceeds` | server/src/routes/chat.ts:18-57 | with fresh ids and working storage, a valid body always gets a 200, whatever the provider does |
| `ChatRoute.HistoryReadFailureSurfaces` | server/src/routes/chat.ts:46 | a failing history read inside `generateReply` becomes a 500; the session stays resolved and exactly the posted user message is appended after the untouched earlier rows, with no assistant reply |
| `ChatRoute.ReplyAnswersStoredContext` | server/src/routes/chat.ts:38-46 | the reply is the provider's answer to the window read after the user message was stored |
| `ChatRoute.NewConversationSendsMessageTwice` | server/src/routes/chat.ts:38-46 | for a conversation minted by the call, the provider receives `[system, user M, user M]` |
| `ChatRoute.HistoryEndsWithExchange` | server/src/routes/chat.ts:38-72 | with a clock that does not run backwards, the returned session's history ends with the user message and then the assistant reply |
| `ChatRoute.FreshSessionHistoryIsExchange` | server/src/routes/chat.ts:26-72 | for a session minted by the call, after one successful exchange and with a clock that does not run backwards, the history is exactly `[user message, assistant reply]` |
| `UseChat.TrimEmptyIffBlank` | client/src/hooks/useChat.ts:37 | `text.trim()` is empty exactly when every character is JavaScript white space or a line terminator |
| `UseChat.GuardedTextNeverEmpty` | client/src/hooks/useChat.ts:37 | text passing the client guard is never refused as empty by the server; it is refused only above 2000 code units |
| `UseChat.ChatState.constructor` | client/src/hooks/useChat.ts:6-9 | the first state is empty, with no session, not loading and no error, over the existing local storage |
| `UseChat.ChatState.LoadHistory` | client/src/hooks/useChat.ts:19-34 | success replaces the list with the history in order, keeping roles and contents; failure keeps the list; loading ends false |
| `UseChat.ChatState.Mount` | client/src/hooks/useChat.ts:11-17 | a stored session id is adopted and its history loaded; without one nothing changes |
| `UseChat.ChatState.Send` | client/src/hooks/useChat.ts:36-73 | blank text changes nothing; otherwise the user bubble and exactly one answer bubble (reply, or the error text) are appended; loading ends false; a delivered id is adopted and stored when new; a failure sets `error` |
| `UseChat.ChatState.ResetSession` | client/src/hooks/useChat.ts:75-79 | the session is cleared, the list emptied and the stored id removed; `isLoading` and `error` are left as they were |

## Left out

- User interface components: rendering, DOM events, the emoji picker and scrolling are presentation over `useChat`.
- HTTP I/O in the client: `fetch` is replaced by the `SendResult` and
  `HistoryResult` oracles. Only the body that `sendMessage` posts is modelled (`UseChat.RequestBody`).
- Express setup: CORS, JSON body parsing, static files, `listen` and `GET /health`.
  The parsed body enters the model as a `Validation.Body` value.
- The rate limiter on `POST /chat/message`: it depends on wall-clock time and on the client's address.
- Provider client configuration and environment variables. The provider is an
  oracle, and the wording of the system prompt is an unspecified constant.
- Logging (`console.error`): it has no effect on state or answers.
- Query execution and durability: the store is in memory. Storage errors are the
  `failing` oracle plus primary-key violations. Whether the engine itself
  enforces the foreign key is not modelled: the handler is proved never to break it.
- Timestamp resolution: a clock reading is taken as the stored value. The
  truncation to whole seconds for `timestamp` columns is not modelled. Rows
  with equal timestamps keep their insertion order.
- Concurrent requests on one session, and React's batching of state updates:
  each request and each client transition is one sequential step. The
  `isLoading == true` state seen while a call is in flight is not observable in this model.
- Lone UTF-16 surrogates in a message: Dafny characters are Unicode scalar values, so such strings cannot be written.
- The exact wording of the schema library's type errors ("Required", "Expected string, received …")
  is the library's default, not something the source fixes.
- ChatRoute.UnknownSessionReplaced: does not state that the returned id differs from the supplied one,
  because the id oracle may return the supplied id itself when it names no conversation.
