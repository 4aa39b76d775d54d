/**
 * The reply generator. It reads the conversation's first ten messages (oldest
 * first), builds the provider request `[system] ++ history ++ [user]`, calls
 * the completion provider and turns its answer into one reply string. A
 * provider failure and an empty answer each become a fixed text; a failure of
 * the history read is raised to the caller.
 */
module Llm {
  import opened Wrappers
  import opened Schema
  import opened Query
  import opened Db

  /** How many stored messages go into the context. */
  const HistoryLimit: nat := 10

  /** The fixed persona and policy instruction; its wording does not matter to this model. */
  const SystemPrompt: string

  const EmptyReplyFallback := "I apologize, I couldn't generate a response."
  const ProviderErrorFallback :=
    "I'm having trouble connecting to my brain right now. Please try again later. (Check server logs for API Key issues)"

  /** The roles of the provider's chat format. */
  datatype Speaker = SystemSpeaker | UserSpeaker | AssistantSpeaker

  datatype ChatEntry = ChatEntry(role: Speaker, content: string)

  /** A completion as the provider returns it; every level may be missing. */
  datatype AssistantMessage = AssistantMessage(content: Option<string>)
  datatype Choice = Choice(message: Option<AssistantMessage>)

  /**
   * What the provider call does: it raises, or returns a response whose
   * `choices` list may itself be missing.
   */
  datatype ProviderOutcome = Raised | Returned(choices: Option<seq<Choice>>)

  /** The provider, as seen from here: the outcome of a call with a given context. */
  type Provider = seq<ChatEntry> -> ProviderOutcome

  /** The conversation's messages that go into the context: ascending order, then the limit. */
  function Window(ms: seq<Message>, cid: string): seq<Message>
  {
    Limit(History(ms, cid), HistoryLimit)
  }

  function SpeakerOf(r: Role): Speaker
  {
    match r
    case User => UserSpeaker
    case Assistant => AssistantSpeaker
  }

  /** `history.map(msg => ({ role, content }))`. */
  function Formatted(h: seq<Message>): seq<ChatEntry>
  {
    seq(|h|, i requires 0 <= i < |h| => ChatEntry(SpeakerOf(h[i].role), h[i].content))
  }

  /** The provider request: the instruction, the history, the new user message. */
  function Context(h: seq<Message>, userMessage: string): seq<ChatEntry>
  {
    [ChatEntry(SystemSpeaker, SystemPrompt)] + Formatted(h) + [ChatEntry(UserSpeaker, userMessage)]
  }

  /**
   * `String(response.choices[0]?.message?.content || EmptyReplyFallback)`
   * inside the try block. A missing `choices` list makes the indexing raise,
   * which the catch turns into the provider-error text like any other failure.
   */
  function ReplyFor(o: ProviderOutcome): (r: string)
    ensures r != ""
  {
    match o
    case Raised => ProviderErrorFallback
    case Returned(None) => ProviderErrorFallback
    case Returned(Some(choices)) =>
      if choices == [] || choices[0].message.None? then EmptyReplyFallback
      else OrElse(choices[0].message.value.content, EmptyReplyFallback)
  }

  /** `generateReply(cid, userMessage)`: the history read may raise; the provider call may not. */
  function ReplyOutcome(db: DbState, cid: string, userMessage: string, readFails: bool, provider: Provider)
    : (r: Result<string, DbError>)
    ensures r.Failure? <==> readFails
    ensures r.Success? ==> r.value == ReplyFor(provider(Context(Window(db.messages, cid), userMessage)))
  {
    match Select(db, cid, Some(HistoryLimit), readFails)
    case Failure(e) => Failure(e)
    case Success(h) => Success(ReplyFor(provider(Context(h, userMessage))))
  }

  method GenerateReply(store: Store, cid: string, userMessage: string, readFails: bool, provider: Provider)
    returns (r: Result<string, DbError>)
    ensures r == ReplyOutcome(store.State(), cid, userMessage, readFails, provider)
    ensures r.Failure? <==> readFails
  {
    var history := store.SelectMessages(cid, Some(HistoryLimit), readFails);
    if history.Failure? {
      return Failure(history.error);
    }
    var formatted := Formatted(history.value);
    var outcome := provider([ChatEntry(SystemSpeaker, SystemPrompt)] + formatted + [ChatEntry(UserSpeaker, userMessage)]);
    r := Success(ReplyFor(outcome));
  }

  /** A provider that raises, or answers without a `choices` list, yields the connection text. */
  lemma ProviderFailureFallsBack(o: ProviderOutcome)
    requires o.Raised? || o.choices.None?
    ensures ReplyFor(o) == ProviderErrorFallback
  {
  }

  /** No first choice, no message in it, or empty content all yield the apology text. */
  lemma EmptyAnswerFallsBack(choices: seq<Choice>)
    requires choices == [] || choices[0].message.None? || !Truthy(choices[0].message.value.content)
    ensures ReplyFor(Returned(Some(choices))) == EmptyReplyFallback
  {
  }

  /** Non-empty content of the first choice is the reply, unchanged. */
  lemma ContentIsReply(choices: seq<Choice>, text: string)
    requires choices != [] && choices[0].message == Some(AssistantMessage(Some(text)))
    requires text != ""
    ensures ReplyFor(Returned(Some(choices))) == text
  {
  }

  /**
   * The window is the OLDEST part of the conversation: its first
   * min(10, n) messages in ascending order, none younger than any message
   * left out.
   */
  lemma WindowIsOldest(ms: seq<Message>, cid: string)
    ensures var h, w := History(ms, cid), Window(ms, cid);
      |w| == Min(HistoryLimit, |MessagesOf(ms, cid)|)
      && w == h[..|w|]
      && (forall i, j :: 0 <= i < |w| <= j < |h| ==> w[i].createdAt <= h[j].createdAt)
  {
    HistoryIsConversationInOrder(ms, cid);
  }

  /** The context entries: the instruction first, the new message last, the history in between. */
  lemma ContextShape(h: seq<Message>, userMessage: string)
    ensures var c := Context(h, userMessage);
      |c| == |h| + 2
      && c[0] == ChatEntry(SystemSpeaker, SystemPrompt)
      && c[|c| - 1] == ChatEntry(UserSpeaker, userMessage)
      && forall i :: 0 <= i < |h| ==> c[i + 1] == ChatEntry(SpeakerOf(h[i].role), h[i].content)
  {
  }

  /** The context sent for a conversation has 2 + min(10, n) entries, so never more than 12. */
  lemma ContextBound(ms: seq<Message>, cid: string, userMessage: string)
    ensures |Context(Window(ms, cid), userMessage)| == 2 + Min(HistoryLimit, |MessagesOf(ms, cid)|)
    ensures |Context(Window(ms, cid), userMessage)| <= 12
  {
    WindowIsOldest(ms, cid);
  }

  /**
   * The endpoint stores the user message before generating the reply. When the
   * conversation has fewer than ten messages and the new one is the latest,
   * the message is the last history entry AND the final entry: it is sent twice.
   */
  lemma {:induction false} StoredMessageSentTwice(ms: seq<Message>, m: Message)
    requires m.role == User
    requires |MessagesOf(ms, m.conversationId)| < HistoryLimit
    requires forall x :: x in ms && x.conversationId == m.conversationId ==> x.createdAt <= m.createdAt
    ensures var c := Context(Window(ms + [m], m.conversationId), m.content);
      |c| >= 3
      && c[|c| - 2] == ChatEntry(UserSpeaker, m.content)
      && c[|c| - 1] == ChatEntry(UserSpeaker, m.content)
  {
    var cid := m.conversationId;
    HistoryAppendLatest(ms, m);
    HistoryIsConversationInOrder(ms, cid);
    var h := History(ms + [m], cid);
    assert h == History(ms, cid) + [m];
    assert |h| <= HistoryLimit;
    assert Window(ms + [m], cid) == h;
    var f := Formatted(h);
    assert f[|h| - 1] == ChatEntry(UserSpeaker, m.content);
    ContextShape(h, m.content);
  }

  /** In a conversation with no earlier messages the context is `[system, user M, user M]`. */
  lemma {:induction false} NewConversationContext(ms: seq<Message>, m: Message)
    requires m.role == User
    requires forall x :: x in ms ==> x.conversationId != m.conversationId
    ensures Context(Window(ms + [m], m.conversationId), m.content)
      == [ChatEntry(SystemSpeaker, SystemPrompt), ChatEntry(UserSpeaker, m.content), ChatEntry(UserSpeaker, m.content)]
  {
    var cid := m.conversationId;
    HistoryOfUnknownIsEmpty(ms, cid);
    HistoryAppendLatest(ms, m);
    assert History(ms + [m], cid) == [m];
    assert Window(ms + [m], cid) == [m];
    assert Formatted([m]) == [ChatEntry(UserSpeaker, m.content)];
  }

  /**
   * Once a conversation holds ten messages, a later message does not change the
   * window: every further reply is generated from the same first ten messages.
   */
  lemma {:induction false} WindowFrozenAtLimit(ms: seq<Message>, m: Message)
    requires |MessagesOf(ms, m.conversationId)| >= HistoryLimit
    requires forall x :: x in ms && x.conversationId == m.conversationId ==> x.createdAt <= m.createdAt
    ensures Window(ms + [m], m.conversationId) == Window(ms, m.conversationId)
  {
    HistoryAppendLatest(ms, m);
    HistoryIsConversationInOrder(ms, m.conversationId);
    var h := History(ms, m.conversationId);
    assert (h + [m])[..HistoryLimit] == h[..HistoryLimit];
  }
}
