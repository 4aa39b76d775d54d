/**
 * The client's chat state (`useChat`): the message list shown to the user,
 * the session id, the loading flag and the last error, plus the session id
 * kept in the browser's local storage. Each transition runs to completion in
 * one step; the outcome of each HTTP call is an oracle.
 */
module UseChat {
  import opened Wrappers
  import opened Schema
  import opened Validation

  const ErrorBubblePrefix := "\U{26A0}\U{FE0F} Error: "
  const SendFailedText := "Failed to send message."
  const GenericErrorText := "Something went wrong."

  /** A message as the client holds it; a locally built one has a client-side id and time. */
  datatype ChatMessage = ChatMessage(id: Option<string>, role: Role, content: string, createdAt: Option<string>)

  /** A row of the history the server returns (`createdAt` arrives as an ISO string). */
  datatype HistoryRow = HistoryRow(id: string, conversationId: string, role: Role, content: string, createdAt: string)

  /** How `sendMessage` ends: the `{reply, sessionId}` answer, or an error with an optional message. */
  datatype SendResult = Delivered(reply: string, sessionId: string) | Thrown(message: Option<string>)

  /** How `getHistory` ends. */
  datatype HistoryResult = Loaded(history: seq<HistoryRow>) | LoadFailed

  /** The request body `send` posts: `JSON.stringify` leaves out an undefined `sessionId`. */
  datatype Outgoing = Outgoing(message: string, sessionId: Option<string>)

  /** The characters `String.prototype.trim` removes: white space and line terminators. */
  predicate IsTrimmable(c: char)
  {
    var n := c as int;
    (0x09 <= n <= 0x0D) || n == 0x20 || n == 0xA0 || n == 0x1680 || (0x2000 <= n <= 0x200A)
    || n == 0x2028 || n == 0x2029 || n == 0x202F || n == 0x205F || n == 0x3000 || n == 0xFEFF
  }

  ghost predicate Blank(s: string)
  {
    forall i :: 0 <= i < |s| ==> IsTrimmable(s[i])
  }

  function TrimStart(s: string): string
  {
    if s != [] && IsTrimmable(s[0]) then TrimStart(s[1..]) else s
  }

  function TrimEnd(s: string): string
  {
    if s != [] && IsTrimmable(s[|s| - 1]) then TrimEnd(s[..|s| - 1]) else s
  }

  /** `text.trim()`. */
  function Trim(s: string): string
  {
    TrimEnd(TrimStart(s))
  }

  lemma {:induction false} TrimStartResult(s: string)
    ensures TrimStart(s) == [] <==> Blank(s)
    ensures TrimStart(s) != [] ==> !IsTrimmable(TrimStart(s)[0])
  {
    if s != [] && IsTrimmable(s[0]) {
      TrimStartResult(s[1..]);
      assert forall i :: 0 < i < |s| ==> s[i] == s[1..][i - 1];
    }
  }

  lemma {:induction false} TrimEndKeepsFirst(s: string)
    requires s != [] && !IsTrimmable(s[0])
    ensures TrimEnd(s) != []
  {
    if IsTrimmable(s[|s| - 1]) {
      TrimEndKeepsFirst(s[..|s| - 1]);
    }
  }

  /** `!text.trim()` holds exactly when the text is empty or made only of white space. */
  lemma TrimEmptyIffBlank(s: string)
    ensures Trim(s) == [] <==> Blank(s)
  {
    TrimStartResult(s);
    if TrimStart(s) != [] {
      TrimEndKeepsFirst(TrimStart(s));
    }
  }

  function FromHistory(rows: seq<HistoryRow>): seq<ChatMessage>
  {
    seq(|rows|, i requires 0 <= i < |rows| =>
      ChatMessage(Some(rows[i].id), rows[i].role, rows[i].content, Some(rows[i].createdAt)))
  }

  /** The bubble `send` appends for its outcome. */
  function AnswerBubble(result: SendResult, replyId: string, at: string): ChatMessage
  {
    match result
    case Delivered(reply, _) => ChatMessage(Some(replyId), Assistant, reply, Some(at))
    case Thrown(m) => ChatMessage(Some(replyId), Assistant, ErrorBubblePrefix + OrElse(m, SendFailedText), Some(at))
  }

  /** The body `sendMessage` posts, as the server's schema sees it. */
  function RequestBody(out: Outgoing): Body
  {
    Object(Str(out.message), if out.sessionId.Some? then Str(out.sessionId.value) else Absent)
  }

  /**
   * A text that passes the client's guard is never refused as empty by the
   * server; it is refused only when it is longer than 2000 code units.
   */
  lemma GuardedTextNeverEmpty(text: string, sid: Option<string>)
    requires Trim(text) != []
    ensures Validate(RequestBody(Outgoing(text, sid))).Failure?
      <==> Utf16Length(text) > MaxMessageLength
    ensures Validate(RequestBody(Outgoing(text, sid))) != Failure(EmptyMessageError)
  {
    TrimEmptyIffBlank(text);
    assert text != [];
  }

  class ChatState {
    var messages: seq<ChatMessage>
    var sessionId: Option<string>
    var isLoading: bool
    var error: Option<string>
    /** `localStorage['spur_chat_session_id']`; it outlives the component. */
    var storedSessionId: Option<string>

    /** The first render: empty state over whatever local storage already holds. */
    constructor (stored: Option<string>)
      ensures messages == [] && sessionId == None && !isLoading && error == None
      ensures storedSessionId == stored
    {
      messages, sessionId, isLoading, error := [], None, false, None;
      storedSessionId := stored;
    }

    /**
     * `loadHistory(id)`: `result` is the outcome of `getHistory(id)`, the only
     * use of `id`. Replaces the list on success, keeps it on failure, ends not loading.
     */
    method LoadHistory(id: string, result: HistoryResult)
      modifies this
      ensures result.Loaded? ==> messages == FromHistory(result.history)
      ensures result.LoadFailed? ==> messages == old(messages)
      ensures result.Loaded? ==> (|messages| == |result.history|
        && forall i :: 0 <= i < |messages| ==>
             messages[i].role == result.history[i].role && messages[i].content == result.history[i].content)
      ensures !isLoading
      ensures sessionId == old(sessionId) && error == old(error) && storedSessionId == old(storedSessionId)
    {
      isLoading := true;
      if result.Loaded? {
        messages := FromHistory(result.history);
      }
      isLoading := false;
    }

    /** The mount effect: resume the stored session, if any, and load its history. */
    method Mount(result: HistoryResult)
      modifies this
      ensures Truthy(old(storedSessionId)) ==> sessionId == old(storedSessionId)
      ensures !Truthy(old(storedSessionId)) ==> sessionId == old(sessionId) && messages == old(messages)
      ensures Truthy(old(storedSessionId)) && result.Loaded? ==> messages == FromHistory(result.history)
      ensures Truthy(old(storedSessionId)) && result.LoadFailed? ==> messages == old(messages)
      ensures isLoading == (old(isLoading) && !Truthy(old(storedSessionId)))
      ensures error == old(error) && storedSessionId == old(storedSessionId)
    {
      var saved := storedSessionId;
      if Truthy(saved) {
        sessionId := saved;
        LoadHistory(saved.value, result);
      }
    }

    /**
     * `send(text)`. A blank text changes nothing and posts nothing. Otherwise
     * the user bubble is appended at once, the text is posted with the current
     * session id, and one more bubble follows: the reply, or an error bubble.
     * A delivered answer's session id is adopted (and stored when it is new).
     */
    method Send(text: string, tempId: string, sentAt: string, result: SendResult, replyId: string, answeredAt: string)
      returns (posted: Option<Outgoing>)
      modifies this
      ensures Blank(text) ==> (posted == None
        && messages == old(messages) && sessionId == old(sessionId) && isLoading == old(isLoading)
        && error == old(error) && storedSessionId == old(storedSessionId))
      ensures !Blank(text) ==> (posted == Some(Outgoing(text, old(sessionId)))
        && messages == old(messages) + [ChatMessage(Some(tempId), User, text, Some(sentAt)),
                                        AnswerBubble(result, replyId, answeredAt)]
        && !isLoading)
      ensures !Blank(text) && result.Delivered? ==> (
        sessionId == Some(result.sessionId) && error == None
        && storedSessionId == (if !Truthy(old(sessionId)) || old(sessionId).value != result.sessionId
                               then Some(result.sessionId) else old(storedSessionId)))
      ensures !Blank(text) && result.Thrown? ==> (
        sessionId == old(sessionId) && storedSessionId == old(storedSessionId)
        && error == Some(OrElse(result.message, GenericErrorText)))
    {
      TrimEmptyIffBlank(text);
      if Trim(text) == [] {
        return None;
      }
      messages := messages + [ChatMessage(Some(tempId), User, text, Some(sentAt))];
      isLoading := true;
      error := None;
      posted := Some(Outgoing(text, sessionId));
      match result {
        case Delivered(reply, newId) =>
          if !Truthy(sessionId) || sessionId.value != newId {
            sessionId := Some(newId);
            storedSessionId := Some(newId);
          }
          messages := messages + [ChatMessage(Some(replyId), Assistant, reply, Some(answeredAt))];
        case Thrown(m) =>
          error := Some(OrElse(m, GenericErrorText));
          messages := messages + [ChatMessage(Some(replyId), Assistant, ErrorBubblePrefix + OrElse(m, SendFailedText), Some(answeredAt))];
      }
      isLoading := false;
    }

    /** `resetSession()`: forget the session and its messages, in memory and in storage. */
    method ResetSession()
      modifies this
      ensures sessionId == None && messages == [] && storedSessionId == None
      ensures isLoading == old(isLoading) && error == old(error)
    {
      sessionId := None;
      messages := [];
      storedSessionId := None;
    }
  }
}
