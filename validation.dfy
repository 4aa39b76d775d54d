/**
 * The request-body schema of `POST /chat/message`: an object whose `message`
 * is a string of 1 to 2000 UTF-16 code units and whose `sessionId` is an
 * optional string. Parsing collects the issues field by field, `message`
 * first, and the endpoint reports the first one. Nothing is trimmed.
 */
module Validation {
  import opened Wrappers

  const MinMessageLength: nat := 1
  const MaxMessageLength: nat := 2000
  const EmptyMessageError := "Message cannot be empty"
  const LongMessageError := "Message too long"
  /** The schema library's wording for a missing required field. */
  const RequiredError := "Required"

  /** One field of the decoded JSON body: missing, a string, or a value of another JSON type. */
  datatype Field = Absent | Str(s: string) | NonString(received: string)

  /** The decoded JSON body: an object with the two fields the schema looks at, or some other value. */
  datatype Body = Object(message: Field, sessionId: Field) | NotObject(received: string)

  /** The parsed body the handler works with. */
  datatype ChatRequest = ChatRequest(message: string, sessionId: Option<string>)

  /** Code units of `c` in UTF-16: characters beyond the Basic Multilingual Plane take a surrogate pair. */
  function CodeUnits(c: char): nat
  {
    if c as int > 0xFFFF then 2 else 1
  }

  /** JavaScript's `length` of a string. */
  function Utf16Length(s: string): (n: nat)
    ensures |s| <= n <= 2 * |s|
  {
    if s == [] then 0 else Utf16Length(s[..|s| - 1]) + CodeUnits(s[|s| - 1])
  }

  /** On text from the Basic Multilingual Plane the code-unit length is the character count. */
  lemma {:induction false} Utf16LengthOfBmp(s: string)
    requires forall i :: 0 <= i < |s| ==> s[i] as int <= 0xFFFF
    ensures Utf16Length(s) == |s|
  {
    if s != [] {
      Utf16LengthOfBmp(s[..|s| - 1]);
    }
  }

  function TypeError(expected: string, received: string): string
  {
    "Expected " + expected + ", received " + received
  }

  function FieldTypeIssues(f: Field): seq<string>
  {
    match f
    case Absent => [RequiredError]
    case NonString(t) => [TypeError("string", t)]
    case Str(_) => []
  }

  /** `z.string().min(1, …).max(2000, …)`: both checks run, in that order. */
  function MessageIssues(f: Field): seq<string>
  {
    match f
    case Str(s) =>
      (if Utf16Length(s) < MinMessageLength then [EmptyMessageError] else [])
      + (if Utf16Length(s) > MaxMessageLength then [LongMessageError] else [])
    case _ => FieldTypeIssues(f)
  }

  /** `z.string().optional()`: a missing field is fine, a non-string is not. */
  function SessionIdIssues(f: Field): seq<string>
  {
    if f.Absent? then [] else FieldTypeIssues(f)
  }

  function Issues(b: Body): seq<string>
  {
    match b
    case NotObject(t) => [TypeError("object", t)]
    case Object(m, sid) => MessageIssues(m) + SessionIdIssues(sid)
  }

  /**
   * `chatMessageSchema.safeParse(body)` followed by taking the first issue's
   * message: the parsed request, or the text of the first issue.
   */
  function Validate(b: Body): (r: Result<ChatRequest, string>)
    ensures r.Success? <==>
      b.Object? && b.message.Str? && !b.sessionId.NonString?
      && MinMessageLength <= Utf16Length(b.message.s) <= MaxMessageLength
    ensures r.Success? ==> r.value.message == b.message.s
    ensures r.Success? ==> r.value.sessionId == if b.sessionId.Str? then Some(b.sessionId.s) else None
    ensures r.Failure? && b.Object? && MessageIssues(b.message) != [] ==> r.error == MessageIssues(b.message)[0]
  {
    var issues := Issues(b);
    if issues != [] then Failure(issues[0])
    else Success(ChatRequest(b.message.s, if b.sessionId.Str? then Some(b.sessionId.s) else None))
  }

  /** An empty message is refused with the emptiness text, whatever `sessionId` holds. */
  lemma EmptyMessageRejected(sid: Field)
    ensures Validate(Object(Str(""), sid)) == Failure(EmptyMessageError)
  {
  }

  /** A message over 2000 code units is refused with the length text, whatever `sessionId` holds. */
  lemma LongMessageRejected(s: string, sid: Field)
    requires Utf16Length(s) > MaxMessageLength
    ensures Validate(Object(Str(s), sid)) == Failure(LongMessageError)
  {
  }

  /**
   * The bound is on code units, not characters: 1001 characters outside the
   * Basic Multilingual Plane are 2002 code units and too long.
   */
  lemma {:induction false} AstralCharactersCountTwice(s: string)
    requires |s| == 1001
    requires forall i :: 0 <= i < |s| ==> s[i] as int > 0xFFFF
    ensures Validate(Object(Str(s), Absent)) == Failure(LongMessageError)
  {
    AstralLength(s);
  }

  lemma {:induction false} AstralLength(s: string)
    requires forall i :: 0 <= i < |s| ==> s[i] as int > 0xFFFF
    ensures Utf16Length(s) == 2 * |s|
  {
    if s != [] {
      AstralLength(s[..|s| - 1]);
    }
  }

  /** No trimming: a message of spaces only is accepted and passed on unchanged. */
  lemma {:induction false} BlankMessageAccepted(n: nat, sid: Option<string>)
    requires 1 <= n <= MaxMessageLength
    ensures var spaces := seq(n, _ => ' ');
      Validate(Object(Str(spaces), if sid.Some? then Str(sid.value) else Absent))
        == Success(ChatRequest(spaces, sid))
  {
    var spaces := seq(n, _ => ' ');
    Utf16LengthOfBmp(spaces);
  }

  /** A bad `message` is reported before a bad `sessionId`. */
  lemma MessageIssueComesFirst(m: Field, t: string)
    requires MessageIssues(m) != []
    ensures Validate(Object(m, NonString(t))) == Failure(MessageIssues(m)[0])
  {
  }

  /** With a good `message`, a non-string `sessionId` is what the caller hears about. */
  lemma SessionIdTypeReported(s: string, t: string)
    requires MinMessageLength <= Utf16Length(s) <= MaxMessageLength
    ensures Validate(Object(Str(s), NonString(t))) == Failure(TypeError("string", t))
  {
  }
}
