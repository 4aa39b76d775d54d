/**
 * The message query both `GET /chat/:sessionId` and the reply generator run:
 * the rows of `messages` whose conversation id matches, ordered by `createdAt`
 * ascending, optionally cut to the first `n` rows. The database does not say
 * how rows with equal timestamps are ordered; here they keep their insertion
 * order (the sort is stable).
 *
 * The functions carry no postconditions; what they compute is stated by the
 * lemmas below them.
 */
module Query {
  import opened Schema

  /** The `where conversation_id = cid` filter, in insertion order. */
  function MessagesOf(ms: seq<Message>, cid: string): seq<Message>
  {
    if ms == [] then []
    else if ms[|ms| - 1].conversationId == cid then MessagesOf(ms[..|ms| - 1], cid) + [ms[|ms| - 1]]
    else MessagesOf(ms[..|ms| - 1], cid)
  }

  ghost predicate SortedByCreatedAt(s: seq<Message>)
  {
    forall i, j :: 0 <= i < j < |s| ==> s[i].createdAt <= s[j].createdAt
  }

  /** Places `x` after every row that is not younger than it (stable insertion). */
  function InsertByCreatedAt(s: seq<Message>, x: Message): seq<Message>
  {
    if s == [] || s[|s| - 1].createdAt <= x.createdAt then s + [x]
    else InsertByCreatedAt(s[..|s| - 1], x) + [s[|s| - 1]]
  }

  /** `order by created_at` ascending. */
  function ByCreatedAt(s: seq<Message>): seq<Message>
  {
    if s == [] then [] else InsertByCreatedAt(ByCreatedAt(s[..|s| - 1]), s[|s| - 1])
  }

  /** The history of conversation `cid`: its rows, oldest first. */
  function History(ms: seq<Message>, cid: string): seq<Message>
  {
    ByCreatedAt(MessagesOf(ms, cid))
  }

  /** `.limit(n)`: the first `n` rows, or all of them when there are fewer. */
  function Limit(s: seq<Message>, n: nat): (r: seq<Message>)
    ensures |r| == if |s| <= n then |s| else n
    ensures r == s[..|r|]
  {
    if |s| <= n then s else s[..n]
  }

  /**
   * The filter keeps each row of the conversation exactly as often as it is
   * stored, and no row of another conversation.
   */
  lemma {:induction false} MessagesOfMembers(ms: seq<Message>, cid: string)
    ensures |MessagesOf(ms, cid)| <= |ms|
    ensures forall m :: m in MessagesOf(ms, cid) <==> m in ms && m.conversationId == cid
    ensures forall m :: multiset(MessagesOf(ms, cid))[m] == if m.conversationId == cid then multiset(ms)[m] else 0
  {
    if ms != [] {
      var init := ms[..|ms| - 1];
      MessagesOfMembers(init, cid);
      assert ms == init + [ms[|ms| - 1]];
    }
  }

  lemma {:induction false} InsertPermutes(s: seq<Message>, x: Message)
    ensures multiset(InsertByCreatedAt(s, x)) == multiset(s) + multiset{x}
    ensures |InsertByCreatedAt(s, x)| == |s| + 1
  {
    if s == [] || s[|s| - 1].createdAt <= x.createdAt {
    } else {
      assert s == s[..|s| - 1] + [s[|s| - 1]];
      InsertPermutes(s[..|s| - 1], x);
    }
  }

  /** Every message of `s` is created no later than `t`. */
  ghost predicate NotAfter(s: seq<Message>, t: Timestamp)
  {
    forall i :: 0 <= i < |s| ==> s[i].createdAt <= t
  }

  lemma {:induction false} InsertNotAfter(s: seq<Message>, x: Message, t: Timestamp)
    requires NotAfter(s, t) && x.createdAt <= t
    ensures NotAfter(InsertByCreatedAt(s, x), t)
  {
    if s == [] || s[|s| - 1].createdAt <= x.createdAt {
    } else {
      InsertNotAfter(s[..|s| - 1], x, t);
    }
  }

  lemma {:induction false} InsertKeepsSorted(s: seq<Message>, x: Message)
    requires SortedByCreatedAt(s)
    ensures SortedByCreatedAt(InsertByCreatedAt(s, x))
  {
    if s == [] || s[|s| - 1].createdAt <= x.createdAt {
    } else {
      var init, last := s[..|s| - 1], s[|s| - 1];
      InsertKeepsSorted(init, x);
      InsertNotAfter(init, x, last.createdAt);
    }
  }

  /** The ordering is ascending by creation time and a permutation of its input. */
  lemma {:induction false} ByCreatedAtSortsAndPermutes(s: seq<Message>)
    ensures SortedByCreatedAt(ByCreatedAt(s))
    ensures multiset(ByCreatedAt(s)) == multiset(s)
    ensures |ByCreatedAt(s)| == |s|
  {
    if s != [] {
      var init, last := s[..|s| - 1], s[|s| - 1];
      assert s == init + [last];
      ByCreatedAtSortsAndPermutes(init);
      InsertKeepsSorted(ByCreatedAt(init), last);
      InsertPermutes(ByCreatedAt(init), last);
    }
  }

  /**
   * History is exactly the conversation's rows: ordered by creation time, each
   * row of the conversation present as often as it is stored, and no row of
   * another conversation.
   */
  lemma HistoryIsConversationInOrder(ms: seq<Message>, cid: string)
    ensures SortedByCreatedAt(History(ms, cid))
    ensures multiset(History(ms, cid)) == multiset(MessagesOf(ms, cid))
    ensures forall m :: multiset(History(ms, cid))[m] == if m.conversationId == cid then multiset(ms)[m] else 0
    ensures |History(ms, cid)| == |MessagesOf(ms, cid)|
    ensures forall m :: m in History(ms, cid) <==> m in ms && m.conversationId == cid
  {
    var h, f := History(ms, cid), MessagesOf(ms, cid);
    ByCreatedAtSortsAndPermutes(f);
    MessagesOfMembers(ms, cid);
    forall m ensures m in h <==> m in f {
      assert m in h <==> m in multiset(h);
      assert m in f <==> m in multiset(f);
    }
  }

  /** A conversation without rows (an unknown id, say) has an empty history, not an error. */
  lemma HistoryOfUnknownIsEmpty(ms: seq<Message>, cid: string)
    requires forall m :: m in ms ==> m.conversationId != cid
    ensures History(ms, cid) == []
  {
    MessagesOfMembers(ms, cid);
    var f := MessagesOf(ms, cid);
    assert forall i :: 0 <= i < |f| ==> f[i] in f;
  }

  /** Appending a row of another conversation leaves this conversation's history alone. */
  lemma HistoryAppendOther(ms: seq<Message>, m: Message, cid: string)
    requires m.conversationId != cid
    ensures MessagesOf(ms + [m], cid) == MessagesOf(ms, cid)
    ensures History(ms + [m], cid) == History(ms, cid)
  {
    assert (ms + [m])[..|ms + [m]| - 1] == ms;
  }

  /**
   * Appending a row that is not older than any row of its conversation puts it
   * at the end of that conversation's history.
   */
  lemma HistoryAppendLatest(ms: seq<Message>, m: Message)
    requires forall x :: x in ms && x.conversationId == m.conversationId ==> x.createdAt <= m.createdAt
    ensures MessagesOf(ms + [m], m.conversationId) == MessagesOf(ms, m.conversationId) + [m]
    ensures History(ms + [m], m.conversationId) == History(ms, m.conversationId) + [m]
  {
    var cid := m.conversationId;
    assert (ms + [m])[..|ms + [m]| - 1] == ms;
    var f := MessagesOf(ms, cid);
    assert (f + [m])[..|f + [m]| - 1] == f;
    var h := ByCreatedAt(f);
    if h != [] {
      HistoryIsConversationInOrder(ms, cid);
      assert h[|h| - 1] in h;
    }
  }

  /**
   * Two rows of one conversation, appended in clock order after rows no
   * younger than the first, end that conversation's history in that order.
   */
  lemma {:induction false} ExchangeEndsHistory(ms: seq<Message>, u: Message, a: Message)
    requires u.conversationId == a.conversationId
    requires forall x :: x in ms ==> x.createdAt <= u.createdAt
    requires u.createdAt <= a.createdAt
    ensures History(ms + [u] + [a], u.conversationId) == History(ms, u.conversationId) + [u] + [a]
    ensures var h := History(ms + [u] + [a], u.conversationId);
      |h| >= 2 && h[|h| - 2] == u && h[|h| - 1] == a
  {
    var cid, ms1 := u.conversationId, ms + [u];
    HistoryAppendLatest(ms, u);
    forall x | x in ms1 && x.conversationId == cid ensures x.createdAt <= a.createdAt {
      if x != u {
        assert x in ms;
      }
    }
    HistoryAppendLatest(ms1, a);
    var h, older := History(ms + [u] + [a], cid), History(ms, cid);
    assert h == older + [u] + [a];
  }

  /**
   * The first two rows of a conversation, in clock order, are its whole
   * history.
   */
  lemma FirstExchangeHistory(ms: seq<Message>, u: Message, a: Message)
    requires forall x :: x in ms ==> x.conversationId != u.conversationId
    requires u.conversationId == a.conversationId
    requires u.createdAt <= a.createdAt
    ensures History(ms + [u] + [a], u.conversationId) == [u, a]
  {
    var cid := u.conversationId;
    HistoryOfUnknownIsEmpty(ms, cid);
    HistoryAppendLatest(ms, u);
    forall x | x in ms + [u] && x.conversationId == cid ensures x.createdAt <= a.createdAt {
      assert x !in ms;
    }
    HistoryAppendLatest(ms + [u], a);
  }
}
