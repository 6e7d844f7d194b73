/**
 * The chat history of a session: saving user and assistant messages and
 * reading back the latest ones in chronological order. Timestamps come from
 * the store's logical clock, so two messages never share one.
 */
module MessageService {
  import opened Wrappers
  import opened Json
  import opened Store

  const UserRole := "user"
  const AssistantRole := "assistant"
  /** The default `message_type` of both save functions. */
  const ChatType := "chat"
  /** The default `limit` of `get_recent_messages`. */
  const DefaultRecentLimit := 20

  /** The tables with one more message, stamped with the next id and the current time. */
  function Saved(t: Tables, sessionId: string, userId: int, role: string, content: string, messageType: string,
                 relatedDocumentId: Option<int>, agentIntent: Json, agentRouting: Json, tokensUsed: int): (Tables, MessageRow)
  {
    var m := MessageRow(t.nextMessageId, sessionId, userId, role, content, messageType, relatedDocumentId,
                        agentIntent, agentRouting, tokensUsed, t.clock);
    (t.(messages := t.messages + [m], nextMessageId := t.nextMessageId + 1, clock := t.clock + 1), m)
  }

  /**
   * The flush of a new message for the values a caller passes as its
   * `content`, `message_type` and `related_document_id`: every parameter
   * must be bindable, and `content` and `message_type`, both `Mapped[str]`,
   * must not be None. The result is the text the two columns store.
   */
  function MessageColumns(content: Json, messageType: Json, relatedDocumentId: Json): Result<(string, string)> {
    if !(Bindable(content) && Bindable(messageType) && Bindable(relatedDocumentId)) then Err(BindingError)
    else if content.JNull? then Err(NotNullError("messages.content"))
    else if messageType.JNull? then Err(NotNullError("messages.message_type"))
    else Ok((PyStr(content), PyStr(messageType)))
  }

  /**
   * A message is refused exactly when one of its values is a list or a
   * dict or its content or type is None; None content is reported as the
   * NOT NULL failure of `messages.content`, and strings are stored as given.
   */
  lemma MessageColumnsFacts(content: Json, messageType: Json, relatedDocumentId: Json)
    ensures MessageColumns(content, messageType, relatedDocumentId).Err? <==>
      !(Bindable(content) && Bindable(messageType) && Bindable(relatedDocumentId)) || content.JNull? || messageType.JNull?
    ensures content.JNull? && Bindable(messageType) && Bindable(relatedDocumentId) ==>
      MessageColumns(content, messageType, relatedDocumentId) == Err(NotNullError("messages.content"))
    ensures content.JStr? && messageType.JStr? && Bindable(relatedDocumentId) ==>
      MessageColumns(content, messageType, relatedDocumentId) == Ok((content.s, messageType.s))
  {
  }

  /** `save_user_message`: role "user", no intent or routing, no tokens. */
  method SaveUserMessage(db: Db, sessionId: string, userId: int, content: string, messageType: string, relatedDocumentId: Option<int>)
    returns (m: MessageRow)
    modifies db
    ensures (db.Snapshot(), m) == Saved(old(db.Snapshot()), sessionId, userId, UserRole, content, messageType, relatedDocumentId, JNull, JNull, 0)
  {
    m := MessageRow(db.nextMessageId, sessionId, userId, UserRole, content, messageType, relatedDocumentId, JNull, JNull, 0, db.clock);
    db.messages := db.messages + [m];
    db.nextMessageId := db.nextMessageId + 1;
    db.clock := db.clock + 1;
  }

  /** `save_assistant_message`: role "assistant"; `tokens_used` defaults to 0 at the call sites. */
  method SaveAssistantMessage(db: Db, sessionId: string, userId: int, content: string, messageType: string,
                              relatedDocumentId: Option<int>, agentIntent: Json, agentRouting: Json, tokensUsed: int)
    returns (m: MessageRow)
    modifies db
    ensures (db.Snapshot(), m) == Saved(old(db.Snapshot()), sessionId, userId, AssistantRole, content, messageType, relatedDocumentId,
                                        agentIntent, agentRouting, tokensUsed)
  {
    m := MessageRow(db.nextMessageId, sessionId, userId, AssistantRole, content, messageType, relatedDocumentId,
                    agentIntent, agentRouting, tokensUsed, db.clock);
    db.messages := db.messages + [m];
    db.nextMessageId := db.nextMessageId + 1;
    db.clock := db.clock + 1;
  }

  /**
   * Saving keeps the message invariant (ids and timestamps grow), stores
   * every field as given, and is the newest message afterwards; nothing
   * else changes.
   */
  lemma SavedOk(t: Tables, sessionId: string, userId: int, role: string, content: string, messageType: string,
                relatedDocumentId: Option<int>, agentIntent: Json, agentRouting: Json, tokensUsed: int)
    requires TablesOk(t)
    ensures var (t', m) := Saved(t, sessionId, userId, role, content, messageType, relatedDocumentId, agentIntent, agentRouting, tokensUsed);
      && TablesOk(t')
      && t'.messages == t.messages + [m]
      && m.role == role && m.content == content && m.messageType == messageType && m.sessionId == sessionId
      && m.relatedDocumentId == relatedDocumentId && m.agentIntent == agentIntent && m.tokensUsed == tokensUsed
      && (forall i | 0 <= i < |t.messages| :: t.messages[i].id < m.id && t.messages[i].timestamp < m.timestamp)
      && t' == t.(messages := t'.messages, nextMessageId := t'.nextMessageId, clock := t'.clock)
  {
    var (t', m) := Saved(t, sessionId, userId, role, content, messageType, relatedDocumentId, agentIntent, agentRouting, tokensUsed);
    assert DocumentsOk(t'.documents, t'.nextDocumentId, t'.clock);
    assert MessageTableOk(t'.messages, t'.nextMessageId, t'.clock) by {
      forall i, j | 0 <= i < j < |t'.messages|
        ensures t'.messages[i].id < t'.messages[j].id && t'.messages[i].timestamp < t'.messages[j].timestamp
      {
        if j == |t.messages| {
          assert t'.messages[i] == t.messages[i];
        } else {
          assert t'.messages[i] == t.messages[i] && t'.messages[j] == t.messages[j];
        }
      }
    }
  }

  // ---------------------------------------------------------------------
  // get_recent_messages
  // ---------------------------------------------------------------------

  /** The session's messages in insertion order. */
  function SessionMessages(ms: seq<MessageRow>, sessionId: string): seq<MessageRow> {
    if ms == [] then []
    else (if ms[0].sessionId == sessionId then [ms[0]] else []) + SessionMessages(ms[1..], sessionId)
  }

  function Reversed<T>(s: seq<T>): seq<T> {
    if s == [] then [] else Reversed(s[1..]) + [s[0]]
  }

  /**
   * The result of `get_recent_messages`: the last `limit` of the session's
   * messages, oldest first. SQLite reads a negative LIMIT as no limit.
   */
  function Recent(ms: seq<MessageRow>, sessionId: string, limit: int): seq<MessageRow> {
    var all := SessionMessages(ms, sessionId);
    if limit < 0 || limit >= |all| then all else all[|all| - limit..]
  }

  /** Python's `list.reverse()` on the fetched rows. */
  method ReverseInPlace<T>(a: array<T>)
    modifies a
    ensures forall k | 0 <= k < a.Length :: a[k] == old(a[a.Length - 1 - k])
  {
    var i := 0;
    while i < a.Length / 2
      invariant 0 <= i <= a.Length / 2
      invariant forall k | 0 <= k < i :: a[k] == old(a[a.Length - 1 - k]) && a[a.Length - 1 - k] == old(a[k])
      invariant forall k | i <= k < a.Length - i :: a[k] == old(a[k])
    {
      a[i], a[a.Length - 1 - i] := a[a.Length - 1 - i], a[i];
      i := i + 1;
    }
  }

  lemma {:induction false} ReversedIndex<T>(s: seq<T>)
    ensures |Reversed(s)| == |s|
    ensures forall k | 0 <= k < |s| :: Reversed(s)[k] == s[|s| - 1 - k]
  {
    if s != [] {
      ReversedIndex(s[1..]);
    }
  }

  lemma {:induction false} SessionMessagesAppend(a: seq<MessageRow>, b: seq<MessageRow>, sessionId: string)
    ensures SessionMessages(a + b, sessionId) == SessionMessages(a, sessionId) + SessionMessages(b, sessionId)
  {
    if a == [] {
      assert a + b == b;
    } else {
      assert (a + b)[0] == a[0];
      assert (a + b)[1..] == a[1..] + b;
      SessionMessagesAppend(a[1..], b, sessionId);
      var h := if a[0].sessionId == sessionId then [a[0]] else [];
      assert SessionMessages(a + b, sessionId) == h + SessionMessages(a[1..] + b, sessionId);
      assert SessionMessages(a, sessionId) == h + SessionMessages(a[1..], sessionId);
      assert h + (SessionMessages(a[1..], sessionId) + SessionMessages(b, sessionId))
        == (h + SessionMessages(a[1..], sessionId)) + SessionMessages(b, sessionId);
    }
  }

  /**
   * `get_recent_messages`: the query walks the messages newest first and
   * stops after `limit` rows of the session; the rows are then reversed.
   */
  method GetRecentMessages(db: Db, sessionId: string, limit: int) returns (r: seq<MessageRow>)
    ensures r == Recent(db.messages, sessionId, limit)
  {
    var ms := db.messages;
    var desc: seq<MessageRow> := [];
    var i := |ms|;
    while i > 0 && (limit < 0 || |desc| < limit)
      invariant 0 <= i <= |ms|
      invariant desc == Reversed(SessionMessages(ms[i..], sessionId))
      invariant limit >= 0 ==> |desc| <= limit
    {
      i := i - 1;
      assert ms[i..][1..] == ms[i + 1..];
      if ms[i].sessionId == sessionId {
        var rest := SessionMessages(ms[i + 1..], sessionId);
        assert SessionMessages(ms[i..], sessionId) == [ms[i]] + rest;
        assert ([ms[i]] + rest)[1..] == rest;
        assert Reversed([ms[i]] + rest) == Reversed(rest) + [ms[i]];
        assert desc == Reversed(rest);
        desc := desc + [ms[i]];
      } else {
        assert SessionMessages(ms[i..], sessionId) == [] + SessionMessages(ms[i + 1..], sessionId);
        assert [] + SessionMessages(ms[i + 1..], sessionId) == SessionMessages(ms[i + 1..], sessionId);
      }
      assert desc == Reversed(SessionMessages(ms[i..], sessionId));
    }
    ghost var tail := SessionMessages(ms[i..], sessionId);
    ReversedIndex(tail);
    var a := new MessageRow[|desc|](k requires 0 <= k < |desc| => desc[k]);
    ReverseInPlace(a);
    r := a[..];
    assert r == tail;
    StoppedScanIsRecent(ms, sessionId, limit, i, tail);
  }

  /** Where the newest-first scan stops, the rows it kept are the session's latest ones. */
  lemma StoppedScanIsRecent(ms: seq<MessageRow>, sessionId: string, limit: int, i: int, tail: seq<MessageRow>)
    requires 0 <= i <= |ms| && tail == SessionMessages(ms[i..], sessionId)
    requires !(i > 0 && (limit < 0 || |tail| < limit))
    requires limit >= 0 ==> |tail| <= limit
    ensures tail == Recent(ms, sessionId, limit)
  {
    SessionMessagesAppend(ms[..i], ms[i..], sessionId);
    assert ms[..i] + ms[i..] == ms;
    if i == 0 {
      assert ms[i..] == ms;
    }
  }

  /**
   * The result holds only the session's messages, at most `limit` of them
   * (all for a negative limit), and they are its latest ones: exactly the
   * tail of its history. Over a valid store they come oldest first.
   */
  lemma RecentIsLatestTail(t: Tables, sessionId: string, limit: int)
    requires MessageTableOk(t.messages, t.nextMessageId, t.clock)
    ensures var r := Recent(t.messages, sessionId, limit);
      var all := SessionMessages(t.messages, sessionId);
      && (limit >= 0 ==> |r| == if limit < |all| then limit else |all|)
      && (limit < 0 ==> r == all)
      && r == all[|all| - |r|..]
      && (forall i | 0 <= i < |r| :: r[i].sessionId == sessionId)
      && (forall i, j | 0 <= i < j < |r| :: r[i].timestamp < r[j].timestamp)
  {
    SessionMessagesOrdered(t.messages, sessionId);
  }

  lemma {:induction false} SessionMessagesOrdered(ms: seq<MessageRow>, sessionId: string)
    requires forall i, j | 0 <= i < j < |ms| :: ms[i].timestamp < ms[j].timestamp
    ensures forall i | 0 <= i < |SessionMessages(ms, sessionId)| ::
      SessionMessages(ms, sessionId)[i].sessionId == sessionId && SessionMessages(ms, sessionId)[i] in ms
    ensures forall i, j | 0 <= i < j < |SessionMessages(ms, sessionId)| ::
      SessionMessages(ms, sessionId)[i].timestamp < SessionMessages(ms, sessionId)[j].timestamp
  {
    if ms != [] {
      SessionMessagesOrdered(ms[1..], sessionId);
      var rest := SessionMessages(ms[1..], sessionId);
      forall i | 0 <= i < |rest|
        ensures ms[0].timestamp < rest[i].timestamp
      {
        var k :| 0 <= k < |ms[1..]| && ms[1..][k] == rest[i];
        assert ms[k + 1] == rest[i];
      }
    }
  }

  // ---------------------------------------------------------------------
  // Operations the callers use but this service does not define
  // ---------------------------------------------------------------------

  /** `update_message_content`, with its evident meaning: that message's content is replaced. */
  function MessageContentUpdated(t: Tables, messageId: int, content: string): Tables {
    t.(messages := seq(|t.messages|, i requires 0 <= i < |t.messages| =>
         if t.messages[i].id == messageId then t.messages[i].(content := content) else t.messages[i]))
  }

  /** `update_message_document`, with its evident meaning: that message is linked to the document. */
  function MessageDocumentUpdated(t: Tables, messageId: int, documentId: int): Tables {
    t.(messages := seq(|t.messages|, i requires 0 <= i < |t.messages| =>
         if t.messages[i].id == messageId then t.messages[i].(relatedDocumentId := Some(documentId)) else t.messages[i]))
  }

  method UpdateMessageContent(db: Db, messageId: int, content: string)
    modifies db
    ensures db.Snapshot() == MessageContentUpdated(old(db.Snapshot()), messageId, content)
  {
    var ms := db.messages;
    db.messages := seq(|ms|, i requires 0 <= i < |ms| => if ms[i].id == messageId then ms[i].(content := content) else ms[i]);
  }

  method UpdateMessageDocument(db: Db, messageId: int, documentId: int)
    modifies db
    ensures db.Snapshot() == MessageDocumentUpdated(old(db.Snapshot()), messageId, documentId)
  {
    var ms := db.messages;
    db.messages := seq(|ms|, i requires 0 <= i < |ms| =>
      if ms[i].id == messageId then ms[i].(relatedDocumentId := Some(documentId)) else ms[i]);
  }

  /** The messages other than the one with this id. */
  function WithoutMessage(ms: seq<MessageRow>, messageId: int): seq<MessageRow> {
    if ms == [] then []
    else (if ms[0].id == messageId then [] else [ms[0]]) + WithoutMessage(ms[1..], messageId)
  }

  /** `delete_message`, with its evident meaning. */
  function MessageDeleted(t: Tables, messageId: int): Tables {
    t.(messages := WithoutMessage(t.messages, messageId))
  }

  method DeleteMessage(db: Db, messageId: int)
    modifies db
    ensures db.Snapshot() == MessageDeleted(old(db.Snapshot()), messageId)
  {
    db.messages := WithoutMessage(db.messages, messageId);
  }

  /** Deleting removes exactly the messages with that id and keeps the order of the rest. */
  lemma {:induction false} WithoutMessageExact(ms: seq<MessageRow>, messageId: int)
    ensures forall m :: m in WithoutMessage(ms, messageId) <==> m in ms && m.id != messageId
    ensures |WithoutMessage(ms, messageId)| <= |ms|
  {
    if ms != [] {
      WithoutMessageExact(ms[1..], messageId);
      assert ms == [ms[0]] + ms[1..];
    }
  }

  /** Deleting a message keeps the message table's order and counters, and so every table invariant. */
  lemma {:induction false} WithoutMessageOrdered(ms: seq<MessageRow>, next: int, clock: nat, messageId: int)
    requires MessageTableOk(ms, next, clock)
    ensures MessageTableOk(WithoutMessage(ms, messageId), next, clock)
  {
    if ms != [] {
      var tail := ms[1..];
      TailTableOk(ms, next, clock);
      var rest := WithoutMessage(tail, messageId);
      WithoutMessageOrdered(tail, next, clock, messageId);
      if ms[0].id != messageId {
        WithoutMessageExact(tail, messageId);
        forall j | 0 <= j < |rest|
          ensures ms[0].id < rest[j].id && ms[0].timestamp < rest[j].timestamp
        {
          assert rest[j] in tail;
          var k :| 0 <= k < |tail| && tail[k] == rest[j];
          assert ms[k + 1] == rest[j];
        }
        ConsTableOk(ms[0], rest, next, clock);
        assert WithoutMessage(ms, messageId) == [ms[0]] + rest;
      }
    }
  }

  lemma TailTableOk(ms: seq<MessageRow>, next: int, clock: nat)
    requires MessageTableOk(ms, next, clock) && ms != []
    ensures MessageTableOk(ms[1..], next, clock)
  {
    var tail := ms[1..];
    forall i, j | 0 <= i < j < |tail|
      ensures tail[i].id < tail[j].id && tail[i].timestamp < tail[j].timestamp
    {
      assert tail[i] == ms[i + 1] && tail[j] == ms[j + 1];
    }
  }

  lemma ConsTableOk(m: MessageRow, rest: seq<MessageRow>, next: int, clock: nat)
    requires MessageTableOk(rest, next, clock) && m.id < next && m.timestamp < clock
    requires forall j | 0 <= j < |rest| :: m.id < rest[j].id && m.timestamp < rest[j].timestamp
    ensures MessageTableOk([m] + rest, next, clock)
  {
    var w := [m] + rest;
    forall i, j | 0 <= i < j < |w|
      ensures w[i].id < w[j].id && w[i].timestamp < w[j].timestamp
    {
      if i > 0 {
        assert w[i] == rest[i - 1] && w[j] == rest[j - 1];
      } else {
        assert w[j] == rest[j - 1];
      }
    }
    forall i | 0 <= i < |w|
      ensures w[i].id < next && w[i].timestamp < clock
    {
      if i > 0 {
        assert w[i] == rest[i - 1];
      }
    }
  }

  /** After `delete_message` no message has that id, the others stay in order, and the invariants hold. */
  lemma MessageDeletedOk(t: Tables, messageId: int)
    requires TablesOk(t)
    ensures var t' := MessageDeleted(t, messageId);
      && TablesOk(t')
      && (forall m :: m in t'.messages <==> m in t.messages && m.id != messageId)
      && t' == t.(messages := t'.messages)
  {
    WithoutMessageOrdered(t.messages, t.nextMessageId, t.clock, messageId);
    WithoutMessageExact(t.messages, messageId);
  }
}
