/**
 * Updates of one session row: the agent status and its start time, the
 * pinned document and the learning goal. "Now" is the store's logical
 * clock.
 */
module SessionService {
  import opened Wrappers
  import opened Store

  const RunningStatus := "running"
  const IdleStatus := "idle"

  function SessionNotFound(sessionId: string): string {
    "Session " + sessionId + " not found"
  }

  /** The new start time: set by "running", cleared by "idle", kept by any other status. */
  function StartedAfter(status: string, started: Option<nat>, now: nat): Option<nat> {
    if status == RunningStatus then Some(now)
    else if status == IdleStatus then None
    else started
  }

  /** The tables after `update_agent_status`, or the "not found" error. */
  function AgentStatusUpdated(t: Tables, sessionId: string, status: string): Result<Tables> {
    if sessionId !in t.sessions then Err(SessionNotFound(sessionId))
    else
      var s := t.sessions[sessionId];
      Ok(t.(sessions := t.sessions[sessionId := s.(agentStatus := status, agentStartedAt := StartedAfter(status, s.agentStartedAt, t.clock))],
            clock := t.clock + 1))
  }

  /** `update_agent_status` */
  method UpdateAgentStatus(db: Db, sessionId: string, status: string) returns (r: Result<SessionRow>)
    modifies db
    ensures AgentStatusUpdated(old(db.Snapshot()), sessionId, status).Err? ==>
      r == Err(SessionNotFound(sessionId)) && db.Snapshot() == old(db.Snapshot())
    ensures AgentStatusUpdated(old(db.Snapshot()), sessionId, status).Ok? ==>
      db.Snapshot() == AgentStatusUpdated(old(db.Snapshot()), sessionId, status).value && r == Ok(db.sessions[sessionId])
  {
    if sessionId !in db.sessions {
      return Err(SessionNotFound(sessionId));
    }
    var s := db.sessions[sessionId];
    var started := s.agentStartedAt;
    if status == RunningStatus {
      started := Some(db.clock);
    } else if status == IdleStatus {
      started := None;
    }
    s := s.(agentStatus := status, agentStartedAt := started);
    db.sessions := db.sessions[sessionId := s];
    db.clock := db.clock + 1;
    r := Ok(s);
  }

  /**
   * A missing session is an error. Otherwise the status is stored as given,
   * with no check against a set of known statuses; "running" stamps the
   * start with the current time, "idle" clears it and every other status
   * keeps it. Only that session's row changes, and no table invariant is
   * affected.
   */
  lemma AgentStatusEffect(t: Tables, sessionId: string, status: string)
    requires TablesOk(t)
    ensures AgentStatusUpdated(t, sessionId, status).Err? <==> sessionId !in t.sessions
    ensures AgentStatusUpdated(t, sessionId, status).Ok? ==>
      var t' := AgentStatusUpdated(t, sessionId, status).value;
      var before := t.sessions[sessionId];
      var after := t'.sessions[sessionId];
      && after.agentStatus == status
      && (status == "running" ==> after.agentStartedAt == Some(t.clock))
      && (status == "idle" ==> after.agentStartedAt.None?)
      && (status != "running" && status != "idle" ==> after.agentStartedAt == before.agentStartedAt)
      && after == before.(agentStatus := after.agentStatus, agentStartedAt := after.agentStartedAt)
      && (forall k | k in t.sessions && k != sessionId :: k in t'.sessions && t'.sessions[k] == t.sessions[k])
      && t'.sessions.Keys == t.sessions.Keys
      && TablesOk(t')
  {
    if sessionId in t.sessions {
      var t' := AgentStatusUpdated(t, sessionId, status).value;
      assert DocumentsOk(t'.documents, t'.nextDocumentId, t'.clock);
      assert MessageTableOk(t'.messages, t'.nextMessageId, t'.clock);
    }
  }

  /** The tables after `update_current_document`, or the "not found" error. */
  function CurrentDocumentUpdated(t: Tables, sessionId: string, documentId: int): Result<Tables> {
    if sessionId !in t.sessions then Err(SessionNotFound(sessionId))
    else Ok(t.(sessions := t.sessions[sessionId := t.sessions[sessionId].(currentDocumentId := Some(documentId))]))
  }

  /** `update_current_document` */
  method UpdateCurrentDocument(db: Db, sessionId: string, documentId: int) returns (r: Result<SessionRow>)
    modifies db
    ensures CurrentDocumentUpdated(old(db.Snapshot()), sessionId, documentId).Err? ==>
      r == Err(SessionNotFound(sessionId)) && db.Snapshot() == old(db.Snapshot())
    ensures CurrentDocumentUpdated(old(db.Snapshot()), sessionId, documentId).Ok? ==>
      db.Snapshot() == CurrentDocumentUpdated(old(db.Snapshot()), sessionId, documentId).value && r == Ok(db.sessions[sessionId])
  {
    if sessionId !in db.sessions {
      return Err(SessionNotFound(sessionId));
    }
    var s := db.sessions[sessionId].(currentDocumentId := Some(documentId));
    db.sessions := db.sessions[sessionId := s];
    r := Ok(s);
  }

  /** Pinning a document fails for a missing session and otherwise changes that session's `current_document_id` and nothing else. */
  lemma CurrentDocumentEffect(t: Tables, sessionId: string, documentId: int)
    ensures CurrentDocumentUpdated(t, sessionId, documentId).Err? <==> sessionId !in t.sessions
    ensures CurrentDocumentUpdated(t, sessionId, documentId).Ok? ==>
      var t' := CurrentDocumentUpdated(t, sessionId, documentId).value;
      && t'.sessions[sessionId].currentDocumentId == Some(documentId)
      && t'.sessions[sessionId] == t.sessions[sessionId].(currentDocumentId := Some(documentId))
      && t'.sessions.Keys == t.sessions.Keys
      && (forall k | k in t.sessions && k != sessionId :: t'.sessions[k] == t.sessions[k])
      && t' == t.(sessions := t'.sessions)
  {
  }

  /** The tables after `update_session_topic`, or `None` for a missing session. */
  function SessionTopicUpdated(t: Tables, sessionId: string, topic: Option<string>): Option<Tables> {
    if sessionId !in t.sessions then None
    else Some(t.(sessions := t.sessions[sessionId := t.sessions[sessionId].(learningGoal := topic)]))
  }

  /** `update_session_topic` */
  method UpdateSessionTopic(db: Db, sessionId: string, topic: Option<string>) returns (r: Option<SessionRow>)
    modifies db
    ensures SessionTopicUpdated(old(db.Snapshot()), sessionId, topic).None? ==> r.None? && db.Snapshot() == old(db.Snapshot())
    ensures SessionTopicUpdated(old(db.Snapshot()), sessionId, topic).Some? ==>
      db.Snapshot() == SessionTopicUpdated(old(db.Snapshot()), sessionId, topic).value && r == Some(db.sessions[sessionId])
  {
    if sessionId !in db.sessions {
      return None;
    }
    var s := db.sessions[sessionId].(learningGoal := topic);
    db.sessions := db.sessions[sessionId := s];
    r := Some(s);
  }

  /** A missing session gives `None`; otherwise the learning goal becomes the topic, which may be `None` to clear it. */
  lemma SessionTopicEffect(t: Tables, sessionId: string, topic: Option<string>)
    ensures SessionTopicUpdated(t, sessionId, topic).None? <==> sessionId !in t.sessions
    ensures SessionTopicUpdated(t, sessionId, topic).Some? ==>
      var t' := SessionTopicUpdated(t, sessionId, topic).value;
      && t'.sessions[sessionId].learningGoal == topic
      && t'.sessions[sessionId] == t.sessions[sessionId].(learningGoal := topic)
      && (forall k | k in t.sessions && k != sessionId :: t'.sessions[k] == t.sessions[k])
      && t' == t.(sessions := t'.sessions)
  {
  }
}
