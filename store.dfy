/**
 * The relational store the services work on: one Dafny class whose fields
 * are the tables the services read and write. Row ids come from per-table
 * counters, and a logical clock stands for the `created_at`, `updated_at`
 * and `timestamp` defaults, so that "newest" and "latest" are well defined.
 * Each `get_db_session` block is one transaction: a failure rolls every
 * table back to its state at the start of the block (`Restore`).
 */
module Store {
  import opened Wrappers
  import opened Json

  /** A `documents` row. */
  datatype DocumentRow = DocumentRow(
    sessionId: string,
    userId: int,
    topic: string,
    content: string,
    categoryPath: Json,
    entities: seq<Json>,
    version: int,
    generationMetadata: Json,
    parentDocumentId: Json,
    roadmapId: Option<int>,
    milestoneId: Option<int>,
    createdAt: nat,
    updatedAt: nat)

  /** A `document_versions` row; `change_summary` is the one nullable text column here. */
  datatype VersionRow = VersionRow(documentId: int, version: int, content: string, changeSummary: Option<string>, changeType: string)

  /** A `follow_up_questions` row; `question` is NOT NULL, its type and entity tag are nullable text. */
  datatype FollowUpRow = FollowUpRow(documentId: int, question: string, questionType: Option<string>, entityTag: Option<string>, isClicked: bool)

  /** An `entities` row. */
  datatype EntityRow = EntityRow(id: int, name: string, sessionId: string, entityType: string, status: string)

  /** An `entity_document_links` row. */
  datatype LinkRow = LinkRow(entityId: int, documentId: int, linkType: string, confidence: real)

  /** A `roadmaps` row. */
  datatype RoadmapRow = RoadmapRow(
    sessionId: string,
    userId: int,
    goal: string,
    milestones: seq<Json>,
    mermaid: Option<string>,
    version: int,
    parentRoadmapId: Option<int>,
    isActive: bool)

  /** The `sessions` columns the services touch. */
  datatype SessionRow = SessionRow(
    userId: int,
    learningGoal: Option<string>,
    currentDocumentId: Option<int>,
    agentStatus: string,
    agentStartedAt: Option<nat>)

  /** A `messages` row. */
  datatype MessageRow = MessageRow(
    id: int,
    sessionId: string,
    userId: int,
    role: string,
    content: string,
    messageType: string,
    relatedDocumentId: Option<int>,
    agentIntent: Json,
    agentRouting: Json,
    tokensUsed: int,
    timestamp: nat)

  /** Every table at one moment, as a transaction sees it. */
  datatype Tables = Tables(
    documents: map<int, DocumentRow>,
    nextDocumentId: int,
    versions: seq<VersionRow>,
    followUps: seq<FollowUpRow>,
    entities: seq<EntityRow>,
    nextEntityId: int,
    links: seq<LinkRow>,
    roadmaps: map<int, RoadmapRow>,
    nextRoadmapId: int,
    sessions: map<string, SessionRow>,
    messages: seq<MessageRow>,
    nextMessageId: int,
    clock: nat)

  // ---------------------------------------------------------------------
  // Column values at the flush
  // ---------------------------------------------------------------------

  /** sqlite3 binds None, booleans, numbers and strings as parameters; a list or a dict cannot be bound. */
  predicate Bindable(v: Json) {
    !v.JArr? && !v.JObj?
  }

  /** `str(e)` of the error a flush raises for a parameter sqlite3 cannot bind (the SQL text it also carries is not modelled). */
  const BindingError := "(sqlite3.ProgrammingError) Error binding parameter: type is not supported"

  /** `str(e)` of the IntegrityError a flush raises when a NOT NULL column receives None. */
  function NotNullError(column: string): string {
    "(sqlite3.IntegrityError) NOT NULL constraint failed: " + column
  }

  /**
   * What a nullable text column (`Mapped[str | None]`) holds for a bound
   * value: NULL for None, the text otherwise (a number or a boolean is
   * kept as its `str`).
   */
  function ColumnText(v: Json): Option<string> {
    if v.JNull? then None else Some(PyStr(v))
  }

  /**
   * A text column declared `Mapped[str]`, which the schema makes NOT NULL:
   * None breaks the constraint, and an unbindable value fails before it.
   */
  function RequiredText(column: string, v: Json): Result<string> {
    if !Bindable(v) then Err(BindingError)
    else if v.JNull? then Err(NotNullError(column))
    else Ok(PyStr(v))
  }

  /** A `Mapped[str]` column fails exactly on None and on the unbindable values, and stores a string as it is. */
  lemma RequiredTextFacts(column: string, v: Json)
    ensures RequiredText(column, v).Err? <==> v.JNull? || v.JArr? || v.JObj?
    ensures v.JNull? ==> RequiredText(column, v) == Err(NotNullError(column))
    ensures v.JStr? ==> RequiredText(column, v) == Ok(v.s)
    ensures RequiredText(column, v).Ok? ==> ColumnText(v) == Some(RequiredText(column, v).value)
  {
  }

  // ---------------------------------------------------------------------
  // Table invariants
  // ---------------------------------------------------------------------

  /**
   * Document ids lie below the counter, creation times grow with the id,
   * and no two documents share an update time; all times lie before the
   * clock.
   */
  predicate DocumentsOk(docs: map<int, DocumentRow>, next: int, clock: nat) {
    && 1 <= next
    && (forall id | id in docs :: 1 <= id < next && docs[id].createdAt < clock && docs[id].updatedAt < clock)
    && (forall a, b | a in docs && b in docs && a < b :: docs[a].createdAt < docs[b].createdAt)
    && (forall a, b | a in docs && b in docs && a != b :: docs[a].updatedAt != docs[b].updatedAt)
  }

  /** The versions recorded for one document, in insertion order. */
  function VersionsOf(vs: seq<VersionRow>, id: int): seq<int> {
    if vs == [] then []
    else VersionsOf(vs[..|vs| - 1], id) + (if vs[|vs| - 1].documentId == id then [vs[|vs| - 1].version] else [])
  }

  /** 1, 2, ..., n */
  function UpTo(n: int): seq<int>
    decreases if n < 0 then 0 else n
  {
    if n <= 0 then [] else UpTo(n - 1) + [n]
  }

  /** Each document's history holds exactly the versions 1..version, in order, and only documents have history. */
  predicate HistoryOk(docs: map<int, DocumentRow>, vs: seq<VersionRow>) {
    && (forall id | id in docs :: docs[id].version >= 1 && VersionsOf(vs, id) == UpTo(docs[id].version))
    && (forall i | 0 <= i < |vs| :: vs[i].documentId in docs)
  }

  /** `unique_session_entity_name`, and entity ids below the counter. */
  predicate EntitiesOk(es: seq<EntityRow>, next: int) {
    && (forall i | 0 <= i < |es| :: es[i].id < next)
    && (forall i, j | 0 <= i < j < |es| :: es[i].id != es[j].id)
    && (forall i, j | 0 <= i < j < |es| :: !(es[i].sessionId == es[j].sessionId && es[i].name == es[j].name))
  }

  /** Two links with the same key. */
  predicate SameLinkKey(a: LinkRow, b: LinkRow) {
    a.entityId == b.entityId && a.documentId == b.documentId && a.linkType == b.linkType
  }

  /** `unique_entity_doc_link` */
  predicate LinksOk(ls: seq<LinkRow>) {
    forall i, j | 0 <= i < j < |ls| :: !SameLinkKey(ls[i], ls[j])
  }

  /** Every link points at an entity that was created: its id lies below the entity counter. */
  predicate LinkTargetsOk(ls: seq<LinkRow>, nextEntity: int) {
    forall i | 0 <= i < |ls| :: ls[i].entityId < nextEntity
  }

  /** At most one active roadmap per session; ids below the counter. */
  predicate RoadmapsOk(rs: map<int, RoadmapRow>, next: int) {
    && 1 <= next
    && (forall id | id in rs :: 1 <= id < next)
    && (forall a, b | a in rs && b in rs && a != b && rs[a].isActive && rs[b].isActive :: rs[a].sessionId != rs[b].sessionId)
  }

  /** Message ids and timestamps strictly grow in insertion order and lie below their counters; ids start at 1. */
  predicate MessageTableOk(ms: seq<MessageRow>, next: int, clock: nat) {
    && 1 <= next
    && (forall i | 0 <= i < |ms| :: ms[i].id < next && ms[i].timestamp < clock)
    && (forall i, j | 0 <= i < j < |ms| :: ms[i].id < ms[j].id && ms[i].timestamp < ms[j].timestamp)
  }

  predicate TablesOk(t: Tables) {
    && DocumentsOk(t.documents, t.nextDocumentId, t.clock)
    && HistoryOk(t.documents, t.versions)
    && EntitiesOk(t.entities, t.nextEntityId)
    && LinksOk(t.links)
    && LinkTargetsOk(t.links, t.nextEntityId)
    && RoadmapsOk(t.roadmaps, t.nextRoadmapId)
    && MessageTableOk(t.messages, t.nextMessageId, t.clock)
  }

  /** The empty store. */
  const EmptyTables := Tables(map[], 1, [], [], [], 1, [], map[], 1, map[], [], 1, 0)

  lemma EmptyTablesOk()
    ensures TablesOk(EmptyTables)
  {
    assert VersionsOf([], 0) == [];
  }

  // ---------------------------------------------------------------------
  // The database
  // ---------------------------------------------------------------------

  class Db {
    var documents: map<int, DocumentRow>
    var nextDocumentId: int
    var versions: seq<VersionRow>
    var followUps: seq<FollowUpRow>
    var entities: seq<EntityRow>
    var nextEntityId: int
    var links: seq<LinkRow>
    var roadmaps: map<int, RoadmapRow>
    var nextRoadmapId: int
    var sessions: map<string, SessionRow>
    var messages: seq<MessageRow>
    var nextMessageId: int
    /** The logical clock behind every `datetime.utcnow` default. */
    var clock: nat

    function Snapshot(): Tables
      reads this
    {
      Tables(documents, nextDocumentId, versions, followUps, entities, nextEntityId, links,
             roadmaps, nextRoadmapId, sessions, messages, nextMessageId, clock)
    }

    predicate Valid()
      reads this
    {
      TablesOk(Snapshot())
    }

    constructor ()
      ensures Snapshot() == EmptyTables
      ensures Valid()
    {
      documents, nextDocumentId, versions, followUps := map[], 1, [], [];
      entities, nextEntityId, links := [], 1, [];
      roadmaps, nextRoadmapId, sessions := map[], 1, map[];
      messages, nextMessageId, clock := [], 1, 0;
      EmptyTablesOk();
    }

    /** The rollback of a failed transaction: every table is as it was at the start, restored a group at a time. */
    method Restore(t: Tables)
      modifies this
      ensures Snapshot() == t
    {
      RestoreDocuments(t);
      RestoreEntities(t);
      RestoreChat(t);
    }

    method RestoreDocuments(t: Tables)
      modifies this
      ensures Snapshot() == old(Snapshot()).(documents := t.documents, nextDocumentId := t.nextDocumentId,
                                             versions := t.versions, followUps := t.followUps)
    {
      documents, nextDocumentId, versions, followUps := t.documents, t.nextDocumentId, t.versions, t.followUps;
    }

    method RestoreEntities(t: Tables)
      modifies this
      ensures Snapshot() == old(Snapshot()).(entities := t.entities, nextEntityId := t.nextEntityId, links := t.links,
                                             roadmaps := t.roadmaps, nextRoadmapId := t.nextRoadmapId)
    {
      entities, nextEntityId, links, roadmaps, nextRoadmapId := t.entities, t.nextEntityId, t.links, t.roadmaps, t.nextRoadmapId;
    }

    method RestoreChat(t: Tables)
      modifies this
      ensures Snapshot() == old(Snapshot()).(sessions := t.sessions, messages := t.messages, nextMessageId := t.nextMessageId,
                                             clock := t.clock)
    {
      sessions, messages, nextMessageId, clock := t.sessions, t.messages, t.nextMessageId, t.clock;
    }
  }

  // ---------------------------------------------------------------------
  // Facts about the invariants
  // ---------------------------------------------------------------------

  /** Appending a version row extends that document's history and no other. */
  lemma VersionsOfAppend(vs: seq<VersionRow>, r: VersionRow, id: int)
    ensures VersionsOf(vs + [r], id) == VersionsOf(vs, id) + (if r.documentId == id then [r.version] else [])
  {
    assert (vs + [r])[..|vs + [r]| - 1] == vs;
  }

  /** The message invariant survives a later clock. */
  lemma MessagesLater(ms: seq<MessageRow>, next: int, clock: nat, clock': nat)
    requires MessageTableOk(ms, next, clock) && clock <= clock'
    ensures MessageTableOk(ms, next, clock')
  {
  }

  /** A document id with no rows has an empty history. */
  lemma {:induction false} VersionsOfAbsent(vs: seq<VersionRow>, id: int)
    requires forall i | 0 <= i < |vs| :: vs[i].documentId != id
    ensures VersionsOf(vs, id) == []
  {
    if vs != [] {
      VersionsOfAbsent(vs[..|vs| - 1], id);
    }
  }
}
