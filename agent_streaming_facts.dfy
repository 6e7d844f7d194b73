/**
 * What one agent turn guarantees: every handler keeps the store's
 * invariants, only appends to the outbox and never sends "done"; the
 * accumulated text is exactly the document tokens sent; the placeholder is
 * created at most once, on content_agent start; and a turn ends with
 * "done" exactly when nothing failed, always leaving the session idle.
 */
module AgentStreamingFacts {
  import opened Wrappers
  import opened Json
  import opened Store
  import opened WebSocketEventHandler
  import opened AgentStreamingService
  import Send = MessageSender
  import PC = PersistenceCoordinator
  import SS = SessionService
  import MS = MessageService
  import DS = DocumentService
  import ES = EntityService
  import RS = RoadmapService

  // ---------------------------------------------------------------------
  // Vocabulary
  // ---------------------------------------------------------------------

  /** The store invariants hold afterwards and no session was added or lost. */
  predicate Keeps(t: Tables, t': Tables) {
    TablesOk(t') && t'.sessions.Keys == t.sessions.Keys
  }

  predicate IsDone(p: Json) {
    Send.EventType(p) == Some("done")
  }

  /** The text a payload contributes as a document token: its content for a token, else nothing. */
  function TokenPiece(p: Json): string {
    var d := Send.DataField(p, "content");
    if Send.EventType(p) == Some("document_token") && d.Some? then TextOf(d.value) else ""
  }

  /** The text of the document tokens among the payloads, in order. */
  function TokenText(ps: seq<Json>): string {
    if ps == [] then ""
    else TokenText(ps[..|ps| - 1]) + TokenPiece(ps[|ps| - 1])
  }

  /** The accumulated document text is the text of the tokens sent so far. */
  predicate TokensMatch(r: Run) {
    r.ctx.accumulatedContent == TokenText(r.sent)
  }

  /** No "done" among the payloads from index `n` on. */
  predicate NoDoneFrom(ps: seq<Json>, n: nat) {
    forall i | n <= i < |ps| :: !IsDone(ps[i])
  }

  /**
   * What a handler may do to a run: keep the store invariants, append to
   * the outbox without sending "done", keep the accumulated text equal to
   * the tokens sent, and leave a placeholder alone once there is one,
   * changing it only to a real message id.
   */
  predicate Sound(r: Run, r': Run) {
    && Keeps(r.tables, r'.tables)
    && |r.sent| <= |r'.sent| && r'.sent[..|r.sent|] == r.sent
    && NoDoneFrom(r'.sent, |r.sent|)
    && (TokensMatch(r) ==> TokensMatch(r'))
    && (PC.HasMessageId(r.ctx.placeholderMessageId) ==> r'.ctx.placeholderMessageId == r.ctx.placeholderMessageId)
    && (r'.ctx.placeholderMessageId != r.ctx.placeholderMessageId ==> PC.HasMessageId(r'.ctx.placeholderMessageId))
  }

  // ---------------------------------------------------------------------
  // The names in events
  // ---------------------------------------------------------------------

  /**
   * `name.split(".")[-1]`: the reported name is a suffix of the event name
   * with no '.', preceded by a '.' when the event name has one, and the
   * whole event name when it has none.
   */
  lemma {:induction false} LastSegmentFacts(name: string)
    ensures |LastSegment(name)| <= |name|
    ensures LastSegment(name) == name[|name| - |LastSegment(name)|..]
    ensures '.' !in LastSegment(name)
    ensures '.' in name ==> |LastSegment(name)| < |name| && name[|name| - |LastSegment(name)| - 1] == '.'
    ensures '.' !in name ==> LastSegment(name) == name
  {
    if name != [] && name[|name| - 1] != '.' {
      var init := name[..|name| - 1];
      LastSegmentFacts(init);
      assert name == init + [name[|name| - 1]];
      if '.' in name {
        assert '.' in init;
      }
    }
  }

  // ---------------------------------------------------------------------
  // Store steps keep the invariants
  // ---------------------------------------------------------------------

  lemma SavedKeeps(t: Tables, sessionId: string, userId: int, role: string, content: string, messageType: string,
                   relatedDocumentId: Option<int>, agentIntent: Json, agentRouting: Json)
    requires TablesOk(t)
    ensures var (t', m) := MS.Saved(t, sessionId, userId, role, content, messageType, relatedDocumentId, agentIntent, agentRouting, 0);
      Keeps(t, t') && t'.documents == t.documents && m.id >= 1
  {
    MS.SavedOk(t, sessionId, userId, role, content, messageType, relatedDocumentId, agentIntent, agentRouting, 0);
  }

  /** A successful `persist_document` keeps the invariants and names a stored document. */
  lemma DocumentPersistedKeeps(t: Tables, sessionId: string, userId: int, docData: Json, changeSummary: Json,
                               inputSource: string, currentDocId: Json, intent: Json, routing: Json)
    requires TablesOk(t)
    ensures var r := PC.DocumentPersisted(t, sessionId, userId, docData, changeSummary, inputSource, currentDocId, intent, routing);
      r.Ok? ==> Keeps(t, r.value.0) && r.value.1 in r.value.0.documents
  {
    var r := PC.DocumentPersisted(t, sessionId, userId, docData, changeSummary, inputSource, currentDocId, intent, routing);
    if r.Ok? {
      var f := docData.fields;
      var id := f["id"].i;
      assert docData == JObj(f);
      PC.PersistDocumentUpdates(t, sessionId, userId, f, changeSummary, inputSource, currentDocId, intent, routing, id);
    }
  }

  lemma PlaceholderUpdatedKeeps(t: Tables, messageId: Option<int>, sessionId: string, userId: int, docId: int, topic: Json)
    requires TablesOk(t)
    ensures var t' := PC.PlaceholderUpdated(t, messageId, sessionId, userId, docId, topic);
      Keeps(t, t') && t'.documents == t.documents
  {
    PC.PlaceholderUpdatedOk(t, messageId, sessionId, userId, docId, topic);
  }

  /**
   * The entity block keeps the invariants; when the names are strings,
   * the upsert succeeds and the document exists, every name has its entity
   * in the session with an "explains" link to the document, and the list
   * is stored on the document.
   */
  lemma EntitiesPersistedKeeps(t: Tables, sessionId: string, docId: int, entities: Json)
    requires TablesOk(t)
    ensures Keeps(t, EntitiesPersisted(t, sessionId, docId, entities))
  {
    if entities.JArr? && AllStrings(entities.items) {
      var up := ES.Upserted(t, sessionId, Names(entities.items), docId, ConceptType);
      if up.Some? {
        ES.UpsertedOk(t, sessionId, Names(entities.items), docId, ConceptType);
        DS.EntitiesUpdatedOk(up.value, docId, entities.items);
      }
    }
  }

  lemma EntitiesPersistedLinks(t: Tables, sessionId: string, docId: int, entities: Json)
    requires TablesOk(t)
    requires entities.JArr? && AllStrings(entities.items) && docId in t.documents
    requires ES.Upserted(t, sessionId, Names(entities.items), docId, ConceptType).Some?
    ensures var t' := EntitiesPersisted(t, sessionId, docId, entities);
      && docId in t'.documents && t'.documents[docId].entities == entities.items
      && forall i | 0 <= i < |entities.items| ::
           && ES.FindEntity(t'.entities, sessionId, entities.items[i].s).Some?
           && ES.HasLink(t'.links, t'.entities[ES.FindEntity(t'.entities, sessionId, entities.items[i].s).value].id, docId)
  {
    var names := Names(entities.items);
    var up := ES.Upserted(t, sessionId, names, docId, ConceptType);
    ES.UpsertedOk(t, sessionId, names, docId, ConceptType);
    DS.EntitiesUpdatedOk(up.value, docId, entities.items);
    ES.UpsertedLinksEveryName(t, sessionId, names, docId, ConceptType);
    assert forall i | 0 <= i < |entities.items| :: entities.items[i].s == names[i];
  }

  lemma FollowUpsPersistedKeeps(t: Tables, docId: int, questions: Json)
    requires TablesOk(t)
    ensures Keeps(t, FollowUpsPersisted(t, docId, questions))
  {
  }

  /** The follow-up block can be written: a list of dicts whose every question the flush accepts. */
  predicate FollowUpsWritable(docId: int, questions: Json) {
    && questions.JArr? && AllDicts(questions.items)
    && forall i | 0 <= i < |questions.items| :: DS.FollowUpOf(docId, questions.items[i].fields).Ok?
  }

  /**
   * Only the follow-up table changes. When every question can be written,
   * one record per question is appended in order; otherwise (a value that
   * is not a list of dicts, a None question, a list or dict in a field)
   * the block rolls back and the tables are as before.
   */
  lemma FollowUpsPersistedFacts(t: Tables, docId: int, questions: Json)
    ensures var t' := FollowUpsPersisted(t, docId, questions);
      && t'.(followUps := t.followUps) == t
      && (!FollowUpsWritable(docId, questions) ==> t' == t)
      && (FollowUpsWritable(docId, questions) ==>
            && |t'.followUps| == |t.followUps| + |questions.items|
            && t'.followUps[..|t.followUps|] == t.followUps
            && forall i | 0 <= i < |questions.items| ::
                 t'.followUps[|t.followUps| + i] == DS.FollowUpOf(docId, questions.items[i].fields).value)
  {
    if questions.JArr? && AllDicts(questions.items) {
      var qs := FieldsList(questions.items);
      DS.FollowUpRowsFacts(docId, qs);
      assert forall i | 0 <= i < |qs| :: qs[i] == questions.items[i].fields;
    }
  }

  /** A follow-up whose question is present and None breaks the NOT NULL constraint, so nothing is stored. */
  lemma NullQuestionRollsBack(t: Tables, docId: int)
    ensures FollowUpsPersisted(t, docId, JArr([JObj(map["question" := JNull])])) == t
    ensures DS.FollowUpOf(docId, map["question" := JNull]) == Err(NotNullError("follow_up_questions.question"))
  {
    var q := map["question" := JNull];
    assert FieldsList([JObj(q)]) == [q];
    assert DS.FollowUpRows(docId, [q]) == Err(NotNullError("follow_up_questions.question")) by {
      assert [q][..0] == [];
    }
  }

  lemma MessageDeletedKeeps(t: Tables, messageId: int)
    requires TablesOk(t)
    ensures Keeps(t, MS.MessageDeleted(t, messageId))
    ensures forall m | m in MS.MessageDeleted(t, messageId).messages :: m.id != messageId
  {
    MS.MessageDeletedOk(t, messageId);
  }

  lemma StatusSetKeeps(t: Tables, sessionId: string, status: string)
    requires TablesOk(t)
    ensures Keeps(t, StatusSet(t, sessionId, status))
    ensures sessionId in t.sessions ==> StatusSet(t, sessionId, status).sessions[sessionId].agentStatus == status
  {
    SS.AgentStatusEffect(t, sessionId, status);
  }

  // ---------------------------------------------------------------------
  // Sequences
  // ---------------------------------------------------------------------

  /** Payloads that are neither "done" nor document tokens. */
  predicate Plain(ps: seq<Json>) {
    forall i | 0 <= i < |ps| :: !IsDone(ps[i]) && TokenPiece(ps[i]) == ""
  }

  lemma SplitLast<T>(ps: seq<T>, qs: seq<T>)
    requires qs != []
    ensures ps + qs == (ps + qs[..|qs| - 1]) + [qs[|qs| - 1]]
  {
    assert qs == qs[..|qs| - 1] + [qs[|qs| - 1]];
  }

  lemma PrefixAppend<T>(a: seq<T>, b: seq<T>)
    ensures (a + b)[..|a|] == a
  {
  }

  lemma PrefixIndex<T>(a: seq<T>, b: seq<T>, i: int)
    requires |a| <= |b| && b[..|a|] == a && 0 <= i < |a|
    ensures b[i] == a[i]
  {
    assert b[i] == b[..|a|][i];
  }

  lemma PrefixTrans<T>(a: seq<T>, b: seq<T>, c: seq<T>)
    requires |a| <= |b| && b[..|a|] == a
    requires |b| <= |c| && c[..|b|] == b
    ensures |a| <= |c| && c[..|a|] == a
  {
    assert c[..|a|] == c[..|b|][..|a|];
  }

  // ---------------------------------------------------------------------
  // The store through the node steps
  // ---------------------------------------------------------------------

  lemma DocumentRecordedKeeps(u: Turn, r: Run, o: map<string, Json>, t1: Tables, docId: int, topic: Json, summary: string)
    requires TablesOk(t1)
    ensures Keeps(t1, DocumentRecorded(u, r, o, t1, docId, topic, summary).tables)
    ensures DocumentRecorded(u, r, o, t1, docId, topic, summary).tables.documents == t1.documents
  {
    var intent := Lookup(o, "intent", JNull);
    var routing := Lookup(o, "routing_decision", JNull);
    SavedKeeps(t1, u.sessionId, u.userId, MS.AssistantRole, summary, DocumentRefType, Some(docId), intent, routing);
    var t2 := MS.Saved(t1, u.sessionId, u.userId, MS.AssistantRole, summary, DocumentRefType,
                       Some(docId), intent, routing, 0).0;
    PlaceholderUpdatedKeeps(t2, r.ctx.placeholderMessageId, u.sessionId, u.userId, docId, topic);
  }

  lemma PostProcessRecordedKeeps(u: Turn, r: Run, docId: int, entities: Json, followUps: Json)
    requires TablesOk(r.tables)
    ensures Keeps(r.tables, PostProcessRecorded(u, r, docId, entities, followUps).0.tables)
  {
    var t1 := if Truthy(entities) then EntitiesPersisted(r.tables, u.sessionId, docId, entities) else r.tables;
    EntitiesPersistedKeeps(r.tables, u.sessionId, docId, entities);
    FollowUpsPersistedKeeps(t1, docId, followUps);
    PostProcessRecordedTables(u, r, docId, entities, followUps);
  }

  lemma PostProcessRecordedTables(u: Turn, r: Run, docId: int, entities: Json, followUps: Json)
    ensures var t1 := if Truthy(entities) then EntitiesPersisted(r.tables, u.sessionId, docId, entities) else r.tables;
      PostProcessRecorded(u, r, docId, entities, followUps).0.tables
        == if Truthy(followUps) then FollowUpsPersisted(t1, docId, followUps) else t1
  {
  }

  // ---------------------------------------------------------------------
  // What the handlers send
  // ---------------------------------------------------------------------

  lemma DocumentRecordedShape(u: Turn, r: Run, o: map<string, Json>, t1: Tables, docId: int, topic: Json, summary: string)
    ensures var r' := DocumentRecorded(u, r, o, t1, docId, topic, summary);
      var docData := Lookup(o, "document", JNull);
      && r'.state == r.state && r'.ctx == r.ctx.(docId := Some(docId))
      && r'.sent == r.sent + [Send.DocumentComplete(docId, Get(docData, "topic", JNull), Get(docData, "content", JNull),
                                                    Get(docData, "category_path", JNull), EmptyArr),
                              Send.Progress(PostProcessingStage, PostProcessingMessage)]
  {
  }

  /** The payloads the post_process step sends, given its entities and follow-ups. */
  function PostProcessSends(docId: int, entities: Json, followUps: Json): seq<Json> {
    [Send.Entities(docId, entities)] + if Sized(entities) then [Send.FollowUps(docId, followUps)] else []
  }

  /** What the post_process step raises: a TypeError on the first of the two values without a length. */
  function PostProcessRaises(entities: Json, followUps: Json): Option<string> {
    if !Sized(entities) then Some(NoLen(entities)) else if !Sized(followUps) then Some(NoLen(followUps)) else None
  }

  lemma PostProcessRecordedShape(u: Turn, r: Run, docId: int, entities: Json, followUps: Json)
    ensures var (r', e) := PostProcessRecorded(u, r, docId, entities, followUps);
      && r'.state == r.state && r'.ctx == r.ctx
      && r'.sent == r.sent + PostProcessSends(docId, entities, followUps)
      && e == PostProcessRaises(entities, followUps)
  {
  }

  /** The handler left the state, the captured result, the text and the placeholder alone, and only appended. */
  predicate Extends(r: Run, r': Run) {
    && r'.state == r.state
    && r'.ctx.finalResult == r.ctx.finalResult
    && r'.ctx.accumulatedContent == r.ctx.accumulatedContent
    && r'.ctx.placeholderMessageId == r.ctx.placeholderMessageId
    && |r.sent| <= |r'.sent| && r'.sent[..|r.sent|] == r.sent
  }

  lemma ContentAgentEndedExtends(u: Turn, r: Run, o: map<string, Json>)
    ensures Extends(r, ContentAgentEnded(u, r, o).0)
    ensures ContentAgentEnded(u, r, o).1.Some? ==> ContentAgentEnded(u, r, o).0 == r
  {
    if "input_source" in r.state {
      var p := PC.DocumentPersisted(r.tables, u.sessionId, u.userId, Lookup(o, "document", JNull), Lookup(o, "change_summary", JNull),
                                    TextOf(r.state["input_source"]), Lookup(r.state, "current_doc_id", JNull),
                                    Lookup(o, "intent", JNull), Lookup(o, "routing_decision", JNull));
      if p.Ok? {
        var c := MS.MessageColumns(Or(Lookup(o, "change_summary", JNull), JStr("")), JStr(DocumentRefType), JInt(p.value.1));
        if c.Ok? {
          DocumentRecordedShape(u, r, o, p.value.0, p.value.1, p.value.2, c.value.0);
          var r' := DocumentRecorded(u, r, o, p.value.0, p.value.1, p.value.2, c.value.0);
          PrefixAppend(r.sent, r'.sent[|r.sent|..]);
        }
      }
    }
  }

  lemma PostProcessEndedExtends(u: Turn, r: Run, o: map<string, Json>)
    ensures Extends(r, PostProcessEnded(u, r, o).0) && PostProcessEnded(u, r, o).0.ctx == r.ctx
  {
    if HasDocId(r.ctx.docId) {
      var docData := Or(Lookup(o, "document", JNull), EmptyObj);
      if docData.JObj? {
        var entities := Lookup(docData.fields, "entities", EmptyArr);
        var followUps := Lookup(o, "follow_up_questions", EmptyArr);
        PostProcessRecordedShape(u, r, r.ctx.docId.value, entities, followUps);
        PrefixAppend(r.sent, PostProcessSends(r.ctx.docId.value, entities, followUps));
      }
    }
  }

  /**
   * A chain end sends node_end first; a dict output is merged into both
   * the state and the captured result, any other output into neither and
   * raises nothing. The text and the placeholder are left alone.
   */
  lemma ChainEndedMerges(u: Turn, r: Run, ev: GraphEvent)
    ensures var r' := ChainEnded(u, r, ev).0;
      && |r'.sent| > |r.sent| && r'.sent[|r.sent|] == Send.NodeEnd(LastSegment(ev.name))
      && r'.sent[..|r.sent|] == r.sent
      && r'.ctx.accumulatedContent == r.ctx.accumulatedContent
      && r'.ctx.placeholderMessageId == r.ctx.placeholderMessageId
      && if "output" in ev.data && ev.data["output"].JObj? then
           r'.state == r.state + ev.data["output"].fields && r'.ctx.finalResult == r.ctx.finalResult + ev.data["output"].fields
         else
           r'.state == r.state && r'.ctx.finalResult == r.ctx.finalResult && ChainEnded(u, r, ev).1.None?
  {
    var node := LastSegment(ev.name);
    var r1 := Emit(r, Send.NodeEnd(node));
    PrefixAppend(r.sent, [Send.NodeEnd(node)]);
    if "output" in ev.data && ev.data["output"].JObj? {
      var o := ev.data["output"].fields;
      var r2 := r1.(state := r1.state + o, ctx := r1.ctx.(finalResult := r1.ctx.finalResult + o));
      var r' := ChainEnded(u, r, ev).0;
      if node == ContentAgent && Truthy(Lookup(o, "document", JNull)) {
        ContentAgentEndedExtends(u, r2, o);
      } else if node == PostProcess {
        PostProcessEndedExtends(u, r2, o);
      }
      assert Extends(r2, r');
      PrefixIndex(r2.sent, r'.sent, |r.sent|);
      PrefixTrans(r.sent, r2.sent, r'.sent);
    }
  }

  // ---------------------------------------------------------------------
  // Soundness of runs
  // ---------------------------------------------------------------------

  lemma SoundRefl(r: Run)
    requires TablesOk(r.tables)
    ensures Sound(r, r)
  {
  }

  lemma {:induction false} SoundTrans(r1: Run, r2: Run, r3: Run)
    requires Sound(r1, r2) && Sound(r2, r3)
    ensures Sound(r1, r3)
  {
    PrefixTrans(r1.sent, r2.sent, r3.sent);
    forall i | |r1.sent| <= i < |r3.sent|
      ensures !IsDone(r3.sent[i])
    {
      if i < |r2.sent| {
        PrefixIndex(r2.sent, r3.sent, i);
      }
    }
  }

  lemma TokenTextAppend(ps: seq<Json>, p: Json)
    ensures TokenText(ps + [p]) == TokenText(ps) + TokenPiece(p)
  {
    PrefixAppend(ps, [p]);
  }

  lemma {:induction false} TokenTextPlain(ps: seq<Json>, qs: seq<Json>)
    requires Plain(qs)
    ensures TokenText(ps + qs) == TokenText(ps)
    decreases |qs|
  {
    if qs == [] {
      assert ps + qs == ps;
    } else {
      var init := qs[..|qs| - 1];
      TokenTextPlain(ps, init);
      SplitLast(ps, qs);
      TokenTextAppend(ps + init, qs[|qs| - 1]);
    }
  }

  /** A step that keeps the store invariants, the text and the placeholder, and sends only plain payloads, is sound. */
  lemma StepSound(r: Run, r': Run, ps: seq<Json>)
    requires Keeps(r.tables, r'.tables) && r'.sent == r.sent + ps && Plain(ps)
    requires r'.ctx.accumulatedContent == r.ctx.accumulatedContent
    requires r'.ctx.placeholderMessageId == r.ctx.placeholderMessageId
    ensures Sound(r, r')
  {
    TokenTextPlain(r.sent, ps);
    PrefixAppend(r.sent, ps);
    forall i | |r.sent| <= i < |r'.sent|
      ensures !IsDone(r'.sent[i])
    {
      assert r'.sent[i] == ps[i - |r.sent|];
    }
  }

  /** A sound step may also set the placeholder, once, to a real message id. */
  lemma PlaceholderStepSound(r: Run, r': Run, ps: seq<Json>)
    requires Keeps(r.tables, r'.tables) && r'.sent == r.sent + ps && Plain(ps)
    requires r'.ctx.accumulatedContent == r.ctx.accumulatedContent
    requires !PC.HasMessageId(r.ctx.placeholderMessageId) && PC.HasMessageId(r'.ctx.placeholderMessageId)
    ensures Sound(r, r')
  {
    TokenTextPlain(r.sent, ps);
    PrefixAppend(r.sent, ps);
    forall i | |r.sent| <= i < |r'.sent|
      ensures !IsDone(r'.sent[i])
    {
      assert r'.sent[i] == ps[i - |r.sent|];
    }
  }

  /** Sending a payload that is neither "done" nor a token, and changing nothing else, is sound. */
  lemma EmitPlain(r: Run, p: Json)
    requires TablesOk(r.tables) && !IsDone(p) && TokenPiece(p) == ""
    ensures Sound(r, Emit(r, p))
  {
    StepSound(r, Emit(r, p), [p]);
  }

  lemma ChainStartedSound(u: Turn, r: Run, ev: GraphEvent)
    requires TablesOk(r.tables)
    ensures Sound(r, ChainStarted(u, r, ev).0)
  {
    var node := LastSegment(ev.name);
    if node == ContentAgent && !PC.HasMessageId(r.ctx.placeholderMessageId) && DocTitle(r.state).Ok? {
      SavedKeeps(r.tables, u.sessionId, u.userId, MS.AssistantRole, PC.PlaceholderContent, PC.DocumentCardType, None, JNull, JNull);
      var a, b := Send.NodeStart(node, JNull), Send.DocumentStart(DocTitle(r.state).value);
      assert Send.EventType(a) == Some("node_start");
      assert Send.EventType(b) == Some("document_start");
      PlainPair(a, b);
      var r' := ChainStarted(u, r, ev).0;
      assert r'.sent == r.sent + [a, b];
      PlaceholderStepSound(r, r', [a, b]);
    } else {
      EmitPlain(r, Send.NodeStart(node, JNull));
    }
  }

  lemma DocumentRecordedSound(u: Turn, r: Run, o: map<string, Json>, t1: Tables, docId: int, topic: Json, summary: string)
    requires Keeps(r.tables, t1)
    ensures Sound(r, DocumentRecorded(u, r, o, t1, docId, topic, summary))
  {
    var docData := Lookup(o, "document", JNull);
    DocumentRecordedShape(u, r, o, t1, docId, topic, summary);
    DocumentRecordedKeeps(u, r, o, t1, docId, topic, summary);
    var card := Send.DocumentComplete(docId, Get(docData, "topic", JNull), Get(docData, "content", JNull),
                                      Get(docData, "category_path", JNull), EmptyArr);
    var progress := Send.Progress(PostProcessingStage, PostProcessingMessage);
    assert Send.EventType(card) == Some("document");
    assert Send.EventType(progress) == Some("progress");
    PlainPair(card, progress);
    StepSound(r, DocumentRecorded(u, r, o, t1, docId, topic, summary), [card, progress]);
  }

  /** A payload of a type other than "done" and "document_token" is plain. */
  lemma PlainOne(a: Json)
    requires Send.EventType(a).Some? && Send.EventType(a).value !in {"done", "document_token"}
    ensures Plain([a])
  {
  }

  /** Two payloads of types other than "done" and "document_token" are plain. */
  lemma PlainPair(a: Json, b: Json)
    requires Send.EventType(a).Some? && Send.EventType(a).value !in {"done", "document_token"}
    requires Send.EventType(b).Some? && Send.EventType(b).value !in {"done", "document_token"}
    ensures Plain([a, b])
  {
  }

  lemma ContentAgentEndedSound(u: Turn, r: Run, o: map<string, Json>)
    requires TablesOk(r.tables)
    ensures Sound(r, ContentAgentEnded(u, r, o).0)
  {
    var docData := Lookup(o, "document", JNull);
    if "input_source" in r.state {
      var p := PC.DocumentPersisted(r.tables, u.sessionId, u.userId, docData, Lookup(o, "change_summary", JNull),
                                    TextOf(r.state["input_source"]), Lookup(r.state, "current_doc_id", JNull),
                                    Lookup(o, "intent", JNull), Lookup(o, "routing_decision", JNull));
      DocumentPersistedKeeps(r.tables, u.sessionId, u.userId, docData, Lookup(o, "change_summary", JNull),
                             TextOf(r.state["input_source"]), Lookup(r.state, "current_doc_id", JNull),
                             Lookup(o, "intent", JNull), Lookup(o, "routing_decision", JNull));
      if p.Ok? {
        var c := MS.MessageColumns(Or(Lookup(o, "change_summary", JNull), JStr("")), JStr(DocumentRefType), JInt(p.value.1));
        if c.Ok? {
          DocumentRecordedSound(u, r, o, p.value.0, p.value.1, p.value.2, c.value.0);
        } else {
          SoundRefl(r);
        }
      } else {
        SoundRefl(r);
      }
    } else {
      SoundRefl(r);
    }
  }

  lemma PostProcessEndedSound(u: Turn, r: Run, o: map<string, Json>)
    requires TablesOk(r.tables)
    ensures Sound(r, PostProcessEnded(u, r, o).0)
  {
    if HasDocId(r.ctx.docId) {
      var docData := Or(Lookup(o, "document", JNull), EmptyObj);
      if docData.JObj? {
        var docId := r.ctx.docId.value;
        var entities := Lookup(docData.fields, "entities", EmptyArr);
        var followUps := Lookup(o, "follow_up_questions", EmptyArr);
        PostProcessRecordedShape(u, r, docId, entities, followUps);
        PostProcessRecordedKeeps(u, r, docId, entities, followUps);
        var a, b := Send.Entities(docId, entities), Send.FollowUps(docId, followUps);
        assert Send.EventType(a) == Some("entities");
        assert Send.EventType(b) == Some("follow_ups");
        PlainPair(a, b);
        assert Plain([a]);
        StepSound(r, PostProcessRecorded(u, r, docId, entities, followUps).0, PostProcessSends(docId, entities, followUps));
      }
    }
  }

  lemma ChainEndedSound(u: Turn, r: Run, ev: GraphEvent)
    requires TablesOk(r.tables)
    ensures Sound(r, ChainEnded(u, r, ev).0)
  {
    var node := LastSegment(ev.name);
    var r1 := Emit(r, Send.NodeEnd(node));
    EmitPlain(r, Send.NodeEnd(node));
    if "output" in ev.data && ev.data["output"].JObj? {
      var o := ev.data["output"].fields;
      var r2 := r1.(state := r1.state + o, ctx := r1.ctx.(finalResult := r1.ctx.finalResult + o));
      StepSound(r, r2, [Send.NodeEnd(node)]);
      if node == ContentAgent && Truthy(Lookup(o, "document", JNull)) {
        ContentAgentEndedSound(u, r2, o);
        SoundTrans(r, r2, ContentAgentEnded(u, r2, o).0);
      } else if node == PostProcess {
        PostProcessEndedSound(u, r2, o);
        SoundTrans(r, r2, PostProcessEnded(u, r2, o).0);
      }
    }
  }

  lemma ChatModelStreamedSound(r: Run, ev: GraphEvent)
    requires TablesOk(r.tables)
    ensures Sound(r, ChatModelStreamed(r, ev))
  {
    if IsDocumentToken(ev) {
      var text := ChunkText(Lookup(ev.data, "chunk", JNull));
      TokenTextAppend(r.sent, Send.DocumentToken(text));
      PrefixAppend(r.sent, [Send.DocumentToken(text)]);
    }
  }

  /** Every handler is sound. */
  lemma EventHandledSound(u: Turn, r: Run, ev: GraphEvent)
    requires TablesOk(r.tables)
    ensures Sound(r, EventHandled(u, r, ev).0)
  {
    if ev.kind == "on_chain_start" {
      ChainStartedSound(u, r, ev);
    } else if ev.kind == "on_chain_end" {
      ChainEndedSound(u, r, ev);
    } else if ev.kind == "on_chat_model_start" {
      if !InPostProcess(ev) {
        EmitPlain(r, Send.NodeStart(LlmName, Lookup(ev.data, "model", JNull)));
      }
    } else if ev.kind == "on_chat_model_stream" {
      ChatModelStreamedSound(r, ev);
    } else if ev.kind == "on_chat_model_end" {
      if !InPostProcess(ev) {
        EmitPlain(r, Send.NodeEnd(LlmName));
      }
    } else if ev.kind == "on_tool_start" {
      EmitPlain(r, Send.ToolStart(LastSegment(ev.name), PyStr(Lookup(ev.data, "input", EmptyObj))));
    } else if ev.kind == "on_tool_end" {
      EmitPlain(r, Send.ToolEnd(LastSegment(ev.name), PyStr(Lookup(ev.data, "output", JStr("")))));
    } else if ev.kind == "on_tool_error" {
      EmitPlain(r, Send.Error(ToolErrorText(LastSegment(ev.name), Lookup(ev.data, "error", JStr(UnknownError)))));
    }
  }

  /**
   * The event loop as a whole is sound, whether or not a handler raised:
   * the store invariants hold, no "done" is sent, the accumulated text is
   * the tokens sent, and a placeholder, once there, stays.
   */
  lemma {:induction false} EventsHandledSound(u: Turn, r: Run, events: seq<GraphEvent>)
    requires TablesOk(r.tables)
    ensures Sound(r, EventsHandled(u, r, events).0)
    decreases |events|
  {
    if events == [] {
      SoundRefl(r);
    } else {
      var (r1, e) := EventHandled(u, r, events[0]);
      EventHandledSound(u, r, events[0]);
      if e.None? {
        EventsHandledSound(u, r1, events[1..]);
        SoundTrans(r, r1, EventsHandled(u, r1, events[1..]).0);
      }
    }
  }

  // ---------------------------------------------------------------------
  // Dispatch and the placeholder
  // ---------------------------------------------------------------------

  /** An event of a kind without a handler changes nothing and raises nothing. */
  lemma UnhandledIgnored(u: Turn, r: Run, ev: GraphEvent)
    ensures ev.kind !in HandledKinds ==> EventHandled(u, r, ev) == (r, None)
  {
  }

  /** Only a content_agent start without a placeholder changes the placeholder. */
  lemma OnlyContentAgentStartCreates(u: Turn, r: Run, ev: GraphEvent)
    ensures EventHandled(u, r, ev).0.ctx.placeholderMessageId != r.ctx.placeholderMessageId ==>
      && ev.kind == "on_chain_start"
      && LastSegment(ev.name) == ContentAgent
      && !PC.HasMessageId(r.ctx.placeholderMessageId)
  {
    if ev.kind == "on_chain_end" {
      ChainEndedMerges(u, r, ev);
    }
  }

  /**
   * Over a whole event stream the placeholder is created at most once: it
   * changes only from none to a real id, only if some event is a
   * content_agent start, and a placeholder already there is never replaced.
   */
  lemma {:induction false} PlaceholderAtMostOnce(u: Turn, r: Run, events: seq<GraphEvent>)
    requires TablesOk(r.tables)
    ensures var r' := EventsHandled(u, r, events).0;
      r'.ctx.placeholderMessageId != r.ctx.placeholderMessageId ==>
        && !PC.HasMessageId(r.ctx.placeholderMessageId)
        && PC.HasMessageId(r'.ctx.placeholderMessageId)
        && exists i | 0 <= i < |events| :: events[i].kind == "on_chain_start" && LastSegment(events[i].name) == ContentAgent
    ensures PC.HasMessageId(r.ctx.placeholderMessageId) ==>
      EventsHandled(u, r, events).0.ctx.placeholderMessageId == r.ctx.placeholderMessageId
    decreases |events|
  {
    if events != [] {
      var (r1, e) := EventHandled(u, r, events[0]);
      OnlyContentAgentStartCreates(u, r, events[0]);
      EventHandledSound(u, r, events[0]);
      if e.None? {
        PlaceholderAtMostOnce(u, r1, events[1..]);
        var r' := EventsHandled(u, r1, events[1..]).0;
        if r'.ctx.placeholderMessageId != r.ctx.placeholderMessageId && r1.ctx.placeholderMessageId == r.ctx.placeholderMessageId {
          var i :| 0 <= i < |events[1..]| && events[1..][i].kind == "on_chain_start" && LastSegment(events[1..][i].name) == ContentAgent;
          assert events[i + 1] == events[1..][i];
        }
      }
    }
  }

  /**
   * The start of content_agent without a placeholder sends node_start then
   * document_start with the title, and appends one placeholder card whose
   * id becomes the context's; when the title raises, only node_start is
   * sent and the error is raised. Any other chain start sends only
   * node_start and raises nothing.
   */
  lemma ChainStartedPlaceholder(u: Turn, r: Run, ev: GraphEvent)
    requires TablesOk(r.tables)
    ensures var (r', e) := ChainStarted(u, r, ev);
      var node := LastSegment(ev.name);
      if node == ContentAgent && !PC.HasMessageId(r.ctx.placeholderMessageId) && DocTitle(r.state).Ok? then
        && e.None?
        && r'.sent == r.sent + [Send.NodeStart(node, JNull), Send.DocumentStart(DocTitle(r.state).value)]
        && r'.tables.messages == r.tables.messages + [r'.tables.messages[|r.tables.messages|]]
        && var m := r'.tables.messages[|r.tables.messages|];
        && m.role == MS.AssistantRole && m.messageType == PC.DocumentCardType && m.content == PC.PlaceholderContent
        && m.sessionId == u.sessionId && m.relatedDocumentId.None?
        && r'.ctx.placeholderMessageId == Some(m.id) && PC.HasMessageId(Some(m.id))
      else if node == ContentAgent && !PC.HasMessageId(r.ctx.placeholderMessageId) then
        r' == Emit(r, Send.NodeStart(node, JNull)) && e == Some(DocTitle(r.state).message)
      else
        r' == Emit(r, Send.NodeStart(node, JNull)) && e.None?
  {
    var node := LastSegment(ev.name);
    if node == ContentAgent && !PC.HasMessageId(r.ctx.placeholderMessageId) {
      MS.SavedOk(r.tables, u.sessionId, u.userId, MS.AssistantRole, PC.PlaceholderContent, PC.DocumentCardType, None, JNull, JNull, 0);
    }
  }

  /**
   * The document title: the routing target if truthy, else the intent
   * target if truthy, else the raw message. A truthy routing decision that
   * is not a dict raises; a truthy intent that is not a dict raises exactly
   * when the routing decision gives no target.
   */
  lemma DocTitleChoice(state: map<string, Json>)
    ensures var routing := Lookup(state, "routing_decision", JNull);
      var intent := Lookup(state, "intent", JNull);
      var fromRouting := routing.JObj? && "target" in routing.fields && Truthy(routing.fields["target"]);
      && (Truthy(routing) && !routing.JObj? ==> DocTitle(state) == Err(NoAttribute(routing, "get")))
      && (DocTitle(state).Err? <==> (Truthy(routing) && !routing.JObj?) || (!fromRouting && Truthy(intent) && !intent.JObj?))
      && (DocTitle(state).Ok? ==>
            DocTitle(state).value ==
              if fromRouting then routing.fields["target"]
              else if intent.JObj? && "target" in intent.fields && Truthy(intent.fields["target"]) then intent.fields["target"]
              else if "raw_message" in state then state["raw_message"]
              else JStr(DefaultTitle))
  {
  }

  // ---------------------------------------------------------------------
  // Tokens
  // ---------------------------------------------------------------------

  /** The text one event adds to the document: a content_agent chunk outside post_process. */
  function TokenOf(ev: GraphEvent): string {
    if ev.kind == "on_chat_model_stream" && IsDocumentToken(ev) then ChunkText(Lookup(ev.data, "chunk", JNull)) else ""
  }

  /** The text a stream of events adds, in order. */
  function StreamTokens(events: seq<GraphEvent>): string {
    if events == [] then "" else TokenOf(events[0]) + StreamTokens(events[1..])
  }

  lemma EventTokens(u: Turn, r: Run, ev: GraphEvent)
    ensures EventHandled(u, r, ev).0.ctx.accumulatedContent == r.ctx.accumulatedContent + TokenOf(ev)
  {
    if ev.kind == "on_chain_end" {
      ChainEndedMerges(u, r, ev);
    }
  }

  /**
   * When no handler raises, the accumulated text grows by exactly the
   * content_agent chunks of the stream, in order; chunks from other nodes
   * and from post_process add nothing.
   */
  lemma {:induction false} EventsAccumulate(u: Turn, r: Run, events: seq<GraphEvent>)
    ensures EventsHandled(u, r, events).1.None? ==>
      EventsHandled(u, r, events).0.ctx.accumulatedContent == r.ctx.accumulatedContent + StreamTokens(events)
    decreases |events|
  {
    if events != [] {
      var step := EventHandled(u, r, events[0]);
      EventsHandledCons(u, r, events);
      EventTokens(u, r, events[0]);
      if step.1.None? && EventsHandled(u, step.0, events[1..]).1.None? {
        EventsAccumulate(u, step.0, events[1..]);
        AppendTokens(r.ctx.accumulatedContent, TokenOf(events[0]), StreamTokens(events[1..]),
                     step.0.ctx.accumulatedContent, EventsHandled(u, step.0, events[1..]).0.ctx.accumulatedContent);
      }
    }
  }

  /** Text grown by one token and then by the rest is the text grown by the token followed by the rest. */
  lemma AppendTokens(a: string, t: string, rest: string, mid: string, total: string)
    requires mid == a + t && total == mid + rest
    ensures total == a + (t + rest)
  {
  }

  /** The loop goes on past an event exactly when its handler does not raise. */
  lemma EventsHandledCons(u: Turn, r: Run, events: seq<GraphEvent>)
    requires events != []
    ensures var step := EventHandled(u, r, events[0]);
      EventsHandled(u, r, events) == if step.1.Some? then step else EventsHandled(u, step.0, events[1..])
  {
  }

  // ---------------------------------------------------------------------
  // Node ends
  // ---------------------------------------------------------------------

  /**
   * The end of content_agent with a document: it raises exactly when the
   * input source is missing, `persist_document` raises or the chat record
   * rejects the change summary (a truthy list or dict), and then changes
   * nothing; otherwise it sends the document card, with the stored id and
   * entities `[]`, then the post-processing progress, and records the id.
   */
  lemma ContentAgentEndedFacts(u: Turn, r: Run, o: map<string, Json>)
    requires TablesOk(r.tables)
    ensures var (r', e) := ContentAgentEnded(u, r, o);
      var changeSummary := Lookup(o, "change_summary", JNull);
      && (e.None? <==>
            && "input_source" in r.state
            && PC.DocumentPersisted(r.tables, u.sessionId, u.userId, Lookup(o, "document", JNull), changeSummary,
                                    TextOf(r.state["input_source"]), Lookup(r.state, "current_doc_id", JNull),
                                    Lookup(o, "intent", JNull), Lookup(o, "routing_decision", JNull)).Ok?
            && !(Truthy(changeSummary) && !Bindable(changeSummary)))
      && (e.Some? ==> r' == r)
      && (e.None? ==>
            && r'.ctx.docId.Some? && r'.ctx.docId.value in r'.tables.documents
            && |r'.sent| == |r.sent| + 2
            && Send.EventType(r'.sent[|r.sent|]) == Some("document")
            && Send.DataField(r'.sent[|r.sent|], "id") == Some(JInt(r'.ctx.docId.value))
            && Send.DataField(r'.sent[|r.sent|], "entities") == Some(JArr([]))
            && r'.sent[|r.sent| + 1] == Send.Progress(PostProcessingStage, PostProcessingMessage))
  {
    ContentAgentEndedOutcome(u, r, o);
    if ContentAgentEnded(u, r, o).1.None? {
      ContentAgentEndedSends(u, r, o);
    }
  }

  lemma ContentAgentEndedOutcome(u: Turn, r: Run, o: map<string, Json>)
    requires TablesOk(r.tables)
    ensures var changeSummary := Lookup(o, "change_summary", JNull);
      ContentAgentEnded(u, r, o).1.None? <==>
        && "input_source" in r.state
        && PC.DocumentPersisted(r.tables, u.sessionId, u.userId, Lookup(o, "document", JNull), changeSummary,
                                TextOf(r.state["input_source"]), Lookup(r.state, "current_doc_id", JNull),
                                Lookup(o, "intent", JNull), Lookup(o, "routing_decision", JNull)).Ok?
        && !(Truthy(changeSummary) && !Bindable(changeSummary))
    ensures ContentAgentEnded(u, r, o).1.Some? ==> ContentAgentEnded(u, r, o).0 == r
  {
    if "input_source" in r.state {
      var changeSummary := Lookup(o, "change_summary", JNull);
      var p := PC.DocumentPersisted(r.tables, u.sessionId, u.userId, Lookup(o, "document", JNull), changeSummary,
                                    TextOf(r.state["input_source"]), Lookup(r.state, "current_doc_id", JNull),
                                    Lookup(o, "intent", JNull), Lookup(o, "routing_decision", JNull));
      if p.Ok? {
        MS.MessageColumnsFacts(Or(changeSummary, JStr("")), JStr(DocumentRefType), JInt(p.value.1));
      }
    }
  }

  lemma ContentAgentEndedSends(u: Turn, r: Run, o: map<string, Json>)
    requires TablesOk(r.tables)
    requires ContentAgentEnded(u, r, o).1.None?
    ensures var r' := ContentAgentEnded(u, r, o).0;
      && r'.ctx.docId.Some? && r'.ctx.docId.value in r'.tables.documents
      && |r'.sent| == |r.sent| + 2
      && Send.EventType(r'.sent[|r.sent|]) == Some("document")
      && Send.DataField(r'.sent[|r.sent|], "id") == Some(JInt(r'.ctx.docId.value))
      && Send.DataField(r'.sent[|r.sent|], "entities") == Some(JArr([]))
      && r'.sent[|r.sent| + 1] == Send.Progress(PostProcessingStage, PostProcessingMessage)
  {
    var docData := Lookup(o, "document", JNull);
    var changeSummary := Lookup(o, "change_summary", JNull);
    DocumentPersistedKeeps(r.tables, u.sessionId, u.userId, docData, changeSummary,
                           TextOf(r.state["input_source"]), Lookup(r.state, "current_doc_id", JNull),
                           Lookup(o, "intent", JNull), Lookup(o, "routing_decision", JNull));
    var p := PC.DocumentPersisted(r.tables, u.sessionId, u.userId, docData, changeSummary,
                                  TextOf(r.state["input_source"]), Lookup(r.state, "current_doc_id", JNull),
                                  Lookup(o, "intent", JNull), Lookup(o, "routing_decision", JNull));
    var (t1, docId, topic) := p.value;
    var c := MS.MessageColumns(Or(changeSummary, JStr("")), JStr(DocumentRefType), JInt(docId));
    assert ContentAgentEnded(u, r, o).0 == DocumentRecorded(u, r, o, t1, docId, topic, c.value.0);
    DocumentRecordedCard(u, r, o, t1, docId, topic, c.value.0);
  }

  /** The card sent for a persisted document carries its id and entities `[]`; progress follows. */
  lemma DocumentRecordedCard(u: Turn, r: Run, o: map<string, Json>, t1: Tables, docId: int, topic: Json, summary: string)
    requires TablesOk(t1) && docId in t1.documents
    ensures var r' := DocumentRecorded(u, r, o, t1, docId, topic, summary);
      && r'.ctx.docId == Some(docId) && docId in r'.tables.documents
      && |r'.sent| == |r.sent| + 2
      && Send.EventType(r'.sent[|r.sent|]) == Some("document")
      && Send.DataField(r'.sent[|r.sent|], "id") == Some(JInt(docId))
      && Send.DataField(r'.sent[|r.sent|], "entities") == Some(JArr([]))
      && r'.sent[|r.sent| + 1] == Send.Progress(PostProcessingStage, PostProcessingMessage)
  {
    var docData := Lookup(o, "document", JNull);
    DocumentRecordedShape(u, r, o, t1, docId, topic, summary);
    DocumentRecordedKeeps(u, r, o, t1, docId, topic, summary);
    Send.DocumentEntitiesDefault(docId, Get(docData, "topic", JNull), Get(docData, "content", JNull),
                                 Get(docData, "category_path", JNull), EmptyArr);
  }

  /**
   * The end of post_process: without a document id it does nothing; with
   * one it raises when the output's "document" is not a dict, changing
   * nothing. Otherwise it sends the entities and then the follow-ups for
   * that document, as given, whatever became of persisting them; an
   * entities value without a length raises right after its payload, so the
   * follow-ups are not sent, and a follow-ups value without one raises
   * right after theirs.
   */
  lemma PostProcessEndedFacts(u: Turn, r: Run, o: map<string, Json>)
    requires TablesOk(r.tables)
    ensures !HasDocId(r.ctx.docId) ==> PostProcessEnded(u, r, o) == (r, None)
    ensures HasDocId(r.ctx.docId) ==>
      var docData := Or(Lookup(o, "document", JNull), EmptyObj);
      var (r', e) := PostProcessEnded(u, r, o);
      && (!docData.JObj? ==> r' == r && e == Some(NoAttribute(docData, "get")))
      && (docData.JObj? ==>
            var docId := r.ctx.docId.value;
            var entities := Lookup(docData.fields, "entities", EmptyArr);
            var followUps := Lookup(o, "follow_up_questions", EmptyArr);
            && Keeps(r.tables, r'.tables)
            && r'.ctx == r.ctx
            && (Sized(entities) ==> r'.sent == r.sent + [Send.Entities(docId, entities), Send.FollowUps(docId, followUps)])
            && (!Sized(entities) ==> r'.sent == r.sent + [Send.Entities(docId, entities)] && e == Some(NoLen(entities)))
            && (Sized(entities) && !Sized(followUps) ==> e == Some(NoLen(followUps)))
            && (e.None? <==> Sized(entities) && Sized(followUps)))
  {
    if HasDocId(r.ctx.docId) {
      var docData := Or(Lookup(o, "document", JNull), EmptyObj);
      if docData.JObj? {
        var entities := Lookup(docData.fields, "entities", EmptyArr);
        var followUps := Lookup(o, "follow_up_questions", EmptyArr);
        PostProcessRecordedShape(u, r, r.ctx.docId.value, entities, followUps);
        PostProcessRecordedKeeps(u, r, r.ctx.docId.value, entities, followUps);
      }
    }
  }

  // ---------------------------------------------------------------------
  // finalize
  // ---------------------------------------------------------------------

  /**
   * The merge keeps every key of both maps; a checkpoint value other than
   * None always wins, and the captured value is used exactly where the
   * checkpoint lacks the key or holds None.
   */
  lemma MergedFacts(checkpoint: map<string, Json>, captured: map<string, Json>)
    ensures Merged(checkpoint, captured).Keys == checkpoint.Keys + captured.Keys
    ensures forall k | k in checkpoint && !checkpoint[k].JNull? :: Merged(checkpoint, captured)[k] == checkpoint[k]
    ensures forall k | k in captured && (k !in checkpoint || checkpoint[k].JNull?) :: Merged(checkpoint, captured)[k] == captured[k]
    ensures forall k | k in checkpoint && k !in captured :: Merged(checkpoint, captured)[k] == checkpoint[k]
  {
  }

  /**
   * Reporting an error deletes the placeholder card if there is one and
   * sends the error and nothing else.
   */
  lemma ErrorHandledFacts(r: Run, message: string)
    requires TablesOk(r.tables)
    ensures var r' := ErrorHandled(r, message);
      && r'.sent == r.sent + [Send.Error(message)]
      && r'.ctx == r.ctx && r'.state == r.state
      && Keeps(r.tables, r'.tables)
      && (PC.HasMessageId(r.ctx.placeholderMessageId) ==>
            forall m | m in r'.tables.messages :: m.id != r.ctx.placeholderMessageId.value)
      && (!PC.HasMessageId(r.ctx.placeholderMessageId) ==> r'.tables == r.tables)
  {
    if PC.HasMessageId(r.ctx.placeholderMessageId) {
      MessageDeletedKeeps(r.tables, r.ctx.placeholderMessageId.value);
    }
  }

  /**
   * A truthy "error" in the merged state deletes the placeholder card if
   * there is one, sends the error and nothing else: no "done".
   */
  lemma FinalizedOnError(u: Turn, r: Run, checkpoint: map<string, Json>)
    requires TablesOk(r.tables)
    requires Truthy(Lookup(Merged(checkpoint, r.ctx.finalResult), "error", JNull))
    ensures var (r', e) := Finalized(u, r, checkpoint);
      && e.None?
      && r'.sent == r.sent + [Send.Error(PyStr(Lookup(Merged(checkpoint, r.ctx.finalResult), "error", JNull)))]
      && Keeps(r.tables, r'.tables)
      && (PC.HasMessageId(r.ctx.placeholderMessageId) ==>
            forall m | m in r'.tables.messages :: m.id != r.ctx.placeholderMessageId.value)
  {
    ErrorHandledFacts(r, PyStr(Lookup(Merged(checkpoint, r.ctx.finalResult), "error", JNull)));
  }

  /**
   * The stored roadmap is sent with its new id attached: the payload is the
   * roadmap dict with "id" set to the id of the session's one active
   * roadmap. A failed store sends nothing and changes nothing.
   */
  lemma RoadmapSentWithId(u: Turn, r: Run, roadmap: Json)
    requires TablesOk(r.tables)
    ensures var (r', e) := RoadmapHandled(u, r, roadmap);
      e.None? ==>
        && roadmap.JObj?
        && var id := PC.RoadmapPersisted(r.tables, u.sessionId, Some(u.userId), roadmap).value.1;
        && r'.sent == r.sent + [Send.Roadmap(FieldsOf(roadmap)["id" := JInt(id)])]
        && Send.DataField(r'.sent[|r.sent|], "id") == Some(JInt(id))
        && RS.ActiveRoadmaps(r'.tables.roadmaps, u.sessionId) == {id}
  {
    PC.RoadmapPersistedOk(r.tables, u.sessionId, Some(u.userId), roadmap);
  }

  /** The roadmap step changes only the store and the payloads, soundly; a failure changes nothing. */
  lemma RoadmapHandledSound(u: Turn, r: Run, roadmap: Json)
    requires TablesOk(r.tables)
    ensures var (r', e) := RoadmapHandled(u, r, roadmap);
      && (e.Some? ==> r' == r)
      && r'.ctx == r.ctx && r'.state == r.state
      && Sound(r, r')
  {
    var res := PC.RoadmapPersisted(r.tables, u.sessionId, Some(u.userId), roadmap);
    PC.RoadmapPersistedOk(r.tables, u.sessionId, Some(u.userId), roadmap);
    RoadmapHandledShape(u, r, roadmap);
    if res.Ok? {
      var (t, id) := res.value;
      var p := Send.Roadmap(FieldsOf(roadmap)["id" := JInt(id)]);
      StepSound(r, Emit(r.(tables := t), p), [p]);
    } else {
      SoundRefl(r);
    }
  }

  lemma RoadmapHandledShape(u: Turn, r: Run, roadmap: Json)
    ensures var res := PC.RoadmapPersisted(r.tables, u.sessionId, Some(u.userId), roadmap);
      && (res.Err? ==> RoadmapHandled(u, r, roadmap) == (r, Some(res.message)))
      && (res.Ok? ==>
            RoadmapHandled(u, r, roadmap)
              == (Emit(r.(tables := res.value.0), Send.Roadmap(FieldsOf(roadmap)["id" := JInt(res.value.1)])), None))
  {
  }

  /**
   * The navigation step raises on anything but a dict, changing nothing.
   * For a dict it sends the target and then records its message ("" when
   * falsy) as a navigation message in the chat; it raises after the send,
   * recording nothing, exactly when the message is a truthy list or dict
   * or the document id is a list or dict.
   */
  lemma NavigationHandledFacts(u: Turn, r: Run, nav: Json)
    requires TablesOk(r.tables)
    ensures var (r', e) := NavigationHandled(u, r, nav);
      && (!nav.JObj? ==> r' == r && e == Some(NoAttribute(nav, "get")))
      && (nav.JObj? ==>
            var docId := Lookup(nav.fields, "document_id", JNull);
            var message := Lookup(nav.fields, "message", JNull);
            && r'.sent == r.sent + [Send.Navigation(docId, message)]
            && r'.ctx == r.ctx && r'.state == r.state
            && Sound(r, r')
            && (e.Some? <==> (Truthy(message) && !Bindable(message)) || !Bindable(docId))
            && (e.Some? ==> r'.tables == r.tables && e == Some(BindingError))
            && (e.None? ==>
                  && |r'.tables.messages| == |r.tables.messages| + 1
                  && r'.tables.messages[|r.tables.messages|].content == PyStr(Or(message, JStr("")))
                  && r'.tables.messages[|r.tables.messages|].messageType == NavigationType
                  && r'.tables.messages[|r.tables.messages|].relatedDocumentId == PC.DocKey(docId)))
  {
    if nav.JObj? {
      var docId := Lookup(nav.fields, "document_id", JNull);
      var message := Lookup(nav.fields, "message", JNull);
      var p := Send.Navigation(docId, message);
      MS.MessageColumnsFacts(Or(message, JStr("")), JStr(NavigationType), docId);
      var c := MS.MessageColumns(Or(message, JStr("")), JStr(NavigationType), docId);
      if c.Ok? {
        MS.SavedOk(r.tables, u.sessionId, u.userId, MS.AssistantRole, c.value.0, NavigationType, PC.DocKey(docId), JNull, JNull, 0);
        StepSound(r, NavigationHandled(u, r, nav).0, [p]);
      } else {
        StepSound(r, Emit(r, p), [p]);
      }
    }
  }

  /**
   * The response step raises on anything but a dict, changing nothing.
   * For a dict it sends the reply's content as it is; a content without a
   * length (None, a boolean or a number) then raises. Otherwise it records
   * the content ("" when falsy) in the chat with its type (default "chat")
   * and the turn's intent, unless the content is a truthy list or dict or
   * the type is None, a list or a dict, which raises and records nothing.
   */
  lemma ResponseHandledFacts(u: Turn, r: Run, resp: Json)
    requires TablesOk(r.tables)
    ensures var (r', e) := ResponseHandled(u, r, resp);
      && (!resp.JObj? ==> r' == r && e == Some(NoAttribute(resp, "get")))
      && (resp.JObj? ==>
            var content := Lookup(resp.fields, "content", JStr(""));
            var stored := Or(Lookup(resp.fields, "content", JNull), JStr(""));
            var kind := Lookup(resp.fields, "type", JStr(MS.ChatType));
            && r'.sent == r.sent + [Send.Event("content", Some(JObj(map["content" := content])))]
            && r'.ctx == r.ctx && r'.state == r.state
            && Sound(r, r')
            && (!Sized(content) ==> e == Some(NoLen(content)))
            && (e.Some? <==> !Sized(content) || !Bindable(stored) || !Bindable(kind) || kind.JNull?)
            && (e.Some? ==> r'.tables == r.tables)
            && (e.None? ==>
                  && |r'.tables.messages| == |r.tables.messages| + 1
                  && r'.tables.messages[|r.tables.messages|].content == PyStr(stored)
                  && r'.tables.messages[|r.tables.messages|].messageType == PyStr(kind)
                  && r'.tables.messages[|r.tables.messages|].agentIntent == Lookup(r.state, "intent", JNull)))
  {
    if resp.JObj? {
      var content := Lookup(resp.fields, "content", JStr(""));
      var stored := Or(Lookup(resp.fields, "content", JNull), JStr(""));
      var kind := Lookup(resp.fields, "type", JStr(MS.ChatType));
      var p := Send.Event("content", Some(JObj(map["content" := content])));
      assert Send.EventType(p) == Some("content");
      PlainOne(p);
      MS.MessageColumnsFacts(stored, kind, JNull);
      var c := MS.MessageColumns(stored, kind, JNull);
      if Sized(content) && c.Ok? {
        MS.SavedOk(r.tables, u.sessionId, u.userId, MS.AssistantRole, c.value.0, c.value.1, None, Lookup(r.state, "intent", JNull), JNull, 0);
        StepSound(r, ResponseHandled(u, r, resp).0, [p]);
      } else {
        StepSound(r, Emit(r, p), [p]);
      }
    }
  }

  /** The types of a run of payloads. */
  function Types(ps: seq<Json>): seq<Option<string>> {
    seq(|ps|, i requires 0 <= i < |ps| => Send.EventType(ps[i]))
  }

  /** The type of a payload sent only when `b` holds. */
  function When(b: bool, eventType: string): seq<Option<string>> {
    if b then [Some(eventType)] else []
  }

  lemma TypesConcat(a: seq<Json>, b: seq<Json>)
    ensures Types(a + b) == Types(a) + Types(b)
  {
  }

  lemma TypesWhen(b: bool, t: string, p: Json)
    requires b ==> Send.EventType(p) == Some(t)
    ensures Types(if b then [p] else []) == When(b, t)
  {
  }

  /**
   * How the results steps from `r` end: the store invariants hold, the
   * outbox was only appended to, and either a step raised and no "done"
   * was sent, or the payloads sent have the given types, the last being
   * "done" and the only one.
   */
  predicate Finishes(r: Run, r': Run, e: Option<string>, types: seq<Option<string>>) {
    && Keeps(r.tables, r'.tables)
    && |r.sent| <= |r'.sent| && r'.sent[..|r.sent|] == r.sent
    && (e.Some? ==> NoDoneFrom(r'.sent, |r.sent|))
    && (e.None? ==>
          && |r'.sent| > |r.sent| && r'.sent[|r'.sent| - 1] == Send.Done()
          && NoDoneFrom(r'.sent[..|r'.sent| - 1], |r.sent|)
          && Types(r'.sent[|r.sent|..]) == types)
  }

  lemma FinishesRaised(r: Run, r': Run, e: Option<string>, types: seq<Option<string>>)
    requires Sound(r, r') && e.Some?
    ensures Finishes(r, r', e, types)
  {
  }

  /** A sound step that sends `ps`, followed by steps that finish, finishes. */
  lemma FinishesAfter(r: Run, r1: Run, r': Run, e: Option<string>, ps: seq<Json>, types: seq<Option<string>>)
    requires Sound(r, r1) && r1.sent == r.sent + ps
    requires Finishes(r1, r', e, types)
    ensures Finishes(r, r', e, Types(ps) + types)
  {
    PrefixTrans(r.sent, r1.sent, r'.sent);
    if e.Some? {
      NoDoneExtend(r1.sent, r'.sent, |r.sent|);
    } else {
      var body := r'.sent[..|r'.sent| - 1];
      assert body[..|r1.sent|] == r1.sent;
      NoDoneExtend(r1.sent, body, |r.sent|);
      assert r'.sent[|r.sent|..] == ps + r'.sent[|r1.sent|..];
      TypesConcat(ps, r'.sent[|r1.sent|..]);
    }
  }

  /** The end of a successful turn: the streamed text when nothing else answered, then "done". */
  lemma ConcludedFacts(r: Run, rs: map<string, Json>)
    requires TablesOk(r.tables)
    ensures Finishes(r, Concluded(r, rs), None, When(SendsAccumulated(r, rs), "content") + [Some("done")])
  {
    var b := SendsAccumulated(r, rs);
    var p := Send.Content(r.ctx.accumulatedContent);
    var r1 := if b then Emit(r, p) else r;
    if b {
      EmitPlain(r, p);
    } else {
      SoundRefl(r);
      assert r.sent + [] == r.sent;
    }
    DoneFinishes(r1);
    TypesWhen(b, "content", p);
    FinishesAfter(r, r1, Concluded(r, rs), None, if b then [p] else [], [Some("done")]);
  }

  lemma DoneFinishes(r: Run)
    requires TablesOk(r.tables)
    ensures Finishes(r, Emit(r, Send.Done()), None, [Some("done")])
  {
    PrefixAppend(r.sent, [Send.Done()]);
    assert Emit(r, Send.Done()).sent[|r.sent|..] == [Send.Done()];
  }

  lemma ResponseOnwardFacts(u: Turn, r: Run, rs: map<string, Json>)
    requires TablesOk(r.tables)
    ensures var (r', e) := ResponseOnward(u, r, rs);
      Finishes(r, r', e, When(Truthy(Lookup(rs, "response", JNull)), "content")
                         + (When(SendsAccumulated(r, rs), "content") + [Some("done")]))
  {
    var b := Truthy(Lookup(rs, "response", JNull));
    var (r3, e3) := if b then ResponseHandled(u, r, rs["response"]) else (r, None);
    if b {
      ResponseHandledFacts(u, r, rs["response"]);
    } else {
      SoundRefl(r);
    }
    if e3.Some? {
      FinishesRaised(r, r3, e3, When(b, "content") + (When(SendsAccumulated(r, rs), "content") + [Some("done")]));
    } else {
      var p := if b then r3.sent[|r.sent|] else Send.Done();
      assert r3.sent == r.sent + (if b then [p] else []);
      TypesWhen(b, "content", p);
      ConcludedFacts(r3, rs);
      assert SendsAccumulated(r3, rs) == SendsAccumulated(r, rs);
      FinishesAfter(r, r3, Concluded(r3, rs), None, if b then [p] else [], When(SendsAccumulated(r, rs), "content") + [Some("done")]);
    }
  }

  /** The navigation step of the results: sound, and when it does not raise it sends the navigation payload or nothing. */
  lemma NavigationStepFacts(u: Turn, r: Run, rs: map<string, Json>)
    requires TablesOk(r.tables)
    ensures var b := Truthy(Lookup(rs, "navigation_target", JNull));
      var (r2, e2) := if b then NavigationHandled(u, r, rs["navigation_target"]) else (r, None);
      && Sound(r, r2) && r2.state == r.state && r2.ctx == r.ctx
      && (e2.None? && b ==>
            |r2.sent| == |r.sent| + 1 && r2.sent == r.sent + [r2.sent[|r.sent|]]
            && Send.EventType(r2.sent[|r.sent|]) == Some("navigation"))
      && (e2.None? && !b ==> r2.sent == r.sent)
  {
    if Truthy(Lookup(rs, "navigation_target", JNull)) {
      NavigationHandledFacts(u, r, rs["navigation_target"]);
    } else {
      SoundRefl(r);
    }
  }

  lemma NavigationOnwardFacts(u: Turn, r: Run, rs: map<string, Json>)
    requires TablesOk(r.tables)
    ensures var (r', e) := NavigationOnward(u, r, rs);
      Finishes(r, r', e, When(Truthy(Lookup(rs, "navigation_target", JNull)), "navigation")
                         + (When(Truthy(Lookup(rs, "response", JNull)), "content")
                            + (When(SendsAccumulated(r, rs), "content") + [Some("done")])))
  {
    var b := Truthy(Lookup(rs, "navigation_target", JNull));
    var rest := When(Truthy(Lookup(rs, "response", JNull)), "content") + (When(SendsAccumulated(r, rs), "content") + [Some("done")]);
    var (r2, e2) := if b then NavigationHandled(u, r, rs["navigation_target"]) else (r, None);
    NavigationStepFacts(u, r, rs);
    if e2.Some? {
      FinishesRaised(r, r2, e2, When(b, "navigation") + rest);
    } else {
      var p := if b then r2.sent[|r.sent|] else Send.Done();
      TypesWhen(b, "navigation", p);
      ResponseOnwardFacts(u, r2, rs);
      assert SendsAccumulated(r2, rs) == SendsAccumulated(r, rs);
      var (r', e) := ResponseOnward(u, r2, rs);
      FinishesAfter(r, r2, r', e, if b then [p] else [], rest);
    }
  }

  /**
   * The results steps send, in this order: the roadmap, the navigation,
   * the response, each when its key is truthy, then the streamed text when
   * there is no document and no response, and then "done", last and once.
   * A step that raises stops them, and no "done" is sent. The store
   * invariants hold in every case.
   */
  lemma ResultsOrder(u: Turn, r: Run, rs: map<string, Json>)
    requires TablesOk(r.tables)
    ensures var (r', e) := ResultsHandled(u, r, rs);
      Finishes(r, r', e, When(Truthy(Lookup(rs, "roadmap", JNull)), "roadmap")
                         + (When(Truthy(Lookup(rs, "navigation_target", JNull)), "navigation")
                            + (When(Truthy(Lookup(rs, "response", JNull)), "content")
                               + (When(SendsAccumulated(r, rs), "content") + [Some("done")]))))
  {
    var b := Truthy(Lookup(rs, "roadmap", JNull));
    var rest := When(Truthy(Lookup(rs, "navigation_target", JNull)), "navigation")
                + (When(Truthy(Lookup(rs, "response", JNull)), "content") + (When(SendsAccumulated(r, rs), "content") + [Some("done")]));
    var (r1, e1) := if b then RoadmapHandled(u, r, rs["roadmap"]) else (r, None);
    RoadmapStepFacts(u, r, rs);
    if e1.Some? {
      FinishesRaised(r, r1, e1, When(b, "roadmap") + rest);
    } else {
      var p := if b then r1.sent[|r.sent|] else Send.Done();
      TypesWhen(b, "roadmap", p);
      NavigationOnwardFacts(u, r1, rs);
      assert SendsAccumulated(r1, rs) == SendsAccumulated(r, rs);
      var (r', e) := NavigationOnward(u, r1, rs);
      FinishesAfter(r, r1, r', e, if b then [p] else [], rest);
    }
  }

  /** The roadmap step of the results: sound, and when it does not raise it sends the roadmap payload or nothing. */
  lemma RoadmapStepFacts(u: Turn, r: Run, rs: map<string, Json>)
    requires TablesOk(r.tables)
    ensures var b := Truthy(Lookup(rs, "roadmap", JNull));
      var (r1, e1) := if b then RoadmapHandled(u, r, rs["roadmap"]) else (r, None);
      && Sound(r, r1) && r1.state == r.state && r1.ctx == r.ctx
      && (e1.None? && b ==>
            |r1.sent| == |r.sent| + 1 && r1.sent == r.sent + [r1.sent[|r.sent|]]
            && Send.EventType(r1.sent[|r.sent|]) == Some("roadmap"))
      && (e1.None? && !b ==> r1.sent == r.sent)
  {
    if Truthy(Lookup(rs, "roadmap", JNull)) {
      RoadmapHandledSound(u, r, rs["roadmap"]);
      RoadmapHandledShape(u, r, rs["roadmap"]);
    } else {
      SoundRefl(r);
    }
  }

  // ---------------------------------------------------------------------
  // The whole turn
  // ---------------------------------------------------------------------

  /** `finalize` gets as far as "done": no truthy error in the merged state and no step raises. */
  predicate FinalizeSucceeds(u: Turn, r: Run, checkpoint: map<string, Json>) {
    var rs := Merged(checkpoint, r.ctx.finalResult);
    !Truthy(Lookup(rs, "error", JNull)) && ResultsHandled(u, r, rs).1.None?
  }

  /** The turn reaches "done": nothing raised before finalize and finalize succeeds. */
  predicate TurnSucceeds(u: Turn, r: Run, events: seq<GraphEvent>, checkpoint: map<string, Json>) {
    var (r2, e2) := Prepared(u, r, events);
    e2.None? && FinalizeSucceeds(u, r2, checkpoint)
  }

  lemma InitializedFacts(u: Turn, r: Run)
    requires TablesOk(r.tables)
    ensures Sound(r, Initialized(u, r))
    ensures Initialized(u, r).sent == r.sent + [Send.Thinking(Send.ThinkingDefault)]
  {
    StatusSetKeeps(r.tables, u.sessionId, SS.RunningStatus);
    StepSound(r, Initialized(u, r), [Send.Thinking(Send.ThinkingDefault)]);
  }

  lemma UserInputPersistedFacts(u: Turn, r: Run)
    requires TablesOk(r.tables)
    ensures Sound(r, UserInputPersisted(u, r).0)
    ensures UserInputPersisted(u, r).0.sent == r.sent
  {
    if "raw_message" in r.state && "input_source" in r.state {
      SavedKeeps(r.tables, u.sessionId, u.userId, MS.UserRole, TextOf(r.state["raw_message"]), TextOf(r.state["input_source"]), None, JNull, JNull);
      StepSound(r, UserInputPersisted(u, r).0, []);
    } else {
      SoundRefl(r);
    }
  }

  lemma PreparedSound(u: Turn, r: Run, events: seq<GraphEvent>)
    requires TablesOk(r.tables)
    ensures Sound(r, Prepared(u, r, events).0)
    ensures |Prepared(u, r, events).0.sent| > |r.sent| && Prepared(u, r, events).0.sent[|r.sent|] == Send.Thinking(Send.ThinkingDefault)
  {
    var r0 := Initialized(u, r);
    InitializedFacts(u, r);
    var (r1, e1) := UserInputPersisted(u, r0);
    UserInputPersistedFacts(u, r0);
    SoundTrans(r, r0, r1);
    var r2 := Prepared(u, r, events).0;
    if e1.None? {
      EventsHandledSound(u, r1, events);
      SoundTrans(r, r1, r2);
    }
    PrefixIndex(r1.sent, r2.sent, |r.sent|);
  }

  /** Two stretches without "done" make one. */
  lemma {:induction false} NoDoneExtend(ps: seq<Json>, qs: seq<Json>, n: nat)
    requires |ps| <= |qs| && qs[..|ps|] == ps
    requires NoDoneFrom(ps, n) && NoDoneFrom(qs, |ps|)
    ensures NoDoneFrom(qs, n)
  {
    forall i | n <= i < |qs|
      ensures !IsDone(qs[i])
    {
      if i < |ps| {
        PrefixIndex(ps, qs, i);
      }
    }
  }

  /**
   * How a stretch of the turn from `r` ends: the store invariants hold and
   * the outbox was only appended to; when it succeeds "done" is the last
   * payload and the only one; otherwise no "done" is sent, and unless
   * something raised the last payload is an error.
   */
  predicate Ends(r: Run, r': Run, e: Option<string>, succeeds: bool) {
    && Keeps(r.tables, r'.tables)
    && |r.sent| <= |r'.sent| && r'.sent[..|r.sent|] == r.sent
    && (succeeds ==>
          && e.None? && |r'.sent| > |r.sent| && IsDone(r'.sent[|r'.sent| - 1])
          && NoDoneFrom(r'.sent[..|r'.sent| - 1], |r.sent|))
    && (!succeeds ==>
          && NoDoneFrom(r'.sent, |r.sent|)
          && (e.None? ==> |r'.sent| > |r.sent| && Send.EventType(r'.sent[|r'.sent| - 1]) == Some("error")))
  }

  lemma FinishesEnds(r: Run, r': Run, e: Option<string>, types: seq<Option<string>>)
    requires Finishes(r, r', e, types)
    ensures Ends(r, r', e, e.None?)
  {
  }

  lemma ErrorEnds(r: Run, r': Run, message: string)
    requires Keeps(r.tables, r'.tables) && r'.sent == r.sent + [Send.Error(message)]
    ensures Ends(r, r', None, false)
  {
    PrefixAppend(r.sent, [Send.Error(message)]);
  }

  /** A sound stretch followed by one that ends, ends the same way. */
  lemma EndsAfter(r: Run, r1: Run, r': Run, e: Option<string>, succeeds: bool)
    requires Sound(r, r1) && Ends(r1, r', e, succeeds)
    ensures Ends(r, r', e, succeeds)
  {
    PrefixTrans(r.sent, r1.sent, r'.sent);
    if succeeds {
      var body := r'.sent[..|r'.sent| - 1];
      assert body[..|r1.sent|] == r1.sent;
      NoDoneExtend(r1.sent, body, |r.sent|);
    } else {
      NoDoneExtend(r1.sent, r'.sent, |r.sent|);
    }
  }

  lemma SoundEnds(r: Run, r': Run, e: Option<string>)
    requires Sound(r, r') && e.Some?
    ensures Ends(r, r', e, false)
  {
  }

  /**
   * `finalize` keeps the store invariants and only appends; it sends
   * "done" exactly when it succeeds, and then as its last payload and only
   * once; when it fails without raising, its last payload is the error.
   */
  lemma FinalizedDone(u: Turn, r: Run, checkpoint: map<string, Json>)
    requires TablesOk(r.tables)
    ensures var (r', e) := Finalized(u, r, checkpoint);
      Ends(r, r', e, FinalizeSucceeds(u, r, checkpoint))
  {
    var rs := Merged(checkpoint, r.ctx.finalResult);
    if Truthy(Lookup(rs, "error", JNull)) {
      var m := PyStr(Lookup(rs, "error", JNull));
      ErrorHandledFacts(r, m);
      ErrorEnds(r, ErrorHandled(r, m), m);
    } else {
      ResultsOrder(u, r, rs);
      var (r', e) := ResultsHandled(u, r, rs);
      FinishesEnds(r, r', e, When(Truthy(Lookup(rs, "roadmap", JNull)), "roadmap")
                         + (When(Truthy(Lookup(rs, "navigation_target", JNull)), "navigation")
                            + (When(Truthy(Lookup(rs, "response", JNull)), "content")
                               + (When(SendsAccumulated(r, rs), "content") + [Some("done")]))));
    }
  }

  /**
   * The try block of a turn: it starts with the thinking indicator and
   * ends as `Ends` says, succeeding exactly when the turn succeeds.
   */
  lemma AttemptedFacts(u: Turn, r: Run, events: seq<GraphEvent>, checkpoint: map<string, Json>)
    requires TablesOk(r.tables)
    ensures var (r3, e3) := Attempted(u, r, events, checkpoint);
      && Ends(r, r3, e3, TurnSucceeds(u, r, events, checkpoint))
      && |r3.sent| > |r.sent| && r3.sent[|r.sent|] == Send.Thinking(Send.ThinkingDefault)
  {
    PreparedSound(u, r, events);
    var (r2, e2) := Prepared(u, r, events);
    var (r3, e3) := Attempted(u, r, events, checkpoint);
    if e2.Some? {
      SoundEnds(r, r2, e2);
    } else {
      FinalizedDone(u, r2, checkpoint);
      EndsAfter(r, r2, r3, e3, FinalizeSucceeds(u, r2, checkpoint));
      PrefixIndex(r2.sent, r3.sent, |r.sent|);
    }
  }

  /**
   * What a whole turn from `r` guarantees: the store invariants hold and
   * no session was added or lost, the session is idle, the outbox was only
   * appended to, and "done" is the last payload and the only one when the
   * turn succeeds; otherwise no "done" is sent and the last payload is an
   * error.
   */
  predicate Streams(u: Turn, r: Run, r': Run, succeeds: bool) {
    && Keeps(r.tables, r'.tables)
    && (u.sessionId in r.tables.sessions ==> r'.tables.sessions[u.sessionId].agentStatus == SS.IdleStatus)
    && |r'.sent| > |r.sent| && r'.sent[..|r.sent|] == r.sent
    && (succeeds ==> IsDone(r'.sent[|r'.sent| - 1]) && NoDoneFrom(r'.sent[..|r'.sent| - 1], |r.sent|))
    && (!succeeds ==> NoDoneFrom(r'.sent, |r.sent|) && Send.EventType(r'.sent[|r'.sent| - 1]) == Some("error"))
  }

  /**
   * The end of a turn, given what the try block left: the error it raised
   * is reported as the last payload, and the session goes idle.
   */
  lemma ClosedFacts(u: Turn, r: Run, r3: Run, e3: Option<string>, succeeds: bool)
    requires Ends(r, r3, e3, succeeds) && |r3.sent| > |r.sent|
    ensures Streams(u, r, Closed(u, r3, e3), succeeds)
    ensures Closed(u, r3, e3).sent[|r.sent|] == r3.sent[|r.sent|]
  {
    var r4 := if e3.Some? then Emit(r3, Send.Error(StreamErrorText(e3.value))) else r3;
    if e3.Some? {
      PrefixAppend(r3.sent, [Send.Error(StreamErrorText(e3.value))]);
      PrefixTrans(r.sent, r3.sent, r4.sent);
      PrefixIndex(r3.sent, r4.sent, |r.sent|);
      NoDoneExtend(r3.sent, r4.sent, |r.sent|);
    }
    StatusSetKeeps(r4.tables, u.sessionId, SS.IdleStatus);
  }

  /**
   * The whole turn: the store invariants hold and the session is idle
   * afterwards, whatever happened; the first payload is the thinking
   * indicator; "done" is sent exactly when the turn succeeds, and then
   * last and once; otherwise the last payload is an error.
   */
  lemma StreamedFacts(u: Turn, r: Run, events: seq<GraphEvent>, checkpoint: map<string, Json>)
    requires TablesOk(r.tables)
    ensures Streams(u, r, Streamed(u, r, events, checkpoint), TurnSucceeds(u, r, events, checkpoint))
    ensures Streamed(u, r, events, checkpoint).sent[|r.sent|] == Send.Thinking(Send.ThinkingDefault)
  {
    AttemptedFacts(u, r, events, checkpoint);
    var (r3, e3) := Attempted(u, r, events, checkpoint);
    ClosedFacts(u, r, r3, e3, TurnSucceeds(u, r, events, checkpoint));
  }
}
