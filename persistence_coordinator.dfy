/**
 * The persistence steps of one agent turn: the placeholder message shown
 * while a document is generated, storing the generated document, and
 * validating, normalising and storing a generated roadmap.
 */
module PersistenceCoordinator {
  import opened Wrappers
  import opened Text
  import opened Json
  import opened Store
  import DS = DocumentService
  import SS = SessionService
  import MS = MessageService
  import RS = RoadmapService

  const PlaceholderContent := "🔄 正在生成学习文档..."
  const DocumentCardType := "document_card"
  const DefaultDocTopic := "学习文档"
  const CompletionPrefix := "📚 已生成学习文档："
  const DefaultChangeSummary := "更新"

  // ---------------------------------------------------------------------
  // Messages
  // ---------------------------------------------------------------------

  /** `persist_user_message` */
  method PersistUserMessage(db: Db, sessionId: string, userId: int, content: string, messageType: string, relatedDocumentId: Option<int>)
    returns (m: MessageRow)
    modifies db
    ensures (db.Snapshot(), m) == MS.Saved(old(db.Snapshot()), sessionId, userId, MS.UserRole, content, messageType, relatedDocumentId, JNull, JNull, 0)
  {
    m := MS.SaveUserMessage(db, sessionId, userId, content, messageType, relatedDocumentId);
  }

  /** `persist_assistant_message`: no token count is passed, so it is 0. */
  method PersistAssistantMessage(db: Db, sessionId: string, userId: int, content: string, messageType: string,
                                 relatedDocumentId: Option<int>, agentIntent: Json, agentRouting: Json)
    returns (m: MessageRow)
    modifies db
    ensures (db.Snapshot(), m) == MS.Saved(old(db.Snapshot()), sessionId, userId, MS.AssistantRole, content, messageType,
                                           relatedDocumentId, agentIntent, agentRouting, 0)
  {
    m := MS.SaveAssistantMessage(db, sessionId, userId, content, messageType, relatedDocumentId, agentIntent, agentRouting, 0);
  }

  /** The tables after `create_placeholder_message`, and the placeholder. */
  function PlaceholderCreated(t: Tables, sessionId: string, userId: int): (Tables, MessageRow) {
    MS.Saved(t, sessionId, userId, MS.AssistantRole, PlaceholderContent, DocumentCardType, None, JNull, JNull, 0)
  }

  /** `create_placeholder_message`; the topic is only logged. */
  method CreatePlaceholderMessage(db: Db, sessionId: string, userId: int, topic: Json) returns (m: MessageRow)
    modifies db
    ensures (db.Snapshot(), m) == PlaceholderCreated(old(db.Snapshot()), sessionId, userId)
  {
    m := MS.SaveAssistantMessage(db, sessionId, userId, PlaceholderContent, DocumentCardType, None, JNull, JNull, 0);
  }

  /** The completion text of a placeholder; a falsy topic reads as the default title. */
  function CompletionText(topic: Json): string {
    CompletionPrefix + PyStr(Or(topic, JStr(DefaultDocTopic)))
  }

  /** `if message_id:` */
  predicate HasMessageId(messageId: Option<int>) {
    messageId.Some? && messageId.value != 0
  }

  /** The tables after `update_placeholder_message`. */
  function PlaceholderUpdated(t: Tables, messageId: Option<int>, sessionId: string, userId: int, docId: int, topic: Json): Tables {
    var text := CompletionText(topic);
    if HasMessageId(messageId) then
      MS.MessageDocumentUpdated(MS.MessageContentUpdated(t, messageId.value, text), messageId.value, docId)
    else
      MS.Saved(t, sessionId, userId, MS.AssistantRole, text, DocumentCardType, Some(docId), JNull, JNull, 0).0
  }

  /** `update_placeholder_message`: complete the placeholder, or add a completed card when there is none. */
  method UpdatePlaceholderMessage(db: Db, messageId: Option<int>, sessionId: string, userId: int, docId: int, topic: Json)
    modifies db
    ensures db.Snapshot() == PlaceholderUpdated(old(db.Snapshot()), messageId, sessionId, userId, docId, topic)
  {
    var docTopic := Or(topic, JStr(DefaultDocTopic));
    var text := CompletionPrefix + PyStr(docTopic);
    if messageId.Some? && messageId.value != 0 {
      MS.UpdateMessageContent(db, messageId.value, text);
      MS.UpdateMessageDocument(db, messageId.value, docId);
    } else {
      var _ := MS.SaveAssistantMessage(db, sessionId, userId, text, DocumentCardType, Some(docId), JNull, JNull, 0);
    }
  }

  /**
   * With a placeholder id, no message is added: the message with that id
   * gets the completion text and is linked to the document, and every
   * other message is as it was. Without one, exactly one new document card
   * carrying the completion text and the document link is appended. In
   * both cases the completion text names the topic, or "学习文档" for a
   * falsy topic, no other table changes and the table invariants hold.
   */
  lemma PlaceholderUpdatedOk(t: Tables, messageId: Option<int>, sessionId: string, userId: int, docId: int, topic: Json)
    requires TablesOk(t)
    ensures var t' := PlaceholderUpdated(t, messageId, sessionId, userId, docId, topic);
      && TablesOk(t')
      && CompletionText(topic) == CompletionPrefix + (if Truthy(topic) then PyStr(topic) else DefaultDocTopic)
      && t' == t.(messages := t'.messages, nextMessageId := t'.nextMessageId, clock := t'.clock)
    ensures HasMessageId(messageId) ==>
      var t' := PlaceholderUpdated(t, messageId, sessionId, userId, docId, topic);
      && |t'.messages| == |t.messages| && t'.nextMessageId == t.nextMessageId
      && (forall i | 0 <= i < |t.messages| ::
            t'.messages[i] == if t.messages[i].id == messageId.value
                              then t.messages[i].(content := CompletionText(topic), relatedDocumentId := Some(docId))
                              else t.messages[i])
    ensures !HasMessageId(messageId) ==>
      var t' := PlaceholderUpdated(t, messageId, sessionId, userId, docId, topic);
      && |t'.messages| == |t.messages| + 1 && t'.messages[..|t.messages|] == t.messages
      && var m := t'.messages[|t.messages|];
      && m.role == MS.AssistantRole && m.messageType == DocumentCardType && m.content == CompletionText(topic)
      && m.relatedDocumentId == Some(docId) && m.sessionId == sessionId
  {
    var t' := PlaceholderUpdated(t, messageId, sessionId, userId, docId, topic);
    if HasMessageId(messageId) {
      var t1 := MS.MessageContentUpdated(t, messageId.value, CompletionText(topic));
      assert forall i | 0 <= i < |t.messages| :: t1.messages[i].id == t.messages[i].id && t1.messages[i].timestamp == t.messages[i].timestamp;
      assert forall i | 0 <= i < |t.messages| :: t'.messages[i].id == t.messages[i].id && t'.messages[i].timestamp == t.messages[i].timestamp;
      assert MessageTableOk(t'.messages, t'.nextMessageId, t'.clock);
    } else {
      MS.SavedOk(t, sessionId, userId, MS.AssistantRole, CompletionText(topic), DocumentCardType, Some(docId), JNull, JNull, 0);
    }
  }

  // ---------------------------------------------------------------------
  // persist_document
  // ---------------------------------------------------------------------

  /** The text of `str(KeyError(k))`. */
  function KeyErrorText(k: string): string {
    "'" + k + "'"
  }

  /** A stored document id; other values find no document. */
  function DocKey(v: Json): Option<int> {
    if v.JInt? then Some(v.i) else None
  }

  /**
   * The `create_document` call the create branch makes: its keyword
   * arguments that `create_document` declares, and the names of the ones
   * it does not declare.
   */
  datatype CreateCall = CreateCall(doc: DS.NewDocument, undeclared: seq<string>)

  function CreateCallOf(sessionId: string, userId: int, f: map<string, Json>, inputSource: string, currentDocId: Json,
                        intent: Json, routing: Json): CreateCall
  {
    var entities := Lookup(f, "entities", JArr([]));
    CreateCall(
      DS.NewDocument(sessionId, userId, Lookup(f, "topic", JStr("")), Lookup(f, "content", JStr("")),
                     Lookup(f, "category_path", JNull), if entities.JArr? then Some(entities.items) else None,
                     JObj(map["intent" := intent, "routing" := routing]),
                     if inputSource == "follow_up" then currentDocId else JNull),
      ["roadmap_id", "milestone_id"])
  }

  /** The TypeError a call with undeclared keyword arguments raises, naming the first. */
  function UnexpectedKeyword(c: CreateCall): string {
    if c.undeclared == [] then "" else "create_document() got an unexpected keyword argument '" + c.undeclared[0] + "'"
  }

  /** The update branch: a truthy "id" in the document dict. */
  predicate IsUpdate(f: map<string, Json>) {
    Truthy(Lookup(f, "id", JNull))
  }

  /**
   * The tables after `persist_document`, with the document id and the
   * topic it reports; an error when it raises.
   */
  function DocumentPersisted(t: Tables, sessionId: string, userId: int, docData: Json, changeSummary: Json,
                             inputSource: string, currentDocId: Json, intent: Json, routing: Json): Result<(Tables, int, Json)>
  {
    if !docData.JObj? then Err(NoAttribute(docData, "get"))
    else
      var f := docData.fields;
      if IsUpdate(f) then
        if "content" !in f then Err(KeyErrorText("content"))
        else if DocKey(f["id"]).None? then Err("Document " + PyStr(f["id"]) + " not found")
        else
          var id := DocKey(f["id"]).value;
          match DS.Updated(t, id, f["content"], Or(changeSummary, JStr(DefaultChangeSummary)), "updated")
          case Err(e) => Err(e)
          case Ok(t1) =>
            match SS.CurrentDocumentUpdated(t1, sessionId, id)
            case Err(e) => Err(e)
            case Ok(t2) => Ok((t2, id, Lookup(f, "topic", JStr(DefaultDocTopic))))
      else Err(UnexpectedKeyword(CreateCallOf(sessionId, userId, f, inputSource, currentDocId, intent, routing)))
  }

  /** `persist_document`; a failure rolls the store back to where it was. */
  method PersistDocument(db: Db, sessionId: string, userId: int, docData: Json, changeSummary: Json,
                         inputSource: string, currentDocId: Json, intent: Json, routing: Json)
    returns (r: Result<(int, Json)>)
    modifies db
    ensures DocumentPersisted(old(db.Snapshot()), sessionId, userId, docData, changeSummary, inputSource, currentDocId, intent, routing).Err? ==>
      && r == Err(DocumentPersisted(old(db.Snapshot()), sessionId, userId, docData, changeSummary, inputSource, currentDocId, intent, routing).message)
      && db.Snapshot() == old(db.Snapshot())
    ensures DocumentPersisted(old(db.Snapshot()), sessionId, userId, docData, changeSummary, inputSource, currentDocId, intent, routing).Ok? ==>
      var (t', id, topic) := DocumentPersisted(old(db.Snapshot()), sessionId, userId, docData, changeSummary, inputSource, currentDocId, intent, routing).value;
      db.Snapshot() == t' && r == Ok((id, topic))
  {
    var start := db.Snapshot();
    ghost var spec := DocumentPersisted(start, sessionId, userId, docData, changeSummary, inputSource, currentDocId, intent, routing);
    if !docData.JObj? {
      return Err(NoAttribute(docData, "get"));
    }
    var f := docData.fields;
    if !Truthy(Lookup(f, "id", JNull)) {
      var call := CreateCallOf(sessionId, userId, f, inputSource, currentDocId, intent, routing);
      return Err(UnexpectedKeyword(call));
    }
    if "content" !in f {
      return Err(KeyErrorText("content"));
    }
    if !f["id"].JInt? {
      return Err("Document " + PyStr(f["id"]) + " not found");
    }
    var id := f["id"].i;
    ghost var updated := DS.Updated(start, id, f["content"], Or(changeSummary, JStr(DefaultChangeSummary)), "updated");
    var u := DS.UpdateDocument(db, id, f["content"], Or(changeSummary, JStr(DefaultChangeSummary)), "updated");
    if u.Err? {
      assert spec == Err(updated.message);
      return Err(u.message);
    }
    ghost var t1 := db.Snapshot();
    assert t1 == updated.value;
    var s := SS.UpdateCurrentDocument(db, sessionId, id);
    if s.Err? {
      assert spec == Err(SS.SessionNotFound(sessionId));
      db.Restore(start);
      return Err(s.message);
    }
    assert spec == Ok((db.Snapshot(), id, Lookup(f, "topic", JStr(DefaultDocTopic))));
    r := Ok((id, Lookup(f, "topic", JStr(DefaultDocTopic))));
  }

  /**
   * The update branch: a dict with a truthy integer "id" naming a stored
   * document and a "content" key bumps that document's version by one,
   * replaces its content, records the change summary (or "更新" when it is
   * falsy) in the history, pins the document as the session's current one
   * and reports the dict's "topic" (default "学习文档"). A missing document
   * or session is an error and changes nothing, and so is a flush that
   * rejects the content (None, a list or a dict) or the change summary (a
   * truthy list or dict).
   */
  lemma PersistDocumentUpdates(t: Tables, sessionId: string, userId: int, f: map<string, Json>, changeSummary: Json,
                               inputSource: string, currentDocId: Json, intent: Json, routing: Json, id: int)
    requires TablesOk(t)
    requires "id" in f && f["id"] == JInt(id) && id != 0 && "content" in f
    ensures var r := DocumentPersisted(t, sessionId, userId, JObj(f), changeSummary, inputSource, currentDocId, intent, routing);
      && (r.Ok? <==> id in t.documents && sessionId in t.sessions && Bindable(f["content"]) && !f["content"].JNull?
                     && !(Truthy(changeSummary) && !Bindable(changeSummary)))
      && (r.Ok? ==>
            var (t', docId, topic) := r.value;
            && docId == id
            && topic == Lookup(f, "topic", JStr(DefaultDocTopic))
            && TablesOk(t')
            && t'.documents[id].version == t.documents[id].version + 1
            && t'.documents[id].content == PyStr(f["content"])
            && t'.versions == t.versions + [VersionRow(id, t.documents[id].version + 1, PyStr(f["content"]),
                                                       Some(if Truthy(changeSummary) then PyStr(changeSummary) else DefaultChangeSummary), "updated")]
            && t'.sessions[sessionId].currentDocumentId == Some(id)
            && t'.documents.Keys == t.documents.Keys)
  {
    var r := DocumentPersisted(t, sessionId, userId, JObj(f), changeSummary, inputSource, currentDocId, intent, routing);
    PersistDocumentUpdateOutcome(t, sessionId, userId, f, changeSummary, inputSource, currentDocId, intent, routing, id);
    if r.Ok? {
      var content := f["content"];
      var summary := Or(changeSummary, JStr(DefaultChangeSummary));
      assert ColumnText(summary) == Some(if Truthy(changeSummary) then PyStr(changeSummary) else DefaultChangeSummary);
      DS.UpdatedOk(t, id, content, summary, "updated");
      DS.UpdatedKeepsTables(t, id, content, summary, "updated");
      var t1 := DS.Updated(t, id, content, summary, "updated").value;
      SS.CurrentDocumentEffect(t1, sessionId, id);
      SessionsOnlyKeepsTables(t1, SS.CurrentDocumentUpdated(t1, sessionId, id).value);
    }
  }

  lemma PersistDocumentUpdateOutcome(t: Tables, sessionId: string, userId: int, f: map<string, Json>, changeSummary: Json,
                                     inputSource: string, currentDocId: Json, intent: Json, routing: Json, id: int)
    requires "id" in f && f["id"] == JInt(id) && id != 0 && "content" in f
    ensures var r := DocumentPersisted(t, sessionId, userId, JObj(f), changeSummary, inputSource, currentDocId, intent, routing);
      var u := DS.Updated(t, id, f["content"], Or(changeSummary, JStr(DefaultChangeSummary)), "updated");
      && (r.Ok? <==> id in t.documents && sessionId in t.sessions && Bindable(f["content"]) && !f["content"].JNull?
                     && !(Truthy(changeSummary) && !Bindable(changeSummary)))
      && (r.Ok? ==> u.Ok? && SS.CurrentDocumentUpdated(u.value, sessionId, id).Ok?
                    && r.value == (SS.CurrentDocumentUpdated(u.value, sessionId, id).value, id, Lookup(f, "topic", JStr(DefaultDocTopic))))
  {
    var content := f["content"];
    var summary := Or(changeSummary, JStr(DefaultChangeSummary));
    assert Bindable(summary) <==> !(Truthy(changeSummary) && !Bindable(changeSummary));
    assert IsUpdate(f) && DocKey(f["id"]) == Some(id);
    DS.UpdatedOk(t, id, content, summary, "updated");
    if DS.Updated(t, id, content, summary, "updated").Ok? {
      var t1 := DS.Updated(t, id, content, summary, "updated").value;
      SS.CurrentDocumentEffect(t1, sessionId, id);
    }
  }

  /** The table invariants say nothing about sessions, so a change of sessions alone keeps them. */
  lemma SessionsOnlyKeepsTables(t: Tables, t': Tables)
    requires TablesOk(t) && t' == t.(sessions := t'.sessions)
    ensures TablesOk(t')
  {
  }

  /**
   * As written, the create branch always raises: it passes `roadmap_id`
   * and `milestone_id`, which `create_document` does not declare, so no
   * document is created. The call it attempts would give the document its
   * dict's topic and content (default ""), entities default [], the
   * intent and routing as generation metadata, and the current document as
   * parent exactly for follow-up input.
   */
  lemma PersistDocumentCreateFails(t: Tables, sessionId: string, userId: int, f: map<string, Json>, changeSummary: Json,
                                   inputSource: string, currentDocId: Json, intent: Json, routing: Json)
    requires !IsUpdate(f)
    ensures DocumentPersisted(t, sessionId, userId, JObj(f), changeSummary, inputSource, currentDocId, intent, routing)
            == Err("create_document() got an unexpected keyword argument 'roadmap_id'")
    ensures var c := CreateCallOf(sessionId, userId, f, inputSource, currentDocId, intent, routing);
      && c.doc.parentDocumentId == (if inputSource == "follow_up" then currentDocId else JNull)
      && c.doc.topic == Lookup(f, "topic", JStr(""))
      && c.doc.generationMetadata == JObj(map["intent" := intent, "routing" := routing])
      && c.undeclared == ["roadmap_id", "milestone_id"]
  {
  }

  // ---------------------------------------------------------------------
  // persist_roadmap
  // ---------------------------------------------------------------------

  /** `_validate_roadmap_data`: the goal and the raw milestone list, or the ValueError. */
  function ValidateRoadmapData(data: Json): Result<(string, seq<Json>)> {
    if !data.JObj? then Err("roadmap_data must be a dict, got <class '" + TypeName(data) + "'>")
    else
      var goal := Lookup(data.fields, "goal", JNull);
      if !Truthy(goal) || !goal.JStr? then Err("roadmap_data must contain a non-empty 'goal' string field")
      else
        var ms := Lookup(data.fields, "milestones", JArr([]));
        if !ms.JArr? then Err("'milestones' must be a list")
        else Ok((goal.s, ms.items))
  }

  /** Validation accepts exactly a dict with a non-empty string goal and, if present, a list of milestones. */
  lemma ValidateRoadmapDataIff(data: Json)
    ensures ValidateRoadmapData(data).Ok? <==>
      && data.JObj?
      && "goal" in data.fields && data.fields["goal"].JStr? && data.fields["goal"].s != ""
      && ("milestones" in data.fields ==> data.fields["milestones"].JArr?)
    ensures ValidateRoadmapData(data).Ok? ==>
      && ValidateRoadmapData(data).value.0 == data.fields["goal"].s
      && ValidateRoadmapData(data).value.1 == (if "milestones" in data.fields then data.fields["milestones"].items else [])
  {
  }

  /** `[str(t) for t in topics if t]` */
  function TopicStrings(items: seq<Json>): seq<string> {
    if items == [] then []
    else TopicStrings(items[..|items| - 1]) + (if Truthy(items[|items| - 1]) then [PyStr(items[|items| - 1])] else [])
  }

  /** The milestone built from the dict at raw index `i`. */
  function MilestoneOf(i: int, m: map<string, Json>): RS.MilestoneSchema {
    var title := Lookup(m, "title", JStr(""));
    var topics := Lookup(m, "topics", JArr([]));
    RS.MilestoneSchema(
      i,
      if Truthy(title) then PyStr(title) else "阶段 " + IntToDecimal(i + 1),
      PyStr(Lookup(m, "description", JStr(""))),
      if topics.JArr? then TopicStrings(topics.items) else [])
  }

  /** The milestones built from the dict entries, each numbered by its raw index. */
  function Kept(raw: seq<Json>): seq<RS.MilestoneSchema> {
    if raw == [] then []
    else Kept(raw[..|raw| - 1]) + (if raw[|raw| - 1].JObj? then [MilestoneOf(|raw| - 1, raw[|raw| - 1].fields)] else [])
  }

  const DefaultMilestone := RS.MilestoneSchema(0, "开始学习", "学习旅程的第一步", [])

  /** The result of `_normalize_milestones`. */
  function Normalized(raw: seq<Json>): seq<RS.MilestoneSchema> {
    if Kept(raw) == [] then [DefaultMilestone] else Kept(raw)
  }

  /** `_normalize_milestones`: skip non-dicts, fill defaults, and supply one milestone when none is left. */
  method NormalizeMilestones(raw: seq<Json>) returns (milestones: seq<RS.MilestoneSchema>)
    ensures milestones == Normalized(raw)
    ensures |milestones| >= 1
  {
    milestones := [];
    var i := 0;
    while i < |raw|
      invariant 0 <= i <= |raw|
      invariant milestones == Kept(raw[..i])
    {
      assert raw[..i + 1][..i] == raw[..i];
      var m := raw[i];
      if m.JObj? {
        var title := Lookup(m.fields, "title", JStr(""));
        var description := Lookup(m.fields, "description", JStr(""));
        var topics := Lookup(m.fields, "topics", JArr([]));
        if !topics.JArr? {
          topics := JArr([]);
        }
        var schema := RS.MilestoneSchema(i, if Truthy(title) then PyStr(title) else "阶段 " + IntToDecimal(i + 1),
                                         PyStr(description), TopicStrings(topics.items));
        milestones := milestones + [schema];
      }
      i := i + 1;
    }
    assert raw[..i] == raw;
    if milestones == [] {
      milestones := [DefaultMilestone];
    }
  }

  /**
   * Each kept milestone comes from a dict entry and carries that entry's
   * raw index as its id, so ids strictly increase.
   */
  lemma {:induction false} KeptFacts(raw: seq<Json>)
    ensures |Kept(raw)| <= |raw|
    ensures forall j | 0 <= j < |Kept(raw)| ::
      0 <= Kept(raw)[j].id < |raw| && raw[Kept(raw)[j].id].JObj? && Kept(raw)[j] == MilestoneOf(Kept(raw)[j].id, raw[Kept(raw)[j].id].fields)
    ensures forall a, b | 0 <= a < b < |Kept(raw)| :: Kept(raw)[a].id < Kept(raw)[b].id
  {
    if raw != [] {
      var p := raw[..|raw| - 1];
      KeptFacts(p);
      assert forall i | 0 <= i < |p| :: p[i] == raw[i];
      var k := Kept(raw);
      var kp := Kept(p);
      assert k[..|kp|] == kp;
    }
  }

  /** Every dict entry of `raw` has a milestone in `k` carrying its index. */
  predicate CoversDicts(raw: seq<Json>, k: seq<RS.MilestoneSchema>) {
    forall i | 0 <= i < |raw| && raw[i].JObj? :: exists j | 0 <= j < |k| :: k[j].id == i
  }

  /** Every dict entry gives a kept milestone carrying its index. */
  lemma {:induction false} KeptCoversDicts(raw: seq<Json>)
    ensures CoversDicts(raw, Kept(raw))
  {
    if raw != [] {
      var p := raw[..|raw| - 1];
      KeptCoversDicts(p);
      var k := Kept(raw);
      var kp := Kept(p);
      assert k[..|kp|] == kp;
      forall i | 0 <= i < |raw| && raw[i].JObj?
        ensures exists j | 0 <= j < |k| :: k[j].id == i
      {
        if i < |p| {
          assert p[i] == raw[i];
          var j :| 0 <= j < |kp| && kp[j].id == i;
          assert k[j] == kp[j];
        } else {
          assert k == kp + [MilestoneOf(i, raw[i].fields)];
          assert k[|kp|].id == i;
        }
      }
    }
  }

  /** When every entry is a dict, the ids are exactly 0, 1, …, n - 1. */
  lemma {:induction false} KeptAllDicts(raw: seq<Json>)
    requires forall i | 0 <= i < |raw| :: raw[i].JObj?
    ensures |Kept(raw)| == |raw|
    ensures forall j | 0 <= j < |raw| :: Kept(raw)[j].id == j
  {
    if raw != [] {
      var p := raw[..|raw| - 1];
      KeptAllDicts(p);
      assert forall j | 0 <= j < |p| :: Kept(raw)[j] == Kept(p)[j];
    }
  }

  /** `str(v)` of a truthy value is never empty. */
  lemma PyStrTruthy(v: Json)
    requires Truthy(v)
    ensures PyStr(v) != ""
  {
    if v.JInt? {
      if v.i < 0 {
        assert IntToDecimal(v.i) == "-" + NatToDecimal(-v.i);
      } else {
        assert |NatToDecimal(v.i)| > 0;
      }
    }
  }

  lemma {:induction false} TopicStringsNonEmpty(items: seq<Json>)
    ensures forall s | s in TopicStrings(items) :: s != ""
    ensures |TopicStrings(items)| <= |items|
  {
    if items != [] {
      TopicStringsNonEmpty(items[..|items| - 1]);
      var last := items[|items| - 1];
      if Truthy(last) {
        PyStrTruthy(last);
      }
    }
  }

  /** Every built milestone has a non-empty title and only non-empty topics. */
  lemma MilestoneOfFilled(i: int, m: map<string, Json>)
    ensures MilestoneOf(i, m).title != ""
    ensures forall s | s in MilestoneOf(i, m).topics :: s != ""
  {
    var title := Lookup(m, "title", JStr(""));
    if Truthy(title) {
      PyStrTruthy(title);
    }
    var topics := Lookup(m, "topics", JArr([]));
    if topics.JArr? {
      TopicStringsNonEmpty(topics.items);
    }
  }

  /**
   * The normalised list is never empty: it is the kept milestones, or the
   * single default "开始学习" milestone with id 0 exactly when no entry was
   * a dict.
   */
  lemma NormalizedFacts(raw: seq<Json>)
    ensures |Normalized(raw)| >= 1
    ensures (forall i | 0 <= i < |raw| :: !raw[i].JObj?) <==> Kept(raw) == []
    ensures Kept(raw) == [] ==> Normalized(raw) == [DefaultMilestone]
    ensures Kept(raw) != [] ==> Normalized(raw) == Kept(raw)
  {
    KeptFacts(raw);
    KeptCoversDicts(raw);
    var k := Kept(raw);
    if k != [] {
      assert raw[k[0].id].JObj?;
    }
    if exists i | 0 <= i < |raw| :: raw[i].JObj? {
      var i :| 0 <= i < |raw| && raw[i].JObj?;
      var j :| 0 <= j < |k| && k[j].id == i;
      assert k != [];
    }
  }

  /** Every normalised milestone has a non-empty title and only non-empty topics. */
  lemma NormalizedTitles(raw: seq<Json>)
    ensures forall j | 0 <= j < |Normalized(raw)| :: Normalized(raw)[j].title != ""
    ensures forall j, s | 0 <= j < |Normalized(raw)| && s in Normalized(raw)[j].topics :: s != ""
  {
    KeptFacts(raw);
    var k := Kept(raw);
    forall j | 0 <= j < |Normalized(raw)|
      ensures Normalized(raw)[j].title != ""
      ensures forall s | s in Normalized(raw)[j].topics :: s != ""
    {
      if k != [] {
        MilestoneOfFilled(k[j].id, raw[k[j].id].fields);
      }
    }
  }

  /** The `mermaid` value a `RoadmapCreate` accepts: a string or None. */
  function MermaidOf(v: Json): Result<Option<string>> {
    if v.JStr? then Ok(Some(v.s))
    else if v.JNull? then Ok(None)
    else Err("1 validation error for RoadmapCreate: mermaid: Input should be a valid string")
  }

  /** The tables after `persist_roadmap` and the new id, or the error it raises. */
  function RoadmapPersisted(t: Tables, sessionId: string, userId: Option<int>, data: Json): Result<(Tables, int)> {
    match ValidateRoadmapData(data)
    case Err(e) => Err(e)
    case Ok((goal, raw)) =>
      match MermaidOf(Lookup(data.fields, "mermaid", JNull))
      case Err(e) => Err(e)
      case Ok(mermaid) => Ok(RS.RoadmapCreated(t, sessionId, userId, RS.RoadmapCreate(goal, Normalized(raw), mermaid), None))
  }

  /** `persist_roadmap`: validate, normalise, and create the roadmap with no parent. */
  method PersistRoadmap(db: Db, sessionId: string, userId: Option<int>, data: Json) returns (r: Result<int>)
    modifies db
    ensures RoadmapPersisted(old(db.Snapshot()), sessionId, userId, data).Err? ==>
      r == Err(RoadmapPersisted(old(db.Snapshot()), sessionId, userId, data).message) && db.Snapshot() == old(db.Snapshot())
    ensures RoadmapPersisted(old(db.Snapshot()), sessionId, userId, data).Ok? ==>
      r.Ok? && (db.Snapshot(), r.value) == RoadmapPersisted(old(db.Snapshot()), sessionId, userId, data).value
  {
    var v := ValidateRoadmapData(data);
    if v.Err? {
      return Err(v.message);
    }
    var (goal, raw) := v.value;
    var milestones := NormalizeMilestones(raw);
    var mermaid := MermaidOf(Lookup(data.fields, "mermaid", JNull));
    if mermaid.Err? {
      return Err(mermaid.message);
    }
    var id := RS.CreateRoadmap(db, sessionId, userId, RS.RoadmapCreate(goal, milestones, mermaid.value), None);
    r := Ok(id);
  }

  /**
   * A stored roadmap from the agent is always version 1 with no parent,
   * becomes the session's only active roadmap, and holds the normalised
   * milestones, at least one; it fails exactly when validation fails or
   * "mermaid" is neither a string nor None.
   */
  lemma RoadmapPersistedOk(t: Tables, sessionId: string, userId: Option<int>, data: Json)
    requires TablesOk(t)
    ensures RoadmapPersisted(t, sessionId, userId, data).Ok? <==>
      ValidateRoadmapData(data).Ok? && MermaidOf(Lookup(data.fields, "mermaid", JNull)).Ok?
    ensures RoadmapPersisted(t, sessionId, userId, data).Ok? ==>
      var (t', id) := RoadmapPersisted(t, sessionId, userId, data).value;
      && TablesOk(t') && t'.sessions == t.sessions
      && id !in t.roadmaps
      && RS.ActiveRoadmaps(t'.roadmaps, sessionId) == {id}
      && t'.roadmaps[id].version == 1
      && t'.roadmaps[id].parentRoadmapId.None?
      && t'.roadmaps[id].goal == data.fields["goal"].s
      && t'.roadmaps[id].milestones == RS.DumpAll(Normalized(ValidateRoadmapData(data).value.1))
      && |t'.roadmaps[id].milestones| >= 1
  {
    if RoadmapPersisted(t, sessionId, userId, data).Ok? {
      var (goal, raw) := ValidateRoadmapData(data).value;
      var mermaid := MermaidOf(Lookup(data.fields, "mermaid", JNull)).value;
      RS.RoadmapCreatedOk(t, sessionId, userId, RS.RoadmapCreate(goal, Normalized(raw), mermaid), None);
      NormalizedFacts(raw);
    }
  }
}
