/**
 * The navigator node: it looks up the document the routing decision (or the
 * intent) points at and records a navigation result and one AI message.
 * The two document lookups are parameters.
 */
module Navigator {
  import opened Wrappers
  import opened Json
  import opened AgentStateModel

  /** The fields of a looked-up document the navigator reads. */
  datatype FoundDoc = FoundDoc(id: int, topic: string, content: string)

  /** `get_document(db, id)`, as a parameter. */
  type ByIdLookup = Json -> Answer<Option<FoundDoc>>

  /** `find_document_by_topic(db, session_id, topic)`, as a parameter. */
  type ByTopicLookup = (Json, string) -> Answer<Option<FoundDoc>>

  /** `d.get(k, dflt)`; `None` when `d` is not a dict and the call raises. */
  function DictGet(d: Json, k: string, dflt: Json): Option<Json> {
    if d.JObj? then Some(Lookup(d.fields, k, dflt)) else None
  }

  /** The looked-up target: the routing decision's id and target take priority over the intent's. */
  datatype NavRequest = NavRequest(targetDocId: Json, target: Json, sessionId: Json)

  /**
   * Lines 18-24 of the node: `None` when one of the `.get` calls lands on a
   * non-dict, as it does for a `routing_decision` that holds None.
   */
  function Request(values: map<string, Json>): Option<NavRequest> {
    var intent := Lookup(values, "intent", EmptyObj);
    var decision := Lookup(values, "routing_decision", EmptyObj);
    match DictGet(decision, "target_doc_id", JNull)
    case None => None
    case Some(fromDecision) =>
      var targetDocId :=
        if Truthy(fromDecision) then Some(fromDecision) else DictGet(intent, "target_doc_id", JNull);
      match targetDocId
      case None => None
      case Some(tid) =>
        var fromDecisionTarget := DictGet(decision, "target", JNull).value;
        var target := if Truthy(fromDecisionTarget) then Some(fromDecisionTarget) else DictGet(intent, "target", JStr(""));
        match target
        case None => None
        case Some(t) => Some(NavRequest(tid, t, Lookup(values, "session_id", JStr(""))))
  }

  /** The single lookup: by id when the target id is truthy, else by topic; a raised lookup finds nothing. */
  function Looked(req: NavRequest, byId: ByIdLookup, byTopic: ByTopicLookup): Option<FoundDoc> {
    var answer := if Truthy(req.targetDocId) then byId(req.targetDocId) else byTopic(req.sessionId, PyStr(req.target));
    if answer.Answered? then answer.value else None
  }

  function NavigationTarget(req: NavRequest, doc: Option<FoundDoc>): Json {
    if doc.Some? then
      JObj(map["type" := JStr("document"), "document_id" := JInt(doc.value.id), "title" := JStr(doc.value.topic),
               "content" := JStr(doc.value.content),
               "message" := JStr("已找到关于 **" + doc.value.topic + "** 的文档")])
    else
      JObj(map["type" := JStr("not_found"), "document_id" := JNull, "title" := req.target,
               "message" := JStr("未找到关于 **" + PyStr(req.target) + "** 的文档，将为你生成")])
  }

  /** The state after the node, or `None` when it raises. */
  function Navigated(values: map<string, Json>, byId: ByIdLookup, byTopic: ByTopicLookup): Option<map<string, Json>>
    requires MessagesOk(values)
  {
    match Request(values)
    case None => None
    case Some(req) =>
      var nav := NavigationTarget(req, Looked(req, byId, byTopic));
      Some(AppendMessage(values["navigation_target" := nav], AIMessage(Get(nav, "message", JStr("")).s)))
  }

  /** `navigator_agent_node` */
  method NavigatorAgentNode(st: AgentState, byId: ByIdLookup, byTopic: ByTopicLookup) returns (raised: bool)
    requires MessagesOk(st.values)
    modifies st
    ensures raised <==> Navigated(old(st.values), byId, byTopic).None?
    ensures !raised ==> st.values == Navigated(old(st.values), byId, byTopic).value
    ensures raised ==> st.values == old(st.values)
  {
    var req := Request(st.values);
    if req.None? {
      return true;
    }
    var doc := Looked(req.value, byId, byTopic);
    var nav := NavigationTarget(req.value, doc);
    st.values := st.values["navigation_target" := nav];
    st.values := AppendMessage(st.values, AIMessage(Get(nav, "message", JStr("")).s));
    raised := false;
  }

  /**
   * `.get("routing_decision", {})` defaults only for an absent key: a
   * state whose routing decision is None, as intent classification leaves
   * it when it sends a navigate intent straight here, makes the node raise.
   */
  lemma NoneDecisionRaises(values: map<string, Json>, byId: ByIdLookup, byTopic: ByTopicLookup)
    requires MessagesOk(values)
    requires Lookup(values, "routing_decision", JNull) == JNull
    requires "routing_decision" in values
    ensures Navigated(values, byId, byTopic).None?
  {
  }

  /** Without an explicit decision the intent supplies the id and target. */
  lemma IntentSuppliesTarget(values: map<string, Json>)
    requires "routing_decision" !in values
    requires Lookup(values, "intent", EmptyObj).JObj?
    ensures Request(values).Some?
    ensures Request(values).value.targetDocId == Get(Lookup(values, "intent", EmptyObj), "target_doc_id", JNull)
    ensures Request(values).value.target == Get(Lookup(values, "intent", EmptyObj), "target", JStr(""))
  {
  }

  /** A truthy id in the routing decision wins, and then the lookup is by that id. */
  lemma DecisionIdFirst(values: map<string, Json>, byId: ByIdLookup, byTopic: ByTopicLookup)
    requires Lookup(values, "routing_decision", EmptyObj).JObj?
    requires Truthy(Get(Lookup(values, "routing_decision", EmptyObj), "target_doc_id", JNull))
    requires Lookup(values, "intent", EmptyObj).JObj?
    ensures Request(values).Some?
    ensures var tid := Get(Lookup(values, "routing_decision", EmptyObj), "target_doc_id", JNull);
      Request(values).value.targetDocId == tid
      && Looked(Request(values).value, byId, byTopic) == (if byId(tid).Answered? then byId(tid).value else None)
  {
  }

  /**
   * A found document gives a "document" result with that document's id,
   * title and content; otherwise (nothing found, or the lookup raised) a
   * "not_found" result titled with the target. Either way exactly one AI
   * message, the result's message, is appended.
   */
  lemma NavigationResult(values: map<string, Json>, byId: ByIdLookup, byTopic: ByTopicLookup)
    requires MessagesOk(values)
    requires Navigated(values, byId, byTopic).Some?
    ensures var req := Request(values).value;
      var doc := Looked(req, byId, byTopic);
      var after := Navigated(values, byId, byTopic).value;
      var nav := after["navigation_target"];
      && (doc.Some? ==> Get(nav, "type", JNull) == JStr("document") && Get(nav, "document_id", JNull) == JInt(doc.value.id)
                        && Get(nav, "title", JNull) == JStr(doc.value.topic) && Get(nav, "content", JNull) == JStr(doc.value.content))
      && (doc.None? ==> Get(nav, "type", JNull) == JStr("not_found") && Get(nav, "document_id", JNull) == JNull
                        && Get(nav, "title", JNull) == req.target)
      && MessagesOk(after)
      && MessagesOf(after) == MessagesOf(values) + [AIMessage(Get(nav, "message", JStr("")).s)]
  {
  }
}
