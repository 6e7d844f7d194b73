/**
 * The routing agent: a rule table for obvious cases, otherwise the LLM's
 * structured decision (or a rule fallback when the LLM call fails),
 * corrected by two override rules; and the two conditional-edge functions
 * the graph uses.  The LLM's decision and the document listing are
 * parameters.
 */
module Route {
  import opened Wrappers
  import opened Text
  import opened Json
  import opened AgentStateModel

  /** The structured output of the routing LLM (`RouteDecision`). */
  datatype RouteDecision = RouteDecision(
    action: string,
    mode: string,
    target: Option<string>,
    targetDocId: Option<int>,
    reasoning: string,
    confidence: real)

  function OptText(o: Option<string>): Json {
    if o.Some? then JStr(o.value) else JNull
  }

  function OptInt(o: Option<int>): Json {
    if o.Some? then JInt(o.value) else JNull
  }

  /** `result.model_dump()` */
  function DecisionDict(d: RouteDecision): map<string, Json> {
    map["action" := JStr(d.action), "mode" := JStr(d.mode), "target" := OptText(d.target),
        "target_doc_id" := OptInt(d.targetDocId), "reasoning" := JStr(d.reasoning),
        "confidence" := JReal(d.confidence)]
  }

  /** The dump keeps every field of the decision: distinct decisions give distinct dicts. */
  lemma DecisionDictInjective(a: RouteDecision, b: RouteDecision)
    requires DecisionDict(a) == DecisionDict(b)
    ensures a == b
  {
    assert DecisionDict(a)["target"] == DecisionDict(b)["target"];
    assert DecisionDict(a)["target_doc_id"] == DecisionDict(b)["target_doc_id"];
    assert DecisionDict(a)["action"] == DecisionDict(b)["action"];
    assert DecisionDict(a)["mode"] == DecisionDict(b)["mode"];
    assert DecisionDict(a)["reasoning"] == DecisionDict(b)["reasoning"];
    assert DecisionDict(a)["confidence"] == DecisionDict(b)["confidence"];
  }

  // ---------------------------------------------------------------------
  // Fast path

  /** The second component of a fast-path key: `False`, `"has_current_doc"` or `None`. */
  datatype KeyTag = FalseTag | HasCurrentDoc | NoneTag

  /** One fast-path table entry. */
  datatype FastEntry = FastEntry(action: string, mode: string, reasoning: string)

  /** `OBVIOUS_DECISIONS` */
  const ObviousDecisions: map<(string, KeyTag), FastEntry> := map[
    ("new_topic", FalseTag) := FastEntry("generate_new", "standard", "New topic without roadmap, generate standalone document"),
    ("follow_up", HasCurrentDoc) := FastEntry("update_doc", "expand", "Follow-up on current document"),
    ("follow_up", NoneTag) := FastEntry("generate_new", "standard", "Follow-up without current doc, create new"),
    ("comparison", NoneTag) := FastEntry("generate_new", "comparison", "Generate comparison document"),
    ("optimize_content", NoneTag) := FastEntry("generate_new", "explain_selection", "Generate new document to explain selected content")
  ]

  function EntryDict(e: FastEntry): map<string, Json> {
    map["action" := JStr(e.action), "mode" := JStr(e.mode), "reasoning" := JStr(e.reasoning)]
  }

  /** `(state.get("intent") or {}).get("intent_type", "question")` */
  function IntentType(values: map<string, Json>): Json {
    Get(Or(Lookup(values, "intent", JNull), EmptyObj), "intent_type", JStr("question"))
  }

  /** A first topic: a new topic with neither a current roadmap nor recent documents. */
  predicate FirstTopic(intentType: Json, values: map<string, Json>) {
    intentType == JStr("new_topic")
    && !Truthy(Lookup(values, "current_roadmap", JNull))
    && !Truthy(Lookup(values, "recent_docs", JNull))
  }

  /** The lookup key `_try_fast_route` builds, or `None` when it gives up before the lookup. */
  function FastKey(intentType: Json, currentDocId: Json): Option<(string, KeyTag)> {
    if intentType == JStr("follow_up") then
      Some(("follow_up", if Truthy(currentDocId) then HasCurrentDoc else NoneTag))
    else if intentType == JStr("new_topic") || intentType == JStr("comparison") || intentType == JStr("optimize_content") then
      Some((intentType.s, NoneTag))
    else None
  }

  /**
   * `_try_fast_route`: exactly follow-ups, comparisons and content
   * optimisations are decided without the LLM, always with an action, a
   * mode and a reasoning.
   */
  function TryFastRoute(intentType: Json, values: map<string, Json>): (r: Option<map<string, Json>>)
    ensures r.Some? <==>
      (intentType == JStr("follow_up") || intentType == JStr("comparison") || intentType == JStr("optimize_content"))
    ensures r.Some? ==> "action" in r.value && "mode" in r.value && "reasoning" in r.value
  {
    assert ("new_topic", NoneTag) !in ObviousDecisions;
    if FirstTopic(intentType, values) then None
    else
      match FastKey(intentType, Lookup(values, "current_doc_id", JNull))
      case None => None
      case Some(key) =>
        if key !in ObviousDecisions then None
        else
          var result := EntryDict(ObviousDecisions[key]);
          var intentVal := Lookup(values, "intent", EmptyObj);
          if Truthy(intentVal) && Truthy(Get(intentVal, "target", JNull)) then
            Some(result["target" := Get(intentVal, "target", JNull)])
          else Some(result)
  }

  /** The table files new topics under `("new_topic", False)` but the lookup asks for `("new_topic", None)`. */
  lemma NewTopicNeverFast(values: map<string, Json>)
    ensures TryFastRoute(JStr("new_topic"), values) == None
  {
    assert ("new_topic", NoneTag) !in ObviousDecisions;
  }

  /** Exactly follow-ups, comparisons and content optimisations take the fast path. */
  lemma FastRouteExactly(intentType: Json, values: map<string, Json>)
    ensures TryFastRoute(intentType, values).Some? <==>
      (intentType == JStr("follow_up") || intentType == JStr("comparison") || intentType == JStr("optimize_content"))
  {
    if intentType == JStr("new_topic") {
      NewTopicNeverFast(values);
    }
  }

  /**
   * A fast decision is the table entry for its key, with the intent's
   * target added exactly when that is truthy.
   */
  lemma FastRouteShape(intentType: Json, values: map<string, Json>)
    requires TryFastRoute(intentType, values).Some?
    ensures var d := TryFastRoute(intentType, values).value;
      var key := FastKey(intentType, Lookup(values, "current_doc_id", JNull)).value;
      var intentVal := Lookup(values, "intent", EmptyObj);
      && key in ObviousDecisions
      && d["action"] == JStr(ObviousDecisions[key].action)
      && d["mode"] == JStr(ObviousDecisions[key].mode)
      && d["reasoning"] == JStr(ObviousDecisions[key].reasoning)
      && ("target" in d <==> Truthy(intentVal) && Truthy(Get(intentVal, "target", JNull)))
      && ("target" in d ==> d["target"] == Get(intentVal, "target", JNull))
  {
  }

  /** A follow-up is an in-place update exactly when there is a current document. */
  lemma FollowUpUpdatesIffCurrentDoc(values: map<string, Json>)
    ensures TryFastRoute(JStr("follow_up"), values).Some?
    ensures Lookup(TryFastRoute(JStr("follow_up"), values).value, "action", JNull) == JStr("update_doc")
      <==> Truthy(Lookup(values, "current_doc_id", JNull))
  {
  }

  // ---------------------------------------------------------------------
  // Slow path

  /** One row of `list_session_documents` as the router sees it: id, topic, ISO creation time. */
  datatype DocInfo = DocInfo(id: int, topic: string, createdAt: string)

  function DocInfoDicts(docs: seq<DocInfo>): (r: seq<Json>)
    ensures |r| == |docs|
    ensures forall i | 0 <= i < |docs| ::
      r[i] == JObj(map["id" := JInt(docs[i].id), "title" := JStr(docs[i].topic), "created_at" := JStr(docs[i].createdAt)])
  {
    if docs == [] then []
    else
      var last := docs[|docs| - 1];
      DocInfoDicts(docs[..|docs| - 1])
        + [JObj(map["id" := JInt(last.id), "title" := JStr(last.topic), "created_at" := JStr(last.createdAt)])]
  }

  /** What `_fetch_available_docs` stores: `[]` without a session or when the listing fails. */
  function AvailableDocs(values: map<string, Json>, listing: Answer<seq<DocInfo>>): Json {
    if !Truthy(Lookup(values, "session_id", JStr(""))) then EmptyArr
    else if listing.Raised? then EmptyArr
    else JArr(DocInfoDicts(listing.value))
  }

  /** The line `_summarize_roadmap` writes for one milestone; `None` where `m.get` would raise. */
  function MilestoneLine(m: Json): Option<string> {
    if m.JObj? then Some("阶段" + PyStr(Get(m, "id", JNull)) + ": " + PyStr(Get(m, "title", JNull)))
    else None
  }

  function MilestoneLines(ms: seq<Json>): (r: Option<seq<string>>)
    ensures r.Some? ==> |r.value| == |ms|
  {
    if ms == [] then Some([])
    else
      match (MilestoneLines(ms[..|ms| - 1]), MilestoneLine(ms[|ms| - 1]))
      case (Some(lines), Some(line)) => Some(lines + [line])
      case _ => None
  }

  function Min(a: nat, b: nat): nat {
    if a <= b then a else b
  }

  /**
   * `_summarize_roadmap`: "无" without a roadmap, the goal alone without
   * milestones, else the goal, the milestone count and the first five
   * milestones. `None` where the source would raise (a roadmap or milestone
   * that is not a dict, milestones that are not a list).
   */
  function SummarizeRoadmap(roadmap: Json): Option<string> {
    if !Truthy(roadmap) then Some("无")
    else if !roadmap.JObj? then None
    else
      var goal := PyStr(Get(roadmap, "goal", JStr("")));
      var milestones := Get(roadmap, "milestones", EmptyArr);
      if !Truthy(milestones) then Some("「" + goal + "」，无阶段")
      else if !milestones.JArr? then None
      else
        match MilestoneLines(milestones.items[..Min(5, |milestones.items|)])
        case None => None
        case Some(lines) =>
          Some("「" + goal + "」，共 " + NatToDecimal(|milestones.items|) + " 个阶段: " + Join(lines, "; "))
  }

  /** "无" is the summary of exactly the absent or empty roadmaps. */
  lemma SummaryNoneIffNoRoadmap(roadmap: Json)
    ensures SummarizeRoadmap(roadmap) == Some("无") <==> !Truthy(roadmap)
  {
    if Truthy(roadmap) && SummarizeRoadmap(roadmap).Some? {
      var s := SummarizeRoadmap(roadmap).value;
      assert s[0] == '「';
    }
  }

  /** Milestones after the fifth never affect the summary beyond the count. */
  lemma SummaryIgnoresLaterMilestones(goal: Json, a: seq<Json>, b: seq<Json>, extra: map<string, Json>)
    requires |a| == |b| && a != []
    requires a[..Min(5, |a|)] == b[..Min(5, |b|)]
    ensures SummarizeRoadmap(JObj(extra["goal" := goal]["milestones" := JArr(a)]))
         == SummarizeRoadmap(JObj(extra["goal" := goal]["milestones" := JArr(b)]))
  {
  }

  /** The fields of `_build_decision_context` the fallback reads, plus the roadmap summary. */
  datatype DecisionContext = DecisionContext(
    userMessage: Json,
    detectedIntent: Json,
    detectedTarget: Json,
    hasRoadmap: bool,
    roadmapSummary: string)

  /** `_build_decision_context`; `None` where summarising the roadmap would raise. */
  function BuildDecisionContext(values: map<string, Json>): Option<DecisionContext> {
    var intentVal := Or(Lookup(values, "intent", JNull), EmptyObj);
    var roadmap := Lookup(values, "current_roadmap", JNull);
    match SummarizeRoadmap(roadmap)
    case None => None
    case Some(summary) =>
      Some(DecisionContext(
        Lookup(values, "raw_message", JStr("")),
        intentVal,
        Get(intentVal, "target", JNull),
        roadmap != JNull,
        summary))
  }

  /** `_fallback_routing` */
  function FallbackRouting(ctx: DecisionContext): map<string, Json> {
    var intentType := Get(ctx.detectedIntent, "intent_type", JStr("question"));
    var target := Or(Or(ctx.detectedTarget, ctx.userMessage), JStr("新主题"));
    if intentType == JStr("plan") && !ctx.hasRoadmap then
      map["action" := JStr("plan"), "mode" := JStr("roadmap_generate"), "target" := target,
          "reasoning" := JStr("Fallback: plan intent without roadmap"), "confidence" := JReal(0.5)]
    else
      map["action" := JStr("generate_new"),
          "mode" := JStr(if ctx.hasRoadmap then "roadmap_learning" else "standard"),
          "target" := target, "reasoning" := JStr("Fallback: default to generate_new"),
          "confidence" := JReal(0.5)]
  }

  /**
   * The fallback plans exactly for a plan intent without a roadmap; it
   * otherwise generates, in roadmap mode exactly when a roadmap exists. Its
   * target is the first truthy of the detected target and the message, else
   * "新主题", so it is never empty.
   */
  lemma FallbackRules(ctx: DecisionContext)
    ensures var r := FallbackRouting(ctx);
      && (r["action"] == JStr("plan") <==> Get(ctx.detectedIntent, "intent_type", JStr("question")) == JStr("plan") && !ctx.hasRoadmap)
      && (r["action"] == JStr("plan") || r["action"] == JStr("generate_new"))
      && (r["action"] == JStr("plan") ==> r["mode"] == JStr("roadmap_generate"))
      && (r["action"] == JStr("generate_new") ==> (r["mode"] == JStr("roadmap_learning") <==> ctx.hasRoadmap))
      && Truthy(r["target"])
      && (Truthy(ctx.detectedTarget) ==> r["target"] == ctx.detectedTarget)
      && (!Truthy(ctx.detectedTarget) && Truthy(ctx.userMessage) ==> r["target"] == ctx.userMessage)
      && r["confidence"] == JReal(0.5)
  {
  }

  /** `_llm_route_decision`: the dumped decision, or the fallback when the LLM call raised. */
  function LlmDecision(ctx: DecisionContext, llm: Option<RouteDecision>): map<string, Json> {
    if llm.Some? then DecisionDict(llm.value) else FallbackRouting(ctx)
  }

  const FirstTopicNote: string := "首次学习新主题，自动生成学习路线图。原决策: "
  const NoTargetNote: string := "导航未指定目标文档ID，改为生成新文档。原决策: "

  /** `reasoning` of a decision read as `llm_decision.get("reasoning", "")`. */
  function Reasoning(d: map<string, Json>): string {
    TextOf(Lookup(d, "reasoning", JStr("")))
  }

  /** The first override: a first topic is always planned as a new roadmap. */
  function FirstTopicOverride(d: map<string, Json>, firstTopic: bool): map<string, Json> {
    if firstTopic then
      d["action" := JStr("plan")]["mode" := JStr("roadmap_generate")]["reasoning" := JStr(FirstTopicNote + Reasoning(d))]
    else d
  }

  /** The second override: navigation without a truthy target document generates instead. */
  function NavigateOverride(d: map<string, Json>): map<string, Json> {
    if Lookup(d, "action", JNull) == JStr("navigate") && !Truthy(Lookup(d, "target_doc_id", JNull)) then
      d["action" := JStr("generate_new")]["reasoning" := JStr(NoTargetNote + Reasoning(d))]
    else d
  }

  function ApplyOverrides(d: map<string, Json>, firstTopic: bool): map<string, Json> {
    NavigateOverride(FirstTopicOverride(d, firstTopic))
  }

  /**
   * For every decision the LLM could give: a first topic becomes a
   * roadmap-generating plan with its reasoning prefixed; a surviving
   * navigation always has a truthy target document; the second override
   * keeps the mode; and keys other than action, mode and reasoning are never
   * touched.
   */
  lemma OverridesHold(d: map<string, Json>, firstTopic: bool)
    ensures var r := ApplyOverrides(d, firstTopic);
      && (firstTopic ==> r["action"] == JStr("plan") && r["mode"] == JStr("roadmap_generate")
                         && r["reasoning"] == JStr(FirstTopicNote + Reasoning(d)))
      && (Lookup(r, "action", JNull) == JStr("navigate") ==> Truthy(Lookup(r, "target_doc_id", JNull)))
      && (!firstTopic ==> Lookup(r, "mode", JNull) == Lookup(d, "mode", JNull))
      && (forall k | k in d && k != "action" && k != "mode" && k != "reasoning" :: k in r && r[k] == d[k])
      && r.Keys == d.Keys + (if firstTopic then {"action", "mode", "reasoning"} else {})
                          + (if Lookup(FirstTopicOverride(d, firstTopic), "action", JNull) == JStr("navigate")
                                && !Truthy(Lookup(d, "target_doc_id", JNull)) then {"action", "reasoning"} else {})
  {
  }

  /** A navigation with a truthy target document passes both overrides unchanged when it is no first topic. */
  lemma NavigationWithTargetKept(d: map<string, Json>)
    requires Lookup(d, "action", JNull) == JStr("navigate") && Truthy(Lookup(d, "target_doc_id", JNull))
    ensures ApplyOverrides(d, false) == d
  {
  }

  /**
   * The routing decision `route_agent_node` stores, or `None` when building
   * the decision context raised.
   */
  function RoutingDecision(values: map<string, Json>, listing: Answer<seq<DocInfo>>, llm: Option<RouteDecision>): Option<Json> {
    var intentType := IntentType(values);
    match TryFastRoute(intentType, values)
    case Some(fast) => Some(JObj(fast["method" := JStr("rule")]))
    case None =>
      var withDocs := values["available_docs" := AvailableDocs(values, listing)];
      match BuildDecisionContext(withDocs)
      case None => None
      case Some(ctx) =>
        Some(JObj(ApplyOverrides(LlmDecision(ctx, llm), FirstTopic(intentType, withDocs))["method" := JStr("llm")]))
  }

  /** A first topic is planned as a roadmap whatever the LLM answered, or whether it answered at all. */
  lemma FirstTopicAlwaysPlans(values: map<string, Json>, listing: Answer<seq<DocInfo>>, llm: Option<RouteDecision>)
    requires FirstTopic(IntentType(values), values)
    requires RoutingDecision(values, listing, llm).Some?
    ensures var d := RoutingDecision(values, listing, llm).value;
      Get(d, "action", JNull) == JStr("plan") && Get(d, "mode", JNull) == JStr("roadmap_generate")
      && Get(d, "method", JNull) == JStr("llm")
  {
    var withDocs := values["available_docs" := AvailableDocs(values, listing)];
    assert FirstTopic(IntentType(values), withDocs);
    var ctx := BuildDecisionContext(withDocs).value;
    OverridesHold(LlmDecision(ctx, llm), true);
  }

  /**
   * `route_agent_node`. On the fast path only the decision is written; on
   * the slow path the available documents are stored first, and when the
   * context cannot be built the node raises (`raised`) after that write.
   */
  method RouteAgentNode(st: AgentState, listing: Answer<seq<DocInfo>>, llm: Option<RouteDecision>)
    returns (raised: bool)
    modifies st
    ensures raised <==> RoutingDecision(old(st.values), listing, llm).None?
    ensures TryFastRoute(IntentType(old(st.values)), old(st.values)).Some? ==>
      st.values == old(st.values)["routing_decision" := RoutingDecision(old(st.values), listing, llm).value]
    ensures TryFastRoute(IntentType(old(st.values)), old(st.values)).None? && raised ==>
      st.values == old(st.values)["available_docs" := AvailableDocs(old(st.values), listing)]
    ensures TryFastRoute(IntentType(old(st.values)), old(st.values)).None? && !raised ==>
      st.values == old(st.values)["available_docs" := AvailableDocs(old(st.values), listing)]
                                 ["routing_decision" := RoutingDecision(old(st.values), listing, llm).value]
  {
    var intentType := IntentType(st.values);
    var fast := TryFastRoute(intentType, st.values);
    if fast.Some? {
      st.values := st.values["routing_decision" := JObj(fast.value["method" := JStr("rule")])];
      return false;
    }
    st.values := st.values["available_docs" := AvailableDocs(st.values, listing)];
    var ctx := BuildDecisionContext(st.values);
    if ctx.None? {
      return true;
    }
    var decision := LlmDecision(ctx.value, llm);
    decision := FirstTopicOverride(decision, FirstTopic(intentType, st.values));
    decision := NavigateOverride(decision);
    st.values := st.values["routing_decision" := JObj(decision["method" := JStr("llm")])];
    raised := false;
  }

  // ---------------------------------------------------------------------
  // Conditional edges

  /** `route_by_intent`: a chitchat or navigate intent skips the router, any other reaches it. */
  function RouteByIntent(values: map<string, Json>): (r: string)
    ensures r in {"chitchat_agent", "navigator_agent", "route_agent"}
    ensures r == "chitchat_agent" <==> IntentType(values) == JStr("chitchat")
    ensures r == "navigator_agent" <==> IntentType(values) == JStr("navigate")
    ensures "intent" !in values ==> r == "route_agent"
  {
    var intentType := IntentType(values);
    if intentType == JStr("chitchat") then "chitchat_agent"
    else if intentType == JStr("navigate") then "navigator_agent"
    else "route_agent"
  }

  /** `route_by_decision`: navigate and plan decisions have their own edge, anything else generates content. */
  function RouteByDecision(values: map<string, Json>): (r: string)
    ensures r in {"navigator_agent", "planner_agent", "content_agent"}
    ensures r == "navigator_agent" <==>
      Get(Or(Lookup(values, "routing_decision", JNull), EmptyObj), "action", JStr("generate_new")) == JStr("navigate")
    ensures "routing_decision" !in values ==> r == "content_agent"
  {
    var decision := Or(Lookup(values, "routing_decision", JNull), EmptyObj);
    var action := Get(decision, "action", JStr("generate_new"));
    if action == JStr("navigate") then "navigator_agent"
    else if action == JStr("plan") then "planner_agent"
    else "content_agent"
  }

  /** Chitchat and navigate intents skip the router; every other intent, a missing one included, reaches it. */
  lemma RouteByIntentCases(values: map<string, Json>)
    ensures RouteByIntent(values) == "chitchat_agent" <==> IntentType(values) == JStr("chitchat")
    ensures RouteByIntent(values) == "navigator_agent" <==> IntentType(values) == JStr("navigate")
    ensures RouteByIntent(values) == "route_agent" <==>
      IntentType(values) != JStr("chitchat") && IntentType(values) != JStr("navigate")
    ensures "intent" !in values ==> RouteByIntent(values) == "route_agent"
  {
  }

  /** Navigate and plan decisions have their own edges; anything else, a missing decision included, generates content. */
  lemma RouteByDecisionCases(values: map<string, Json>)
    ensures RouteByDecision(values) in {"navigator_agent", "planner_agent", "content_agent"}
    ensures "routing_decision" !in values ==> RouteByDecision(values) == "content_agent"
    ensures RouteByDecision(values) == "planner_agent" <==>
      Get(Or(Lookup(values, "routing_decision", JNull), EmptyObj), "action", JStr("generate_new")) == JStr("plan")
  {
  }
}
