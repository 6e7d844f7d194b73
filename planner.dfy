/**
 * The planner node: it generates a learning roadmap (structured output,
 * then a hand-parsed fallback, then a minimal placeholder) or modifies the
 * current one, and stores only the roadmap and two flags in the state.
 * The language-model calls and the JSON decoder are parameters.
 */
module Planner {
  import opened Wrappers
  import opened Text
  import opened Json
  import opened AgentStateModel
  import LlmUtils

  /** `RoadmapMilestone` */
  datatype Milestone = Milestone(id: int, title: string, description: string, topics: seq<string>)

  /** `RoadmapOutput`, the structured-output schema. */
  datatype RoadmapOutput = RoadmapOutput(goal: string, milestones: seq<Milestone>, mermaid: string)

  /**
   * What the language model answers on this run: the structured-output call
   * (`None` when it raises) and the plain call of the fallback (`None` when
   * it raises). The node makes at most one structured call.
   */
  datatype PlannerLlm = PlannerLlm(structured: Option<RoadmapOutput>, fallbackReply: Option<string>)

  /** Why a helper reports an error; the node never stores it. */
  datatype PlanError = GenerationFailed | ModificationFailed

  /** The helpers' `{"roadmap": ..., "error": ...}` results. */
  datatype PlanResult = PlanResult(roadmap: Json, error: Option<PlanError>)

  const GenerationFailedMessage := "Failed to generate roadmap. Please try rephrasing your request."
  const DefaultTarget := "新主题"

  /** The text of the error a helper result carries; a modification failure carries `str(e)`, which is not modelled. */
  function ErrorText(e: PlanError): Option<string> {
    if e == GenerationFailed then Some(GenerationFailedMessage) else None
  }

  // ---------------------------------------------------------------------
  // Roadmap dicts
  // ---------------------------------------------------------------------

  /** `m.model_dump()` */
  function MilestoneDump(m: Milestone): Json {
    JObj(map["id" := JInt(m.id), "title" := JStr(m.title), "description" := JStr(m.description),
             "topics" := JArr(seq(|m.topics|, j requires 0 <= j < |m.topics| => JStr(m.topics[j])))])
  }

  /** The roadmap dict built from a structured answer, with the given version. */
  function StructuredRoadmap(out: RoadmapOutput, version: Json): Json {
    JObj(map["goal" := JStr(out.goal),
             "milestones" := JArr(seq(|out.milestones|, i requires 0 <= i < |out.milestones| => MilestoneDump(out.milestones[i]))),
             "mermaid" := JStr(out.mermaid),
             "version" := version])
  }

  /** The placeholder stored when both generation methods fail. */
  function MinimalRoadmap(target: Json): Json {
    JObj(map["goal" := target,
             "milestones" := JArr([JObj(map["id" := JInt(0), "title" := JStr("学习规划"),
                                            "description" := JStr("关于 " + PyStr(target) + " 的学习路径"),
                                            "topics" := EmptyArr])]),
             "mermaid" := JNull,
             "version" := JInt(1)])
  }

  /** A roadmap as every generation path leaves it: a dict with a goal, a milestones list and version 1. */
  predicate WellFormedNew(r: Json) {
    r.JObj? && "goal" in r.fields && "milestones" in r.fields && r.fields["milestones"].JArr?
    && Lookup(r.fields, "version", JNull) == JInt(1)
  }

  // ---------------------------------------------------------------------
  // The manual fallback
  // ---------------------------------------------------------------------

  /** `if legacy in d and canonical not in d: d[canonical] = d.pop(legacy)` */
  function Renamed(m: map<string, Json>, legacy: string, canonical: string): map<string, Json> {
    if legacy in m && canonical !in m then (m - {legacy})[canonical := m[legacy]] else m
  }

  /** The milestones after `milestone["id"] = i` for each; `None` when one is not a dict and the assignment raises. */
  function Renumbered(ms: seq<Json>): Option<seq<Json>> {
    if forall i | 0 <= i < |ms| :: ms[i].JObj? then
      Some(seq(|ms|, i requires 0 <= i < |ms| => JObj(FieldsOf(ms[i])["id" := JInt(i)])))
    else None
  }

  /** The loop `for i, milestone in enumerate(milestones): milestone["id"] = i`. */
  method RenumberMilestones(ms: seq<Json>) returns (r: Option<seq<Json>>)
    ensures r == Renumbered(ms)
  {
    var done: seq<Json> := [];
    var i := 0;
    while i < |ms|
      invariant 0 <= i <= |ms|
      invariant forall j | 0 <= j < i :: ms[j].JObj?
      invariant done == seq(i, j requires 0 <= j < i => JObj(FieldsOf(ms[j])["id" := JInt(j)]))
    {
      if !ms[i].JObj? {
        return None;
      }
      done := done + [JObj(ms[i].fields["id" := JInt(i)])];
      i := i + 1;
    }
    r := Some(done);
  }

  /**
   * The decoded reply after renaming and validation: `None` when it is not
   * a dict (every `in`, `pop` or the type check then raises), lacks a goal
   * or a milestones list, or holds a milestone that is not a dict.
   */
  function Normalized(decoded: Json): Option<Json> {
    if !decoded.JObj? then None
    else
      var m := Renamed(Renamed(decoded.fields, "learning_goal", "goal"), "fishbone_diagram", "mermaid");
      if "goal" !in m || "milestones" !in m || !m["milestones"].JArr? then None
      else
        match Renumbered(m["milestones"].items)
        case None => None
        case Some(ms) => Some(JObj(m["milestones" := JArr(ms)]["version" := JInt(1)]))
  }

  /** The fallback's roadmap, or `None` when its `try` block raises. */
  function FallbackResult(reply: Option<string>, decode: Decoder): Option<Json> {
    if reply.None? then None
    else
      match decode(LlmUtils.PlannerClean(reply.value))
      case None => None
      case Some(decoded) => Normalized(decoded)
  }

  /** `_generate_roadmap_fallback` */
  method GenerateRoadmapFallback(target: Json, reply: Option<string>, decode: Decoder) returns (r: PlanResult)
    ensures FallbackResult(reply, decode).Some? ==> r == PlanResult(FallbackResult(reply, decode).value, None)
    ensures FallbackResult(reply, decode).None? ==> r == PlanResult(MinimalRoadmap(target), Some(GenerationFailed))
  {
    r := PlanResult(MinimalRoadmap(target), Some(GenerationFailed));
    if reply.None? {
      return;
    }
    var decoded := decode(LlmUtils.PlannerClean(reply.value));
    if decoded.None? || !decoded.value.JObj? {
      return;
    }
    var m := Renamed(decoded.value.fields, "learning_goal", "goal");
    m := Renamed(m, "fishbone_diagram", "mermaid");
    if "goal" !in m || "milestones" !in m || !m["milestones"].JArr? {
      return;
    }
    var ms := RenumberMilestones(m["milestones"].items);
    if ms.Some? {
      m := m["milestones" := JArr(ms.value)];
      m := m["version" := JInt(1)];
      r := PlanResult(JObj(m), None);
    }
  }

  // ---------------------------------------------------------------------
  // Generation
  // ---------------------------------------------------------------------

  /**
   * `_generate_roadmap`'s result, or `None` when it raises: the
   * `intent.get` calls that precede its `try` block raise when the intent
   * is not a dict.
   */
  function GenerateResult(values: map<string, Json>, target: Json, llm: PlannerLlm, decode: Decoder): Option<PlanResult> {
    if !Lookup(values, "intent", EmptyObj).JObj? then None
    else if llm.structured.Some? then Some(PlanResult(StructuredRoadmap(llm.structured.value, JInt(1)), None))
    else
      match FallbackResult(llm.fallbackReply, decode)
      case Some(r) => Some(PlanResult(r, None))
      case None => Some(PlanResult(MinimalRoadmap(target), Some(GenerationFailed)))
  }

  /** `_generate_roadmap` */
  method GenerateRoadmap(values: map<string, Json>, target: Json, llm: PlannerLlm, decode: Decoder)
    returns (r: Option<PlanResult>)
    ensures r == GenerateResult(values, target, llm, decode)
  {
    if !Lookup(values, "intent", EmptyObj).JObj? {
      return None;
    }
    if llm.structured.Some? {
      return Some(PlanResult(StructuredRoadmap(llm.structured.value, JInt(1)), None));
    }
    var fallback := GenerateRoadmapFallback(target, llm.fallbackReply, decode);
    r := Some(fallback);
  }

  // ---------------------------------------------------------------------
  // The summary of the current roadmap
  // ---------------------------------------------------------------------

  /**
   * The items `for x in v` visits, or `None` when the loop raises: a list
   * gives its items; an empty string or dict gives none; a non-empty string
   * or dict gives strings, on which the `m['id']` that follows raises; other
   * values are not iterable.
   */
  function MilestoneItems(v: Json): Option<seq<Json>> {
    match v
    case JArr(items) => Some(items)
    case JStr(s) => if s == "" then Some([]) else None
    case JObj(m) => if m == map[] then Some([]) else None
    case _ => None
  }

  /**
   * `', '.join(topics)`, or `None` when it raises. A dict's keys are joined
   * in insertion order, which the model does not keep: its text is a
   * stand-in.
   */
  function TopicsText(v: Json): Option<string> {
    match v
    case JArr(items) =>
      if forall j | 0 <= j < |items| :: items[j].JStr? then
        Some(Join(seq(|items|, j requires 0 <= j < |items| => items[j].s), ", "))
      else None
    case JStr(s) => Some(Join(seq(|s|, j requires 0 <= j < |s| => [s[j]]), ", "))
    case JObj(m) => Some(if m == map[] then "" else "<keys>")
    case _ => None
  }

  /** One milestone's lines, or `None` when a `m[...]` lookup or the join raises. */
  function MilestoneText(m: Json): Option<string> {
    if !m.JObj? || "id" !in m.fields || "title" !in m.fields || "description" !in m.fields then None
    else
      match TopicsText(Lookup(m.fields, "topics", EmptyArr))
      case None => None
      case Some(topics) =>
        Some("  阶段 " + PyStr(m.fields["id"]) + ": " + PyStr(m.fields["title"]) + "\n"
             + "    描述: " + PyStr(m.fields["description"]) + "\n"
             + "    知识点: " + topics)
  }

  /** The descriptions of the first milestones, in order; `None` once one raises. */
  function Descriptions(ms: seq<Json>): Option<seq<string>> {
    if ms == [] then Some([])
    else
      match Descriptions(ms[..|ms| - 1])
      case None => None
      case Some(ds) =>
        match MilestoneText(ms[|ms| - 1])
        case None => None
        case Some(d) => Some(ds + [d])
  }

  /** The summary `_summarize_current_roadmap` returns, or `None` when it raises. */
  function Summary(roadmap: Json): Option<string> {
    if !roadmap.JObj? then None
    else
      match MilestoneItems(Lookup(roadmap.fields, "milestones", EmptyArr))
      case None => None
      case Some(items) =>
        match Descriptions(items)
        case None => None
        case Some(ds) =>
          Some("目标: " + PyStr(Lookup(roadmap.fields, "goal", JStr(""))) + "\n"
               + "版本: " + PyStr(Lookup(roadmap.fields, "version", JInt(1))) + "\n\n"
               + "阶段:\n" + Join(ds, "\n"))
  }

  /** `_summarize_current_roadmap` */
  method SummarizeCurrentRoadmap(roadmap: Json) returns (r: Option<string>)
    ensures r == Summary(roadmap)
  {
    if !roadmap.JObj? {
      return None;
    }
    var items := MilestoneItems(Lookup(roadmap.fields, "milestones", EmptyArr));
    if items.None? {
      return None;
    }
    var ms := items.value;
    var descs: seq<string> := [];
    var i := 0;
    while i < |ms|
      invariant 0 <= i <= |ms|
      invariant Descriptions(ms[..i]) == Some(descs)
    {
      assert ms[..i + 1][..i] == ms[..i];
      var d := MilestoneText(ms[i]);
      if d.None? {
        DescriptionsSomeIff(ms);
        return None;
      }
      descs := descs + [d.value];
      i := i + 1;
    }
    assert ms[..i] == ms;
    r := Some("目标: " + PyStr(Lookup(roadmap.fields, "goal", JStr(""))) + "\n"
              + "版本: " + PyStr(Lookup(roadmap.fields, "version", JInt(1))) + "\n\n"
              + "阶段:\n" + Join(descs, "\n"));
  }

  // ---------------------------------------------------------------------
  // Modification
  // ---------------------------------------------------------------------

  /**
   * `_modify_roadmap`'s result, or `None` when it raises. Without a current
   * roadmap it generates one for the raw message. Otherwise the summary,
   * the structured call and the version increment all sit in its `try`
   * block: any of them failing returns the current roadmap unchanged.
   */
  function ModifyResult(values: map<string, Json>, llm: PlannerLlm, decode: Decoder): Option<PlanResult> {
    var current := Lookup(values, "current_roadmap", JNull);
    if !Truthy(current) then GenerateResult(values, Lookup(values, "raw_message", JStr(DefaultTarget)), llm, decode)
    else if Summary(current).None? || llm.structured.None? then Some(PlanResult(current, Some(ModificationFailed)))
    else
      match PlusOne(Get(current, "version", JInt(1)))
      case None => Some(PlanResult(current, Some(ModificationFailed)))
      case Some(v) => Some(PlanResult(StructuredRoadmap(llm.structured.value, v), None))
  }

  /** `_modify_roadmap` */
  method ModifyRoadmap(values: map<string, Json>, llm: PlannerLlm, decode: Decoder) returns (r: Option<PlanResult>)
    ensures r == ModifyResult(values, llm, decode)
  {
    var current := Lookup(values, "current_roadmap", JNull);
    if !Truthy(current) {
      r := GenerateRoadmap(values, Lookup(values, "raw_message", JStr(DefaultTarget)), llm, decode);
      return;
    }
    var summary := SummarizeCurrentRoadmap(current);
    if summary.None? || llm.structured.None? {
      return Some(PlanResult(current, Some(ModificationFailed)));
    }
    var version := PlusOne(Get(current, "version", JInt(1)));
    if version.None? {
      return Some(PlanResult(current, Some(ModificationFailed)));
    }
    r := Some(PlanResult(StructuredRoadmap(llm.structured.value, version.value), None));
  }

  // ---------------------------------------------------------------------
  // The node
  // ---------------------------------------------------------------------

  /** `state.get("routing_decision", {})` */
  function DecisionOf(values: map<string, Json>): Json {
    Lookup(values, "routing_decision", EmptyObj)
  }

  /**
   * The roadmap's target: the decision's, else the intent's, else the raw
   * message (`"新主题"` only when that key is absent); `None` when a `.get`
   * on a non-dict decision, or on a non-dict intent that is reached, raises.
   */
  function PlannerTarget(values: map<string, Json>): Option<Json> {
    var decision := DecisionOf(values);
    if !decision.JObj? then None
    else if Truthy(Get(decision, "target", JNull)) then Some(Get(decision, "target", JNull))
    else
      var intent := Lookup(values, "intent", EmptyObj);
      if !intent.JObj? then None
      else Some(Or(Get(intent, "target", JNull), Lookup(values, "raw_message", JStr(DefaultTarget))))
  }

  /** `mode == "roadmap_modify" and current_roadmap` */
  predicate IsModify(values: map<string, Json>) {
    Get(DecisionOf(values), "mode", JStr("roadmap_generate")) == JStr("roadmap_modify")
    && Truthy(Lookup(values, "current_roadmap", JNull))
  }

  /** The helper result the node stores, or `None` when the node raises. */
  function PlanOf(values: map<string, Json>, llm: PlannerLlm, decode: Decoder): Option<PlanResult> {
    match PlannerTarget(values)
    case None => None
    case Some(target) =>
      if IsModify(values) then ModifyResult(values, llm, decode) else GenerateResult(values, target, llm, decode)
  }

  /** The state after the node: the roadmap and both flags, and nothing else; `None` when it raises. */
  function Planned(values: map<string, Json>, llm: PlannerLlm, decode: Decoder): Option<map<string, Json>> {
    match PlanOf(values, llm, decode)
    case None => None
    case Some(res) =>
      Some(values["roadmap" := res.roadmap]["roadmap_only" := JBool(IsModify(values))]
                 ["roadmap_modified" := JBool(IsModify(values))])
  }

  /** `planner_agent_node` */
  method PlannerAgentNode(st: AgentState, llm: PlannerLlm, decode: Decoder) returns (raised: bool)
    modifies st
    ensures raised <==> Planned(old(st.values), llm, decode).None?
    ensures !raised ==> st.values == Planned(old(st.values), llm, decode).value
    ensures raised ==> st.values == old(st.values)
  {
    var decision := DecisionOf(st.values);
    if !decision.JObj? {
      return true;
    }
    var target := PlannerTarget(st.values);
    if target.None? {
      return true;
    }
    var result: Option<PlanResult>;
    var modifying := IsModify(st.values);
    if modifying {
      result := ModifyRoadmap(st.values, llm, decode);
    } else {
      result := GenerateRoadmap(st.values, target.value, llm, decode);
    }
    if result.None? {
      return true;
    }
    st.values := st.values["roadmap" := result.value.roadmap];
    st.values := st.values["roadmap_only" := JBool(modifying)];
    st.values := st.values["roadmap_modified" := JBool(modifying)];
    raised := false;
  }

  // ---------------------------------------------------------------------
  // Properties
  // ---------------------------------------------------------------------

  /**
   * Both flags are True exactly on the modify path and False otherwise; the
   * node adds only the roadmap and the flags, so a helper's "error" never
   * reaches the state.
   */
  lemma PlannedWritesOnlyRoadmap(values: map<string, Json>, llm: PlannerLlm, decode: Decoder)
    requires Planned(values, llm, decode).Some?
    ensures var after := Planned(values, llm, decode).value;
      && after["roadmap_only"] == JBool(IsModify(values))
      && after["roadmap_modified"] == JBool(IsModify(values))
      && after["roadmap"] == PlanOf(values, llm, decode).value.roadmap
      && after.Keys == values.Keys + {"roadmap", "roadmap_only", "roadmap_modified"}
      && (forall k | k in values && k != "roadmap" && k != "roadmap_only" && k != "roadmap_modified" :: after[k] == values[k])
      && Lookup(after, "error", JNull) == Lookup(values, "error", JNull)
  {
  }

  /** The target is the first truthy of the decision's and the intent's, then the raw message. */
  lemma TargetPriority(values: map<string, Json>)
    requires DecisionOf(values).JObj? && Lookup(values, "intent", EmptyObj).JObj?
    ensures var dt := Get(DecisionOf(values), "target", JNull);
      var it := Get(Lookup(values, "intent", EmptyObj), "target", JNull);
      && PlannerTarget(values).Some?
      && (Truthy(dt) ==> PlannerTarget(values).value == dt)
      && (!Truthy(dt) && Truthy(it) ==> PlannerTarget(values).value == it)
      && (!Truthy(dt) && !Truthy(it) && "raw_message" in values ==> PlannerTarget(values).value == values["raw_message"])
      && (!Truthy(dt) && !Truthy(it) && "raw_message" !in values ==> PlannerTarget(values).value == JStr(DefaultTarget))
  {
  }

  /** A milestone list's dump has the milestones' ids and topics. */
  lemma {:induction false} StructuredRoadmapFields(out: RoadmapOutput, version: Json)
    ensures var r := StructuredRoadmap(out, version).fields;
      && r["goal"] == JStr(out.goal) && r["mermaid"] == JStr(out.mermaid) && r["version"] == version
      && r["milestones"].JArr? && |r["milestones"].items| == |out.milestones|
      && forall i | 0 <= i < |out.milestones| ::
           Get(r["milestones"].items[i], "id", JNull) == JInt(out.milestones[i].id)
           && Get(r["milestones"].items[i], "title", JNull) == JStr(out.milestones[i].title)
  {
    var r := StructuredRoadmap(out, version).fields;
    forall i | 0 <= i < |out.milestones|
      ensures Get(r["milestones"].items[i], "id", JNull) == JInt(out.milestones[i].id)
      ensures Get(r["milestones"].items[i], "title", JNull) == JStr(out.milestones[i].title)
    {
      assert r["milestones"].items[i] == MilestoneDump(out.milestones[i]);
    }
  }

  /** Renumbering succeeds exactly on all-dict lists, sets ids 0..n-1 and keeps every other field. */
  lemma RenumberedIds(ms: seq<Json>)
    ensures Renumbered(ms).Some? <==> forall i | 0 <= i < |ms| :: ms[i].JObj?
    ensures Renumbered(ms).Some? ==>
      var r := Renumbered(ms).value;
      && |r| == |ms|
      && forall i | 0 <= i < |ms| ::
           r[i].JObj? && r[i].fields["id"] == JInt(i) && r[i].fields.Keys == ms[i].fields.Keys + {"id"}
           && forall k | k in ms[i].fields && k != "id" :: r[i].fields[k] == ms[i].fields[k]
  {
  }

  /** The fallback renames `learning_goal` only when there is no `goal`, and likewise `fishbone_diagram` and `mermaid`. */
  lemma FallbackRenames(decoded: Json)
    requires Normalized(decoded).Some?
    ensures decoded.JObj?
    ensures var d := decoded.fields;
      var r := Normalized(decoded).value.fields;
      && (("goal" in d) ==> r["goal"] == d["goal"] && Lookup(r, "learning_goal", JNull) == Lookup(d, "learning_goal", JNull))
      && (("goal" !in d) ==> "learning_goal" in d && r["goal"] == d["learning_goal"] && "learning_goal" !in r)
      && (("mermaid" in d) ==> r["mermaid"] == d["mermaid"])
      && ("mermaid" !in d && "fishbone_diagram" in d ==> r["mermaid"] == d["fishbone_diagram"] && "fishbone_diagram" !in r)
  {
  }

  /** Every roadmap the generation path stores is a dict with a goal, a milestones list and version 1. */
  lemma GeneratedWellFormed(values: map<string, Json>, target: Json, llm: PlannerLlm, decode: Decoder)
    requires GenerateResult(values, target, llm, decode).Some?
    ensures WellFormedNew(GenerateResult(values, target, llm, decode).value.roadmap)
  {
    if llm.structured.None? && FallbackResult(llm.fallbackReply, decode).Some? {
      var decoded := decode(LlmUtils.PlannerClean(llm.fallbackReply.value)).value;
      var m := Renamed(Renamed(decoded.fields, "learning_goal", "goal"), "fishbone_diagram", "mermaid");
      RenumberedIds(m["milestones"].items);
    }
  }

  /** The fallback's milestones are numbered 0..n-1. */
  lemma FallbackIdsSequential(reply: Option<string>, decode: Decoder)
    requires FallbackResult(reply, decode).Some?
    ensures var ms := FallbackResult(reply, decode).value.fields["milestones"].items;
      forall i | 0 <= i < |ms| :: Get(ms[i], "id", JNull) == JInt(i)
  {
    var decoded := decode(LlmUtils.PlannerClean(reply.value)).value;
    var m := Renamed(Renamed(decoded.fields, "learning_goal", "goal"), "fishbone_diagram", "mermaid");
    RenumberedIds(m["milestones"].items);
  }

  /**
   * Only when both methods fail is the placeholder stored, with the error:
   * the target as goal, one milestone numbered 0 with no topics, no diagram.
   */
  lemma PlaceholderOnDoubleFailure(values: map<string, Json>, target: Json, llm: PlannerLlm, decode: Decoder)
    requires GenerateResult(values, target, llm, decode).Some?
    ensures var res := GenerateResult(values, target, llm, decode).value;
      && (res.error.Some? <==> llm.structured.None? && FallbackResult(llm.fallbackReply, decode).None?)
      && (res.error.Some? ==>
           res.error == Some(GenerationFailed) && res.roadmap == MinimalRoadmap(target)
           && ErrorText(res.error.value) == Some(GenerationFailedMessage))
      && (res.error.Some? ==>
           var r := res.roadmap.fields;
           r["goal"] == target && r["mermaid"] == JNull && |r["milestones"].items| == 1
           && Get(r["milestones"].items[0], "id", JNull) == JInt(0) && Get(r["milestones"].items[0], "topics", JNull) == EmptyArr)
  {
  }

  /** A structured answer wins over the fallback. */
  lemma StructuredFirst(values: map<string, Json>, target: Json, llm: PlannerLlm, decode: Decoder)
    requires Lookup(values, "intent", EmptyObj).JObj?
    requires llm.structured.Some?
    ensures GenerateResult(values, target, llm, decode) == Some(PlanResult(StructuredRoadmap(llm.structured.value, JInt(1)), None))
  {
  }

  /**
   * On the modify path a successful modification stores the old version
   * plus one; any failure in the `try` block keeps the current roadmap.
   */
  lemma ModifyVersion(values: map<string, Json>, llm: PlannerLlm, decode: Decoder)
    requires IsModify(values)
    ensures var current := values["current_roadmap"];
      var res := ModifyResult(values, llm, decode);
      && res.Some?
      && (res.value.error.None? ==>
            current.JObj? && llm.structured.Some?
            && res.value.roadmap == StructuredRoadmap(llm.structured.value, PlusOne(Get(current, "version", JInt(1))).value))
      && (res.value.error.Some? ==> res.value.roadmap == current && res.value.error == Some(ModificationFailed))
      && (current.JObj? && Get(current, "version", JInt(1)).JInt? && res.value.error.None? ==>
            Get(res.value.roadmap, "version", JNull) == JInt(Get(current, "version", JInt(1)).i + 1))
  {
  }

  /** A modifiable dict roadmap whose summary and version work is modified whenever the model answers. */
  lemma ModifySucceeds(values: map<string, Json>, llm: PlannerLlm, decode: Decoder)
    requires IsModify(values)
    requires Summary(values["current_roadmap"]).Some?
    requires PlusOne(Get(values["current_roadmap"], "version", JInt(1))).Some?
    requires llm.structured.Some?
    ensures ModifyResult(values, llm, decode).value.error.None?
  {
  }

  /** A summary exists exactly when every milestone's text does. */
  lemma {:induction false} DescriptionsSomeIff(ms: seq<Json>)
    ensures Descriptions(ms).Some? <==> forall i | 0 <= i < |ms| :: MilestoneText(ms[i]).Some?
    decreases |ms|
  {
    if ms != [] {
      var init := ms[..|ms| - 1];
      DescriptionsSomeIff(init);
      assert forall i | 0 <= i < |init| :: init[i] == ms[i];
    }
  }

  /** A summary holds one text per milestone, in order. */
  lemma {:induction false} DescriptionsInOrder(ms: seq<Json>)
    requires Descriptions(ms).Some?
    ensures |Descriptions(ms).value| == |ms|
    ensures forall i | 0 <= i < |ms| :: MilestoneText(ms[i]).Some? && Descriptions(ms).value[i] == MilestoneText(ms[i]).value
    decreases |ms|
  {
    if ms != [] {
      var init := ms[..|ms| - 1];
      DescriptionsInOrder(init);
      assert forall i | 0 <= i < |init| :: init[i] == ms[i];
    }
  }

  /** A current roadmap whose milestones hold no `id` key cannot be summarised, so it is never modified. */
  lemma MissingIdKeepsRoadmap(values: map<string, Json>, llm: PlannerLlm, decode: Decoder, i: nat)
    requires IsModify(values)
    requires values["current_roadmap"].JObj?
    requires Lookup(values["current_roadmap"].fields, "milestones", EmptyArr).JArr?
    requires i < |Lookup(values["current_roadmap"].fields, "milestones", EmptyArr).items|
    requires !Lookup(values["current_roadmap"].fields, "milestones", EmptyArr).items[i].JObj?
             || "id" !in Lookup(values["current_roadmap"].fields, "milestones", EmptyArr).items[i].fields
    ensures ModifyResult(values, llm, decode).value == PlanResult(values["current_roadmap"], Some(ModificationFailed))
  {
    DescriptionsSomeIff(Lookup(values["current_roadmap"].fields, "milestones", EmptyArr).items);
  }

  /** From the node the modify helper never takes its generate branch: the node already checks the current roadmap. */
  lemma NodeModifyNeverGenerates(values: map<string, Json>, llm: PlannerLlm, decode: Decoder)
    requires IsModify(values)
    ensures ModifyResult(values, llm, decode).Some?
    ensures ModifyResult(values, llm, decode).value.error.Some? ==>
      ModifyResult(values, llm, decode).value.roadmap == values["current_roadmap"]
  {
  }
}
