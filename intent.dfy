/**
 * `intent_agent_node`: the intent of a turn, chosen by the input source.
 * Entity clicks, comments, follow-ups and entry points have their own
 * analysers; chat input goes through the classifier.
 */
module IntentNode {
  import opened Wrappers
  import opened Text
  import opened Json
  import opened AgentStateModel
  import opened Classifier

  /** The keys `_build_intent` always writes. */
  const BuiltKeys: set<string> := {"intent_type", "target", "complexity", "ambiguity", "confidence"}

  /**
   * `_build_intent`: the five common keys plus the keyword arguments.  Python
   * refuses a keyword argument that repeats one of the named parameters, so
   * the extras never name a common key.
   */
  function BuildIntent(intentType: Json, target: Json, confidence: real, complexity: string,
                       ambiguity: string, extra: map<string, Json>): (r: Json)
    requires extra.Keys !! BuiltKeys
    ensures r.JObj? && r.fields.Keys == BuiltKeys + extra.Keys
    ensures r.fields["intent_type"] == intentType && r.fields["target"] == target
    ensures r.fields["confidence"] == JReal(confidence)
    ensures r.fields["complexity"] == JStr(complexity) && r.fields["ambiguity"] == JStr(ambiguity)
    ensures forall k :: k in extra ==> r.fields[k] == extra[k]
  {
    JObj(map["intent_type" := intentType, "target" := target, "complexity" := JStr(complexity),
             "ambiguity" := JStr(ambiguity), "confidence" := JReal(confidence)] + extra)
  }

  /** `_estimate_complexity` */
  function EstimateComplexity(message: string): string {
    if |message| < 20 then "simple" else if |message| < 100 then "moderate" else "complex"
  }

  function ComplexityRank(c: string): nat {
    if c == "simple" then 0 else if c == "moderate" then 1 else 2
  }

  /** A longer message is never judged simpler than a shorter one. */
  lemma ComplexityMonotone(a: string, b: string)
    requires |a| <= |b|
    ensures ComplexityRank(EstimateComplexity(a)) <= ComplexityRank(EstimateComplexity(b))
  {
  }

  /** `_estimate_ambiguity` */
  function EstimateAmbiguity(message: string): (r: string)
    ensures r == "high" ==> |message| < 10
    ensures r in {"low", "medium", "high"}
    ensures Contains(message, "?") ==> r == "medium"
  {
    if Contains(message, "?") || Contains(message, "什么") || Contains(message, "怎么") then "medium"
    else if |message| < 10 then "high"
    else "low"
  }

  // ---------------------------------------------------------------------
  // Entity clicks
  // ---------------------------------------------------------------------

  /** `entity_data.get("entity_name", "")` after `state.get("entity_data") or {}`. */
  function EntityName(values: map<string, Json>): Json {
    Get(Or(Lookup(values, "entity_data", JNull), EmptyObj), "entity_name", JStr(""))
  }

  /** `if doc_id:` on the lookup's result; a raising lookup leaves `doc_id` None. */
  predicate FoundDoc(lookup: Answer<Option<int>>) {
    lookup.Answered? && lookup.value.Some? && lookup.value.value != 0
  }

  /** `_analyze_entity_intent`: `lookup` is `find_entity_document`'s answer. */
  function EntityIntent(values: map<string, Json>, lookup: Answer<Option<int>>): (r: Json)
    ensures r.JObj? && Get(r, "target", JNull) == EntityName(values)
    ensures Get(r, "confidence", JNull) == JReal(0.95)
    ensures Get(r, "intent_type", JNull) == JStr("navigate") <==> FoundDoc(lookup)
    ensures !FoundDoc(lookup) ==> Get(r, "intent_type", JNull) == JStr("new_topic") && "target_doc_id" !in r.fields
    ensures FoundDoc(lookup) ==> Get(r, "target_doc_id", JNull) == JInt(lookup.value.value)
  {
    var name := EntityName(values);
    if FoundDoc(lookup) then
      var id := lookup.value.value;
      BuildIntent(JStr("navigate"), name, 0.95, "simple", "low",
        map["target_doc_id" := JInt(id),
            "reasoning" := JStr("Entity '" + PyStr(name) + "' has existing document " + IntToDecimal(id))])
    else
      BuildIntent(JStr("new_topic"), name, 0.95, "simple", "low",
        map["reasoning" := JStr("Need to create document for entity '" + PyStr(name) + "'")])
  }

  // ---------------------------------------------------------------------
  // Comments on a selection
  // ---------------------------------------------------------------------

  /** The feedback keywords per need, in the dict's iteration order. */
  const FeedbackMap: seq<(string, seq<string>)> := [
    ("more_examples", ["太抽象", "太理论", "举例", "具体点", "实例"]),
    ("more_depth", ["太简单", "再深入", "原理", "底层", "为什么"]),
    ("more_clarity", ["看不懂", "不清楚", "太乱", "太复杂", "重新说"]),
    ("different_angle", ["换个说法", "另外的角度", "通俗点"])
  ]

  /** `any(kw in comment for kw in keywords)` */
  predicate AnyKeyword(comment: string, keywords: seq<string>) {
    exists k | 0 <= k < |keywords| :: Contains(comment, keywords[k])
  }

  function FirstNeedFrom(comment: string, i: nat): (r: Option<nat>)
    requires i <= |FeedbackMap|
    ensures r.Some? ==> i <= r.value < |FeedbackMap| && AnyKeyword(comment, FeedbackMap[r.value].1)
    ensures r.Some? ==> forall k :: i <= k < r.value ==> !AnyKeyword(comment, FeedbackMap[k].1)
    ensures r.None? ==> forall k :: i <= k < |FeedbackMap| ==> !AnyKeyword(comment, FeedbackMap[k].1)
    decreases |FeedbackMap| - i
  {
    if i == |FeedbackMap| then None
    else if AnyKeyword(comment, FeedbackMap[i].1) then Some(i)
    else FirstNeedFrom(comment, i + 1)
  }

  /** The need of a comment: the first whose keywords occur in it, else "more_examples". */
  function NeedOf(comment: string): string {
    match FirstNeedFrom(comment, 0)
    case Some(k) => FeedbackMap[k].0
    case None => "more_examples"
  }

  /** The `for need, keywords in feedback_map.items()` loop with `break`. */
  method AnalyzeCommentNeed(comment: string) returns (need: string)
    ensures need == NeedOf(comment)
    ensures need in {"more_examples", "more_depth", "more_clarity", "different_angle"}
  {
    var found: Option<string> := None;
    var i := 0;
    while i < |FeedbackMap|
      invariant 0 <= i <= |FeedbackMap|
      invariant found.None? ==> FirstNeedFrom(comment, i) == FirstNeedFrom(comment, 0)
      invariant found.Some? ==> found == Some(NeedOf(comment))
    {
      if AnyKeyword(comment, FeedbackMap[i].1) {
        found := Some(FeedbackMap[i].0);
        break;
      }
      i := i + 1;
    }
    need := if found.Some? then found.value else "more_examples";
  }

  /** The title of the document a comment asks for. */
  function CommentTarget(selected: string): (r: string)
    ensures selected == "" ==> r == "选中的内容"
    ensures selected != "" && |selected| <= 50 ==> r == selected
    ensures |selected| > 50 ==> r == selected[..50] + "..."
  {
    var t := if selected != "" then Take(selected, 50) else "选中的内容";
    if |selected| > 50 then t + "..." else t
  }

  function CommentData(values: map<string, Json>): Json {
    Or(Lookup(values, "comment_data", JNull), EmptyObj)
  }

  function CommentIntentWith(values: map<string, Json>, need: string): Json {
    var cd := CommentData(values);
    BuildIntent(JStr("optimize_content"), JStr(CommentTarget(TextOf(Get(cd, "selected_text", JStr(""))))),
      0.85, "moderate", "medium",
      map["user_need" := JStr(need), "target_section" := Get(cd, "section_id", JNull),
          "reasoning" := JStr("Comment indicates need for " + need + ", will generate new document")])
  }

  /** `_analyze_comment_intent` */
  function CommentIntent(values: map<string, Json>): (r: Json)
    ensures r.JObj? && Get(r, "intent_type", JNull) == JStr("optimize_content")
    ensures Get(r, "confidence", JNull) == JReal(0.85)
    ensures Get(r, "user_need", JNull) == JStr(NeedOf(TextOf(Get(CommentData(values), "comment", JStr("")))))
    ensures Get(r, "target", JNull) == JStr(CommentTarget(TextOf(Get(CommentData(values), "selected_text", JStr("")))))
  {
    CommentIntentWith(values, NeedOf(TextOf(Get(CommentData(values), "comment", JStr("")))))
  }

  /** "太抽象" is the first keyword of the first need. */
  lemma TooAbstractWantsExamples()
    ensures NeedOf("太抽象") == "more_examples"
  {
    assert At("太抽象", "太抽象", 0);
    assert Contains("太抽象", FeedbackMap[0].1[0]);
    assert AnyKeyword("太抽象", FeedbackMap[0].1);
  }

  /** "为什么" names no example keyword, so it asks for depth. */
  lemma WhyWantsDepth()
    ensures NeedOf("为什么") == "more_depth"
  {
    var s := "为什么";
    forall k | 0 <= k < |FeedbackMap[0].1| ensures !Contains(s, FeedbackMap[0].1[k]) {
      NoCharNoContains(s, FeedbackMap[0].1[k]);
    }
    assert At(s, "为什么", 0);
    assert Contains(s, FeedbackMap[1].1[4]);
    assert AnyKeyword(s, FeedbackMap[1].1);
  }

  /** A comment naming no keyword at all asks for examples. */
  lemma NoKeywordWantsExamples()
    ensures NeedOf("") == "more_examples"
  {
    forall n | 0 <= n < |FeedbackMap| ensures !AnyKeyword("", FeedbackMap[n].1) {
      forall k | 0 <= k < |FeedbackMap[n].1| ensures !Contains("", FeedbackMap[n].1[k]) {
        NoCharNoContains("", FeedbackMap[n].1[k]);
      }
    }
  }

  // ---------------------------------------------------------------------
  // Follow-ups and entry points
  // ---------------------------------------------------------------------

  /** `_analyze_followup_intent` */
  function FollowUpIntent(values: map<string, Json>): (r: Json)
    ensures r.JObj? && Get(r, "confidence", JNull) == JReal(0.9)
    ensures Get(r, "intent_type", JNull) == Or(Lookup(values, "intent_hint", JStr("follow_up")), JStr("follow_up"))
    ensures Truthy(Get(r, "intent_type", JNull))
    ensures Get(r, "target", JNull) == Or(Lookup(values, "raw_message", JStr("")), JStr(""))
  {
    BuildIntent(Or(Lookup(values, "intent_hint", JStr("follow_up")), JStr("follow_up")),
      Or(Lookup(values, "raw_message", JStr("")), JStr("")), 0.9, "simple", "low",
      map["reasoning" := JStr("Follow-up question with intent hint")])
  }

  function EntryIntent(message: string): (r: Json)
    ensures r.JObj? && Get(r, "intent_type", JNull) == JStr("new_topic")
      && Get(r, "target", JNull) == JStr(Strip(message)) && Get(r, "confidence", JNull) == JReal(0.95)
  {
    BuildIntent(JStr("new_topic"), JStr(Strip(message)), 0.95, "simple", "low",
      map["reasoning" := JStr("Entry point - simple new topic")])
  }

  /** The classifier's result with complexity and ambiguity overwritten by the estimators. */
  function ChatIntent(classified: Json, message: string): (r: Json)
    ensures r.JObj? && r.fields.Keys == FieldsOf(classified).Keys + {"complexity", "ambiguity"}
    ensures Get(r, "complexity", JNull) == JStr(EstimateComplexity(message))
      && Get(r, "ambiguity", JNull) == JStr(EstimateAmbiguity(message))
    ensures forall k :: k in FieldsOf(classified) && k !in {"complexity", "ambiguity"} ==>
      r.fields[k] == FieldsOf(classified)[k]
  {
    JObj(FieldsOf(classified)["complexity" := JStr(EstimateComplexity(message))]
                             ["ambiguity" := JStr(EstimateAmbiguity(message))])
  }

  /** The intent `intent_agent_node` stores, given the classifier and the oracles' answers. */
  function IntentFor(values: map<string, Json>, c: IntentClassifier, lookup: Answer<Option<int>>,
                     reply: Option<string>, decode: Decoder, elapsedMs: int): (r: Json)
    ensures var source := Lookup(values, "input_source", JStr("chat"));
      (source == JStr("entity") ==> r == EntityIntent(values, lookup))
      && (source == JStr("comment") ==> r == CommentIntent(values))
      && (source == JStr("follow_up") ==> r == FollowUpIntent(values))
      && (source == JStr("entry") ==>
            r.JObj? && Get(r, "intent_type", JNull) == JStr("new_topic")
            && Get(r, "target", JNull) == JStr(Strip(RawMessage(values))) && Get(r, "confidence", JNull) == JReal(0.95))
      && (source !in {JStr("entity"), JStr("comment"), JStr("follow_up"), JStr("entry")} ==>
            var classified := ClassifySpec(c, RawMessage(values), EmptyObj, reply, decode, elapsedMs);
            r.JObj? && r.fields.Keys == FieldsOf(classified).Keys + {"complexity", "ambiguity"}
            && Get(r, "complexity", JNull) == JStr(EstimateComplexity(RawMessage(values)))
            && Get(r, "ambiguity", JNull) == JStr(EstimateAmbiguity(RawMessage(values)))
            && forall k :: k in FieldsOf(classified) && k !in {"complexity", "ambiguity"} ==>
                 r.fields[k] == FieldsOf(classified)[k])
  {
    var source := Lookup(values, "input_source", JStr("chat"));
    var message := RawMessage(values);
    if source == JStr("entity") then EntityIntent(values, lookup)
    else if source == JStr("comment") then CommentIntent(values)
    else if source == JStr("follow_up") then FollowUpIntent(values)
    else if source == JStr("entry") then EntryIntent(message)
    else ChatIntent(ClassifySpec(c, message, EmptyObj, reply, decode, elapsedMs), message)
  }

  /** The comment branch: the need comes from the keyword loop. */
  method AnalyzeCommentIntent(values: map<string, Json>) returns (intent: Json)
    ensures intent == CommentIntent(values)
  {
    var cd := CommentData(values);
    var need := AnalyzeCommentNeed(TextOf(Get(cd, "comment", JStr(""))));
    intent := CommentIntentWith(values, need);
  }

  /** The chat branch: classify, then overwrite complexity and ambiguity. */
  method AnalyzeChatIntent(c: IntentClassifier, message: string, reply: Option<string>,
                           decode: Decoder, elapsedMs: int) returns (intent: Json)
    ensures intent == ChatIntent(ClassifySpec(c, message, EmptyObj, reply, decode, elapsedMs), message)
  {
    var classified := Classify(c, message, EmptyObj, reply, decode, elapsedMs);
    var fields := FieldsOf(classified);
    fields := fields["complexity" := JStr(EstimateComplexity(message))];
    fields := fields["ambiguity" := JStr(EstimateAmbiguity(message))];
    intent := JObj(fields);
  }

  /** The source dispatch of `intent_agent_node`. */
  method AnalyzeIntent(values: map<string, Json>, c: IntentClassifier, lookup: Answer<Option<int>>,
                       reply: Option<string>, decode: Decoder, elapsedMs: int) returns (intent: Json)
    ensures intent == IntentFor(values, c, lookup, reply, decode, elapsedMs)
  {
    var source := Lookup(values, "input_source", JStr("chat"));
    var message := RawMessage(values);
    if source == JStr("entity") {
      intent := EntityIntent(values, lookup);
    } else if source == JStr("comment") {
      intent := AnalyzeCommentIntent(values);
    } else if source == JStr("follow_up") {
      intent := FollowUpIntent(values);
    } else if source == JStr("entry") {
      intent := EntryIntent(message);
    } else {
      intent := AnalyzeChatIntent(c, message, reply, decode, elapsedMs);
    }
  }

  /**
   * `intent_agent_node`: fetches the classifier singleton, computes the
   * intent for the input source and stores it under "intent".
   */
  method IntentAgentNode(st: AgentState, reg: ClassifierRegistry, llm: Option<nat>,
                         lookup: Answer<Option<int>>, reply: Option<string>, decode: Decoder, elapsedMs: int)
    modifies st, reg
    ensures reg.current == Some(old(reg.current).GetOr(IntentClassifier(llm)))
    ensures st.values == old(st.values)["intent" :=
      IntentFor(old(st.values), old(reg.current).GetOr(IntentClassifier(llm)), lookup, reply, decode, elapsedMs)]
  {
    var c := reg.GetClassifier(llm);
    var intent := AnalyzeIntent(st.values, c, lookup, reply, decode, elapsedMs);
    st.values := st.values["intent" := intent];
  }
}
