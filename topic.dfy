/**
 * The topic node: it resolves the session's learning topic from the intent
 * target, marks the session for a topic update and generates a first
 * roadmap with a single structured-output call, falling back to a
 * one-milestone placeholder. The language model is a parameter.
 */
module Topic {
  import opened Wrappers
  import opened Text
  import opened Json
  import opened AgentStateModel
  import Classifier
  import Planner

  const TopicPrefixes: seq<string> := ["我想学", "我想了解", "教教我", "学习", "了解一下"]
  const TopicSuffixes: seq<string> := ["入门", "基础", "教程", "指南"]

  /** One round of the suffix loop: the suffix is cut and the rest trimmed. */
  function CutSuffix(s: string, x: string): string {
    if EndsWith(s, x) then Strip(s[..|s| - |x|]) else s
  }

  function CutSuffixes(s: string, xs: seq<string>): string
    decreases |xs|
  {
    if xs == [] then s else CutSuffixes(CutSuffix(s, xs[0]), xs[1..])
  }

  /** The cleaned target: each prefix, then each suffix, cut at most once in list order. */
  function Cleaned(target: string): string {
    CutSuffixes(Classifier.CutTargetPrefixes(target, TopicPrefixes), TopicSuffixes)
  }

  /** `cleaned or target or state.get("raw_message", "新主题")` */
  function ResolvedTopic(values: map<string, Json>, target: string): Json {
    if Cleaned(target) != "" then JStr(Cleaned(target))
    else if target != "" then JStr(target)
    else Lookup(values, "raw_message", JStr(Planner.DefaultTarget))
  }

  /** `_resolve_topic` */
  method ResolveTopic(values: map<string, Json>, target: string) returns (topic: Json)
    ensures topic == ResolvedTopic(values, target)
  {
    var cleaned := target;
    var i := 0;
    while i < |TopicPrefixes|
      invariant 0 <= i <= |TopicPrefixes|
      invariant Classifier.CutTargetPrefixes(cleaned, TopicPrefixes[i..]) == Classifier.CutTargetPrefixes(target, TopicPrefixes)
    {
      var prefix := TopicPrefixes[i];
      if StartsWith(cleaned, prefix) {
        cleaned := Strip(cleaned[|prefix|..]);
      }
      i := i + 1;
    }
    var j := 0;
    while j < |TopicSuffixes|
      invariant 0 <= j <= |TopicSuffixes|
      invariant CutSuffixes(cleaned, TopicSuffixes[j..]) == Cleaned(target)
    {
      var suffix := TopicSuffixes[j];
      if EndsWith(cleaned, suffix) {
        cleaned := Strip(cleaned[..|cleaned| - |suffix|]);
      }
      j := j + 1;
    }
    if cleaned != "" {
      topic := JStr(cleaned);
    } else if target != "" {
      topic := JStr(target);
    } else {
      topic := Lookup(values, "raw_message", JStr(Planner.DefaultTarget));
    }
  }

  /** The roadmap of the topic node's own `_generate_roadmap`: no fallback parse, and no error key. */
  function TopicRoadmap(topic: Json, structured: Option<Planner.RoadmapOutput>): Json {
    if structured.Some? then Planner.StructuredRoadmap(structured.value, JInt(1)) else Planner.MinimalRoadmap(topic)
  }

  /**
   * The target the node reads, or `None` when it raises: a truthy intent
   * that is not a dict fails at `.get`, and a target that is not a string
   * fails at `startswith`.
   */
  function TopicTarget(values: map<string, Json>): Option<string> {
    var intent := Or(Lookup(values, "intent", JNull), EmptyObj);
    if !intent.JObj? then None
    else
      var target := Get(intent, "target", JStr(""));
      if target.JStr? then Some(target.s) else None
  }

  /** The state after the node, or `None` when it raises. */
  function TopicAfter(values: map<string, Json>, structured: Option<Planner.RoadmapOutput>): Option<map<string, Json>> {
    match TopicTarget(values)
    case None => None
    case Some(target) =>
      var topic := ResolvedTopic(values, target);
      Some(values["session_topic" := topic]
                 ["pending_session_update" := JObj(map["learning_goal" := topic])]
                 ["roadmap" := TopicRoadmap(topic, structured)]
                 ["roadmap_only" := JBool(false)]
                 ["roadmap_modified" := JBool(false)])
  }

  /** `topic_agent_node` */
  method TopicAgentNode(st: AgentState, structured: Option<Planner.RoadmapOutput>) returns (raised: bool)
    modifies st
    ensures raised <==> TopicAfter(old(st.values), structured).None?
    ensures !raised ==> st.values == TopicAfter(old(st.values), structured).value
    ensures raised ==> st.values == old(st.values)
  {
    var target := TopicTarget(st.values);
    if target.None? {
      return true;
    }
    var topic := ResolveTopic(st.values, target.value);
    st.values := st.values["session_topic" := topic];
    st.values := st.values["pending_session_update" := JObj(map["learning_goal" := topic])];
    st.values := st.values["roadmap" := TopicRoadmap(topic, structured)];
    st.values := st.values["roadmap_only" := JBool(false)];
    st.values := st.values["roadmap_modified" := JBool(false)];
    raised := false;
  }

  // ---------------------------------------------------------------------
  // Properties
  // ---------------------------------------------------------------------

  /** Cutting never lengthens the text. */
  lemma {:induction false} CutPrefixesShorter(s: string, ps: seq<string>)
    ensures |Classifier.CutTargetPrefixes(s, ps)| <= |s|
    decreases |ps|
  {
    if ps != [] {
      var once := Classifier.CutTargetPrefix(s, ps[0]);
      if StartsWith(s, ps[0]) {
        LStripShape(s[|ps[0]|..]);
        RStripShape(LStrip(s[|ps[0]|..]));
      }
      CutPrefixesShorter(once, ps[1..]);
    }
  }

  lemma {:induction false} CutSuffixesShorter(s: string, xs: seq<string>)
    ensures |CutSuffixes(s, xs)| <= |s|
    decreases |xs|
  {
    if xs != [] {
      var once := CutSuffix(s, xs[0]);
      if EndsWith(s, xs[0]) {
        LStripShape(s[..|s| - |xs[0]|]);
        RStripShape(LStrip(s[..|s| - |xs[0]|]));
      }
      CutSuffixesShorter(once, xs[1..]);
    }
  }

  /** A non-empty target always resolves to a non-empty string no longer than the target. */
  lemma NonEmptyTargetGivesText(values: map<string, Json>, target: string)
    requires target != ""
    ensures ResolvedTopic(values, target).JStr?
    ensures ResolvedTopic(values, target).s != ""
    ensures |ResolvedTopic(values, target).s| <= |target|
  {
    CutPrefixesShorter(target, TopicPrefixes);
    CutSuffixesShorter(Classifier.CutTargetPrefixes(target, TopicPrefixes), TopicSuffixes);
  }

  /** A request such as "学习Rust教程" resolves to its subject: one prefix and one suffix are cut. */
  lemma LearnRustTutorial()
    ensures ResolvedTopic(map[], "学习Rust教程") == JStr("Rust")
  {
    var s0 := "学习Rust教程";
    assert !StartsWith(s0, "我想学") && !StartsWith(s0, "我想了解") && !StartsWith(s0, "教教我") by {
      assert s0[0] == '学';
    }
    assert s0[..2] == "学习";
    var s1 := "Rust教程";
    assert s0[2..] == s1;
    StripNoop(s1);
    assert !StartsWith(s1, "了解一下") by { assert s1[0] == 'R'; }
    assert Classifier.CutTargetPrefixes(s0, TopicPrefixes) == s1 by {
      assert Classifier.CutTargetPrefix(s0, "我想学") == s0;
      assert Classifier.CutTargetPrefix(s0, "我想了解") == s0;
      assert Classifier.CutTargetPrefix(s0, "教教我") == s0;
      assert Classifier.CutTargetPrefix(s0, "学习") == s1;
      assert Classifier.CutTargetPrefix(s1, "了解一下") == s1;
    }
    assert !EndsWith(s1, "入门") && !EndsWith(s1, "基础") by { assert s1[5] == '程'; }
    assert s1[4..] == "教程";
    var s2 := "Rust";
    assert s1[..4] == s2;
    StripNoop(s2);
    assert !EndsWith(s2, "指南") by { assert s2[3] == 't'; }
    assert CutSuffixes(s1, TopicSuffixes) == s2 by {
      assert CutSuffix(s1, "入门") == s1;
      assert CutSuffix(s1, "基础") == s1;
      assert CutSuffix(s1, "教程") == s2;
      assert CutSuffix(s2, "指南") == s2;
    }
  }

  /** An empty target falls back to the raw message, and to "新主题" only when that key is absent. */
  lemma EmptyTargetUsesRawMessage(values: map<string, Json>)
    ensures ResolvedTopic(values, "") == Lookup(values, "raw_message", JStr(Planner.DefaultTarget))
  {
    assert Classifier.CutTargetPrefixes("", TopicPrefixes) == "";
    assert CutSuffixes("", TopicSuffixes) == "";
  }

  /**
   * The node records the resolved topic as the session topic and as the
   * pending learning goal, stores the roadmap, and clears both flags.
   */
  lemma TopicNodeFields(values: map<string, Json>, structured: Option<Planner.RoadmapOutput>)
    requires TopicAfter(values, structured).Some?
    ensures var after := TopicAfter(values, structured).value;
      var topic := ResolvedTopic(values, TopicTarget(values).value);
      && after["session_topic"] == topic
      && Get(after["pending_session_update"], "learning_goal", JNull) == topic
      && after["roadmap_only"] == JBool(false) && after["roadmap_modified"] == JBool(false)
      && after.Keys == values.Keys + {"session_topic", "pending_session_update", "roadmap", "roadmap_only", "roadmap_modified"}
      && forall k | k in values && k !in {"session_topic", "pending_session_update", "roadmap", "roadmap_only", "roadmap_modified"} ::
           after[k] == values[k]
  {
    var topic := ResolvedTopic(values, TopicTarget(values).value);
    NodeUpdates(values, topic, JObj(map["learning_goal" := topic]), TopicRoadmap(topic, structured));
  }

  /** The five keys the node sets, over any state. */
  lemma NodeUpdates(values: map<string, Json>, topic: Json, pending: Json, roadmap: Json)
    ensures var after := values["session_topic" := topic]["pending_session_update" := pending]["roadmap" := roadmap]
                               ["roadmap_only" := JBool(false)]["roadmap_modified" := JBool(false)];
      && after["session_topic"] == topic && after["pending_session_update"] == pending
      && after["roadmap_only"] == JBool(false) && after["roadmap_modified"] == JBool(false)
      && after.Keys == values.Keys + {"session_topic", "pending_session_update", "roadmap", "roadmap_only", "roadmap_modified"}
      && forall k | k in values && k !in {"session_topic", "pending_session_update", "roadmap", "roadmap_only", "roadmap_modified"} ::
           after[k] == values[k]
  {
  }

  /** A failed roadmap call gives the one-milestone placeholder, with exactly the four roadmap keys and no error key. */
  lemma TopicRoadmapFallback(topic: Json)
    ensures TopicRoadmap(topic, None) == Planner.MinimalRoadmap(topic)
    ensures TopicRoadmap(topic, None).fields.Keys == {"goal", "milestones", "mermaid", "version"}
    ensures "error" !in TopicRoadmap(topic, None).fields
    ensures |TopicRoadmap(topic, None).fields["milestones"].items| == 1
  {
  }
}
