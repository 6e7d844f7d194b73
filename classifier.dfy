/**
 * The layered intent classifier: strong patterns, then fuzzy keywords, then
 * the LLM when one is configured, then a fixed fallback.  The LLM's reply
 * and the elapsed time are parameters.
 */
module Classifier {
  import opened Wrappers
  import opened Text
  import opened Json
  import LlmUtils

  /** One alternative of a strong pattern: a literal, or `first.*then`. */
  datatype Alt = Lit(word: string) | Gap(first: string, later: string)

  /** One row of the strong table: an alternation and the intent it yields. */
  datatype StrongRule = StrongRule(alts: seq<Alt>, intent: string)

  predicate AltMatches(msg: string, alt: Alt) {
    match alt
    case Lit(w) => Contains(msg, w)
    case Gap(a, b) => Follows(msg, a, b)
  }

  /** `re.search(pattern, msg, re.IGNORECASE)`; the patterns hold no cased letters. */
  predicate RuleMatches(msg: string, rule: StrongRule) {
    exists k | 0 <= k < |rule.alts| :: AltMatches(msg, rule.alts[k])
  }

  /** The strong table, in its iteration order. */
  const StrongPatterns: seq<StrongRule> := [
    StrongRule([Lit("我想学"), Lit("我想了解"), Lit("教教我"), Lit("什么是"), Gap("介绍", "一下")], "new_topic"),
    StrongRule([Lit("详细说说"), Lit("深入讲讲"), Lit("再详细点"), Lit("展开讲讲")], "follow_up"),
    StrongRule([Gap("和", "的区别"), Gap("和", "不同"), Lit("对比一下"), Gap("比较", "和")], "comparison"),
    StrongRule([Lit("怎么办"), Lit("怎么做"), Lit("如何实现"), Gap("给我", "例子")], "question_practical"),
    StrongRule([Lit("太抽象"), Lit("太简单"), Lit("没看懂"), Lit("不明白"), Lit("详细点")], "optimize_content")
  ]

  /** The fuzzy keyword table, in its iteration order. */
  const FuzzyPatterns: seq<(string, string)> := [
    ("讲详细", "follow_up"),
    ("说清楚", "optimize_content"),
    ("举例", "optimize_content"),
    ("更深入", "follow_up"),
    ("补充", "optimize_content")
  ]

  /** The prefixes `_extract_target` removes, each at most once, in this order. */
  const TargetPrefixes: seq<string> := ["我想学", "我想了解", "什么是", "介绍一下", "详细说说"]

  /** The classifier object; `llm` is the handle of the configured LLM, if any. */
  datatype IntentClassifier = IntentClassifier(llm: Option<nat>)

  /** The index of the first strong row at or after `i` that matches. */
  function FirstStrongFrom(msg: string, i: nat): (r: Option<nat>)
    requires i <= |StrongPatterns|
    ensures r.Some? ==> i <= r.value < |StrongPatterns| && RuleMatches(msg, StrongPatterns[r.value])
    ensures r.Some? ==> forall k :: i <= k < r.value ==> !RuleMatches(msg, StrongPatterns[k])
    ensures r.None? ==> forall k :: i <= k < |StrongPatterns| ==> !RuleMatches(msg, StrongPatterns[k])
    decreases |StrongPatterns| - i
  {
    if i == |StrongPatterns| then None
    else if RuleMatches(msg, StrongPatterns[i]) then Some(i)
    else FirstStrongFrom(msg, i + 1)
  }

  function FirstStrong(msg: string): Option<nat> {
    FirstStrongFrom(msg, 0)
  }

  /** The index of the first fuzzy keyword at or after `i` contained in the lowered message. */
  function FirstFuzzyFrom(lowered: string, i: nat): (r: Option<nat>)
    requires i <= |FuzzyPatterns|
    ensures r.Some? ==> i <= r.value < |FuzzyPatterns| && Contains(lowered, FuzzyPatterns[r.value].0)
    ensures r.Some? ==> forall k :: i <= k < r.value ==> !Contains(lowered, FuzzyPatterns[k].0)
    ensures r.None? ==> forall k :: i <= k < |FuzzyPatterns| ==> !Contains(lowered, FuzzyPatterns[k].0)
    decreases |FuzzyPatterns| - i
  {
    if i == |FuzzyPatterns| then None
    else if Contains(lowered, FuzzyPatterns[i].0) then Some(i)
    else FirstFuzzyFrom(lowered, i + 1)
  }

  function FirstFuzzy(msg: string): Option<nat> {
    FirstFuzzyFrom(Lower(msg), 0)
  }

  /** One round of the prefix loop of `_extract_target`. */
  function CutTargetPrefix(s: string, p: string): string {
    if StartsWith(s, p) then Strip(s[|p|..]) else s
  }

  function CutTargetPrefixes(s: string, ps: seq<string>): string
    decreases |ps|
  {
    if ps == [] then s else CutTargetPrefixes(CutTargetPrefix(s, ps[0]), ps[1..])
  }

  /** What `_extract_target(msg)` returns. */
  function TargetOf(msg: string): string {
    var result := CutTargetPrefixes(msg, TargetPrefixes);
    if result != "" then Take(result, 100) else Take(msg, 100)
  }

  /** A rule-tier or fallback result dict. */
  function TierResult(intent: string, confidence: real, how: string, ms: int, target: string): Json {
    JObj(map["intent_type" := JStr(intent), "confidence" := JReal(confidence), "method" := JStr(how),
             "processing_time_ms" := JInt(ms), "target" := JStr(target)])
  }

  /**
   * `_llm_classify`: `reply` is the LLM's text, `None` when the call raised.
   * Anything that raises afterwards (a decode error, a decoded value that is
   * not a dict) gives the "llm_fallback" result.
   */
  function LlmClassify(msg: string, reply: Option<string>, decode: Decoder, elapsedMs: int): (r: Json)
    ensures r.JObj? && "intent_type" in r.fields && "target" in r.fields
    ensures Get(r, "method", JNull) == JStr("llm") <==>
      reply.Some? && decode(LlmUtils.InlineClean(reply.value)).Some? && decode(LlmUtils.InlineClean(reply.value)).value.JObj?
    ensures Get(r, "method", JNull) == JStr("llm") ==>
      var p := decode(LlmUtils.InlineClean(reply.value)).value.fields;
      Get(r, "intent_type", JNull) == Lookup(p, "intent_type", JStr("question"))
      && Get(r, "confidence", JNull) == JReal(0.85)
      && Get(r, "target", JNull) == Lookup(p, "target", JStr(TargetOf(msg)))
      && Get(r, "reasoning", JNull) == Lookup(p, "reasoning", JStr(""))
    ensures Get(r, "method", JNull) != JStr("llm") ==>
      r == TierResult("question", 0.5, "llm_fallback", elapsedMs, TargetOf(msg))
  {
    var fallback := TierResult("question", 0.5, "llm_fallback", elapsedMs, TargetOf(msg));
    if reply.None? then fallback
    else match decode(LlmUtils.InlineClean(reply.value))
      case None => fallback
      case Some(parsed) =>
        if !parsed.JObj? then fallback
        else LlmResult(parsed.fields, msg, elapsedMs)
  }

  /** The result dict built from a decoded LLM answer `p`. */
  function LlmResult(p: map<string, Json>, msg: string, elapsedMs: int): (r: Json)
    ensures r.JObj? && "intent_type" in r.fields && "target" in r.fields
    ensures Get(r, "method", JNull) == JStr("llm")
    ensures Get(r, "intent_type", JNull) == Lookup(p, "intent_type", JStr("question"))
      && Get(r, "confidence", JNull) == JReal(0.85)
      && Get(r, "target", JNull) == Lookup(p, "target", JStr(TargetOf(msg)))
      && Get(r, "reasoning", JNull) == Lookup(p, "reasoning", JStr(""))
  {
    JObj(map[
      "intent_type" := Lookup(p, "intent_type", JStr("question")),
      "confidence" := JReal(0.85),
      "method" := JStr("llm"),
      "processing_time_ms" := JInt(elapsedMs),
      "target" := Lookup(p, "target", JStr(TargetOf(msg))),
      "reasoning" := Lookup(p, "reasoning", JStr(""))])
  }

  /** Whether the LLM tier runs: a handle is set and `context.get("use_llm", True)` is truthy. */
  predicate UsesLlm(c: IntentClassifier, context: Json) {
    c.llm.Some? && Truthy(Get(context, "use_llm", JBool(true)))
  }

  /** The result of `classify`, tier by tier. */
  function ClassifySpec(c: IntentClassifier, message: string, context: Json,
                        reply: Option<string>, decode: Decoder, elapsedMs: int): Json {
    match FirstStrong(message)
    case Some(k) => TierResult(StrongPatterns[k].intent, 1.0, "strong_rule", 5, TargetOf(message))
    case None =>
      match FirstFuzzy(message)
      case Some(k) => TierResult(FuzzyPatterns[k].1, 0.8, "fuzzy_rule", 10, TargetOf(message))
      case None =>
        if UsesLlm(c, context) then LlmClassify(message, reply, decode, elapsedMs)
        else TierResult("question", 0.5, "fallback", 1, Take(message, 50))
  }

  /**
   * `_fuzzy_match`: the first keyword, in table order, contained in the
   * lowered message.  (A keyword equal to one of the message's words is a
   * substring of it too, so the `in words` test adds nothing.)
   */
  method FuzzyMatch(message: string) returns (r: Option<string>)
    ensures FirstFuzzy(message).Some? ==> r == Some(FuzzyPatterns[FirstFuzzy(message).value].1)
    ensures FirstFuzzy(message).None? ==> r.None?
  {
    var lowered := Lower(message);
    var i := 0;
    while i < |FuzzyPatterns|
      invariant 0 <= i <= |FuzzyPatterns|
      invariant FirstFuzzyFrom(lowered, i) == FirstFuzzyFrom(lowered, 0)
    {
      if Contains(lowered, FuzzyPatterns[i].0) {
        return Some(FuzzyPatterns[i].1);
      }
      i := i + 1;
    }
    return None;
  }

  /**
   * `_extract_target`: each prefix is removed at most once, in list order,
   * and the rest trimmed; the first 100 characters are returned, or the
   * message's first 100 when nothing is left.
   */
  method ExtractTarget(message: string) returns (r: string)
    ensures r == TargetOf(message)
    ensures |r| <= 100
    ensures r == "" <==> message == ""
  {
    var result := message;
    var i := 0;
    while i < |TargetPrefixes|
      invariant 0 <= i <= |TargetPrefixes|
      invariant CutTargetPrefixes(result, TargetPrefixes[i..]) == CutTargetPrefixes(message, TargetPrefixes)
    {
      var prefix := TargetPrefixes[i];
      if StartsWith(result, prefix) {
        result := Strip(result[|prefix|..]);
      }
      i := i + 1;
    }
    if result != "" {
      r := Take(result, 100);
    } else {
      r := Take(message, 100);
    }
  }

  /**
   * `classify`: a strong pattern wins outright, then the fuzzy table, then
   * the LLM tier, then the fallback.
   */
  method Classify(c: IntentClassifier, message: string, context: Json,
                  reply: Option<string>, decode: Decoder, elapsedMs: int) returns (r: Json)
    ensures r == ClassifySpec(c, message, context, reply, decode, elapsedMs)
  {
    var i := 0;
    while i < |StrongPatterns|
      invariant 0 <= i <= |StrongPatterns|
      invariant FirstStrongFrom(message, i) == FirstStrong(message)
    {
      if RuleMatches(message, StrongPatterns[i]) {
        var target := ExtractTarget(message);
        return TierResult(StrongPatterns[i].intent, 1.0, "strong_rule", 5, target);
      }
      i := i + 1;
    }
    var fuzzy := FuzzyMatch(message);
    if fuzzy.Some? {
      var target := ExtractTarget(message);
      return TierResult(fuzzy.value, 0.8, "fuzzy_rule", 10, target);
    }
    if c.llm.Some? && Truthy(Get(context, "use_llm", JBool(true))) {
      return LlmClassify(message, reply, decode, elapsedMs);
    }
    return TierResult("question", 0.5, "fallback", 1, Take(message, 50));
  }

  /**
   * Which tier answered, as the "method" field tells it: a strong row
   * exactly when one matches, the fuzzy table exactly when only a keyword
   * matches, the LLM tier (answered or fallen back) exactly when nothing
   * matches and the LLM is in use, and the fixed fallback otherwise.
   */
  lemma ClassifyTiers(c: IntentClassifier, message: string, context: Json,
                      reply: Option<string>, decode: Decoder, elapsedMs: int)
    ensures var r := ClassifySpec(c, message, context, reply, decode, elapsedMs);
      r.JObj? && "intent_type" in r.fields && "target" in r.fields
    ensures var r := ClassifySpec(c, message, context, reply, decode, elapsedMs);
      (Get(r, "method", JNull) == JStr("strong_rule") <==> FirstStrong(message).Some?)
      && (FirstStrong(message).Some? ==>
            Get(r, "intent_type", JNull) == JStr(StrongPatterns[FirstStrong(message).value].intent)
            && Get(r, "confidence", JNull) == JReal(1.0) && Get(r, "target", JNull) == JStr(TargetOf(message)))
    ensures var r := ClassifySpec(c, message, context, reply, decode, elapsedMs);
      (Get(r, "method", JNull) == JStr("fuzzy_rule") <==> FirstStrong(message).None? && FirstFuzzy(message).Some?)
      && (FirstStrong(message).None? && FirstFuzzy(message).Some? ==>
            Get(r, "intent_type", JNull) == JStr(FuzzyPatterns[FirstFuzzy(message).value].1)
            && Get(r, "confidence", JNull) == JReal(0.8) && Get(r, "target", JNull) == JStr(TargetOf(message)))
    ensures var r := ClassifySpec(c, message, context, reply, decode, elapsedMs);
      (Get(r, "method", JNull) == JStr("fallback") <==>
         FirstStrong(message).None? && FirstFuzzy(message).None? && !UsesLlm(c, context))
      && (Get(r, "method", JNull) == JStr("fallback") ==>
            Get(r, "intent_type", JNull) == JStr("question") && Get(r, "target", JNull) == JStr(Take(message, 50)))
    ensures var r := ClassifySpec(c, message, context, reply, decode, elapsedMs);
      (Get(r, "method", JNull) in {JStr("llm"), JStr("llm_fallback")} <==>
         FirstStrong(message).None? && FirstFuzzy(message).None? && UsesLlm(c, context))
  {
    var r := ClassifySpec(c, message, context, reply, decode, elapsedMs);
    if FirstStrong(message).None? && FirstFuzzy(message).None? && UsesLlm(c, context) {
      var l := LlmClassify(message, reply, decode, elapsedMs);
      assert r == l;
      assert Get(l, "method", JNull) == JStr("llm") || Get(l, "method", JNull) == JStr("llm_fallback");
    }
  }

  // ---------------------------------------------------------------------
  // Table order and the empty message
  // ---------------------------------------------------------------------

  lemma NoCharNoFollows(s: string, a: string, b: string)
    requires a != [] && a[0] !in s
    ensures !Follows(s, a, b)
  {
    forall i | 0 <= i <= |s| ensures !At(s, a, i) {
      NoCharNoAt(s, a, i);
    }
  }

  /** "再详细点" also holds "详细点", but the follow_up row comes first. */
  lemma MoreDetailIsFollowUp()
    ensures FirstStrong("再详细点") == Some(1)
    ensures RuleMatches("再详细点", StrongPatterns[4])
  {
    var s := "再详细点";
    var r0 := StrongPatterns[0];
    forall k | 0 <= k < |r0.alts| ensures !AltMatches(s, r0.alts[k]) {
      if k < 4 { NoCharNoContains(s, r0.alts[k].word); } else { NoCharNoFollows(s, "介绍", "一下"); }
    }
    assert At(s, "再详细点", 0);
    assert AltMatches(s, StrongPatterns[1].alts[2]);
    assert At(s, "详细点", 1) by { assert s[1..4] == "详细点"; }
    assert AltMatches(s, StrongPatterns[4].alts[4]);
  }

  /** "什么是 Redis" is a new topic. */
  lemma WhatIsIsNewTopic()
    ensures FirstStrong("什么是 Redis") == Some(0)
  {
    var s := "什么是 Redis";
    assert At(s, "什么是", 0) by { assert s[0..3] == "什么是"; }
    assert AltMatches(s, StrongPatterns[0].alts[3]);
  }

  /** The empty message matches no strong row and no fuzzy keyword. */
  lemma EmptyMatchesNothing()
    ensures FirstStrong("").None? && FirstFuzzy("").None?
  {
    forall k | 0 <= k < |StrongPatterns| ensures !RuleMatches("", StrongPatterns[k]) {
      var rule := StrongPatterns[k];
      forall a | 0 <= a < |rule.alts| ensures !AltMatches("", rule.alts[a]) {
        match rule.alts[a]
        case Lit(w) => NoCharNoContains("", w);
        case Gap(x, y) => NoCharNoFollows("", x, y);
      }
    }
    assert Lower("") == "";
    forall k | 0 <= k < |FuzzyPatterns| ensures !Contains("", FuzzyPatterns[k].0) {
      NoCharNoContains("", FuzzyPatterns[k].0);
    }
  }

  /**
   * So the empty message is classified by the LLM tier or by the fallback,
   * and its target is empty.
   */
  lemma EmptyMessageReachesLlmOrFallback(c: IntentClassifier, context: Json, reply: Option<string>,
                                         decode: Decoder, elapsedMs: int)
    ensures !UsesLlm(c, context) ==>
      ClassifySpec(c, "", context, reply, decode, elapsedMs) == TierResult("question", 0.5, "fallback", 1, "")
    ensures UsesLlm(c, context) ==>
      ClassifySpec(c, "", context, reply, decode, elapsedMs) == LlmClassify("", reply, decode, elapsedMs)
    ensures TargetOf("") == ""
  {
    EmptyMatchesNothing();
    assert CutTargetPrefix("", "我想学") == "";
    assert CutTargetPrefix("", "我想了解") == "";
    assert CutTargetPrefix("", "什么是") == "";
    assert CutTargetPrefix("", "介绍一下") == "";
    assert CutTargetPrefix("", "详细说说") == "";
  }

  // ---------------------------------------------------------------------
  // get_classifier
  // ---------------------------------------------------------------------

  /** The module-level `_classifier` singleton. */
  class ClassifierRegistry {
    var current: Option<IntentClassifier>

    constructor ()
      ensures current.None?
    {
      current := None;
    }

    /** Builds the classifier on the first call; later calls ignore their `llm`. */
    method GetClassifier(llm: Option<nat>) returns (c: IntentClassifier)
      modifies this
      ensures old(current).Some? ==> c == old(current).value && current == old(current)
      ensures old(current).None? ==> c == IntentClassifier(llm) && current == Some(c)
    {
      if current.None? {
        current := Some(IntentClassifier(llm));
      }
      c := current.value;
    }
  }

  /** Two calls give the same classifier, built with the first call's LLM. */
  method GetClassifierTwice(llm1: Option<nat>, llm2: Option<nat>) returns (c1: IntentClassifier, c2: IntentClassifier)
    ensures c1 == c2 == IntentClassifier(llm1)
  {
    var reg := new ClassifierRegistry();
    c1 := reg.GetClassifier(llm1);
    c2 := reg.GetClassifier(llm2);
  }
}
