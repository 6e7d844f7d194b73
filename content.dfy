/**
 * The content agent: it generates a new document or rewrites the current
 * one from an LLM token stream, files new documents under a category path,
 * and cleans the entity and follow-up replies of the background extractors.
 * The token stream and the LLM replies are parameters.
 */
module Content {
  import opened Wrappers
  import opened Text
  import opened Json
  import opened AgentStateModel
  import LlmUtils

  /** How an LLM token stream ends: normally, with an ordinary exception, or with GeneratorExit. */
  datatype StreamEnd = Finished | Failed(message: string) | Interrupted(message: string)

  /** The chunks an `llm.astream` call yields, in order, and how it ends. */
  datatype LlmStream = LlmStream(chunks: seq<string>, end: StreamEnd)

  /** An exception leaving a helper: an ordinary one (its `str`), or GeneratorExit. */
  datatype Exc = Error(message: string) | GenExit(message: string)

  /** What a helper returns: the document, the change summary and (always empty) follow-ups. */
  datatype Generated = Generated(document: Json, changeSummary: string)

  datatype GenOutcome = Done(result: Generated) | Threw(exc: Exc)

  /** `content = ""; async for chunk in stream: content += chunk.content` */
  method AccumulateStream(chunks: seq<string>) returns (content: string)
    ensures content == Concat(chunks)
  {
    content := "";
    var i := 0;
    while i < |chunks|
      invariant 0 <= i <= |chunks|
      invariant content == Concat(chunks[..i])
    {
      assert chunks[..i + 1][..i] == chunks[..i];
      content := content + chunks[i];
      i := i + 1;
    }
    assert chunks[..i] == chunks;
  }

  /** The accumulated content keeps every chunk, in order. */
  lemma StreamKeepsChunks(chunks: seq<string>, more: seq<string>)
    ensures Concat(chunks + more) == Concat(chunks) + Concat(more)
    ensures Concat([]) == ""
  {
    ConcatAppend(chunks, more);
  }

  // ---------------------------------------------------------------------
  // Category path

  /** `tech_keywords`, in its iteration order. */
  const TechKeywords: seq<(string, string)> := [
    ("react", "前端/React"), ("vue", "前端/Vue"), ("angular", "前端/Angular"), ("css", "前端/CSS"),
    ("html", "前端/HTML"), ("javascript", "前端/JavaScript"), ("typescript", "前端/TypeScript"),
    ("python", "后端/Python"), ("java", "后端/Java"), ("go", "后端/Go"), ("rust", "后端/Rust"),
    ("node", "后端/Node.js"), ("sql", "数据库/SQL"), ("redis", "数据库/Redis"), ("mongodb", "数据库/MongoDB"),
    ("docker", "DevOps/Docker"), ("k8s", "DevOps/Kubernetes"), ("kubernetes", "DevOps/Kubernetes"),
    ("算法", "计算机基础/算法"), ("数据结构", "计算机基础/数据结构"), ("网络", "计算机基础/网络"),
    ("操作系统", "计算机基础/操作系统")
  ]

  /** The index of the first keyword at or after `i` that the lowered topic contains. */
  function FirstKeywordFrom(lowered: string, i: nat): (r: Option<nat>)
    requires i <= |TechKeywords|
    ensures r.Some? ==> i <= r.value < |TechKeywords| && Contains(lowered, TechKeywords[r.value].0)
    ensures r.Some? ==> forall k :: i <= k < r.value ==> !Contains(lowered, TechKeywords[k].0)
    ensures r.None? ==> forall k :: i <= k < |TechKeywords| ==> !Contains(lowered, TechKeywords[k].0)
    decreases |TechKeywords| - i
  {
    if i == |TechKeywords| then None
    else if Contains(lowered, TechKeywords[i].0) then Some(i)
    else FirstKeywordFrom(lowered, i + 1)
  }

  /** The path `_generate_category_path` gives a topic. */
  function CategoryPath(topic: string): string {
    match FirstKeywordFrom(Lower(topic), 0)
    case Some(k) => TechKeywords[k].1 + "/" + topic
    case None => "其他/" + topic
  }

  /** `_generate_category_path`: the first-match loop over the keyword table. */
  method GenerateCategoryPath(topic: string) returns (path: string)
    ensures path == CategoryPath(topic)
  {
    var lowered := Lower(topic);
    var i := 0;
    while i < |TechKeywords|
      invariant 0 <= i <= |TechKeywords|
      invariant FirstKeywordFrom(lowered, i) == FirstKeywordFrom(lowered, 0)
    {
      if Contains(lowered, TechKeywords[i].0) {
        return TechKeywords[i].1 + "/" + topic;
      }
      i := i + 1;
    }
    path := "其他/" + topic;
  }

  /**
   * The path is the category of the first keyword the lowered topic
   * contains, followed by the topic as given; with no keyword it is
   * "其他/<topic>".
   */
  lemma CategoryPathCases(topic: string)
    ensures forall k | 0 <= k < |TechKeywords| ::
      Contains(Lower(topic), TechKeywords[k].0)
      && (forall j | 0 <= j < k :: !Contains(Lower(topic), TechKeywords[j].0))
      ==> CategoryPath(topic) == TechKeywords[k].1 + "/" + topic
    ensures (forall k | 0 <= k < |TechKeywords| :: !Contains(Lower(topic), TechKeywords[k].0))
      ==> CategoryPath(topic) == "其他/" + topic
  {
    forall k | 0 <= k < |TechKeywords| &&
      Contains(Lower(topic), TechKeywords[k].0) &&
      (forall j | 0 <= j < k :: !Contains(Lower(topic), TechKeywords[j].0))
      ensures CategoryPath(topic) == TechKeywords[k].1 + "/" + topic
    {
      var r := FirstKeywordFrom(Lower(topic), 0);
      assert r.Some?;
      assert r.value == k;
    }
  }

  /** Table order wins: "mongodb" is filed under Go, because "go" comes first and occurs in it. */
  lemma MongoDbFiledUnderGo()
    ensures CategoryPath("mongodb") == "后端/Go/mongodb"
  {
    var s := Lower("mongodb");
    assert s == "mongodb";
    forall k | 0 <= k < 9 ensures !Contains(s, TechKeywords[k].0) {
      NoCharNoContains(s, TechKeywords[k].0);
    }
    assert s[3..5] == "go" by { assert s[3] == 'g' && s[4] == 'o'; }
    assert At(s, "go", 3);
    assert Contains(s, TechKeywords[9].0);
    assert FirstKeywordFrom(s, 0) == Some(9);
  }

  /** A topic mentioning JavaScript (or TypeScript) is never filed under Java, which is listed later. */
  lemma ScriptTopicsNeverJava(topic: string)
    requires Contains(Lower(topic), "javascript") || Contains(Lower(topic), "typescript")
    ensures CategoryPath(topic) != "后端/Java/" + topic
  {
    var r := FirstKeywordFrom(Lower(topic), 0);
    assert TechKeywords[5].0 == "javascript" && TechKeywords[6].0 == "typescript";
    assert r.Some? && r.value <= 6;
    var c := TechKeywords[r.value].1;
    assert c[0] == '前';
    assert (c + "/" + topic)[0] == '前';
  }

  // ---------------------------------------------------------------------
  // Prompt choice

  /** The varying parts of the three prompts the generator can send. */
  datatype Prompt =
    | ExplainPrompt(snippet: string, comment: string, need: string)
    | ComparisonPrompt(target: string)
    | StandardPrompt(target: string)

  function Before(before: Json): string {
    if Truthy(before) then "..." + PyStr(before) else ""
  }

  function After(after: Json): string {
    if Truthy(after) then PyStr(after) + "..." else ""
  }

  function Marked(selected: Json): string {
    "**[" + PyStr(selected) + "]**"
  }

  /** The context snippet: "..." + before (when truthy), the marked selection, after + "..." (when truthy). */
  function Snippet(before: Json, selected: Json, after: Json): string {
    Before(before) + Marked(selected) + After(after)
  }

  /** The snippet opens with "..." exactly when there is context before. */
  lemma SnippetOpensWithContext(before: Json, selected: Json, after: Json)
    ensures Truthy(before) <==> StartsWith(Snippet(before, selected, after), "...")
  {
    var pre := Before(before);
    var rest := Marked(selected) + After(after);
    assert Snippet(before, selected, after) == pre + rest;
    assert rest[0] == '*';
    if Truthy(before) {
      assert (pre + rest)[..3] == pre[..3];
    } else {
      assert (pre + rest)[0] == '*';
    }
  }

  /** The snippet closes with "..." exactly when there is context after. */
  lemma SnippetClosesWithContext(before: Json, selected: Json, after: Json)
    ensures var s := Snippet(before, selected, after);
      Truthy(after) <==> |s| >= 3 && s[|s| - 3..] == "..."
  {
    var front := Before(before) + Marked(selected);
    var post := After(after);
    assert Snippet(before, selected, after) == front + post;
    assert front[|front| - 1] == '*';
    if Truthy(after) {
      assert (front + post)[|front + post| - 3..] == post[|post| - 3..];
    } else {
      assert (front + post)[|front + post| - 1] == '*';
    }
  }

  /** The marked selection sits right after the context before. */
  lemma SnippetMarksSelection(before: Json, selected: Json, after: Json)
    ensures At(Snippet(before, selected, after), Marked(selected), |Before(before)|)
  {
    var pre := Before(before);
    var mark := Marked(selected);
    var s := pre + mark + After(after);
    assert s[|pre|..|pre| + |mark|] == mark;
  }

  /** `need_descriptions` */
  const NeedDescriptions: map<string, string> := map[
    "more_examples" := "用户觉得这部分太抽象，需要更多具体例子",
    "more_depth" := "用户想深入了解这部分的原理和底层机制",
    "more_clarity" := "用户觉得这部分不够清楚，需要更通俗的解释",
    "different_angle" := "用户希望换个角度来理解这部分内容"
  ]

  const GenericNeed: string := "需要进一步解释"

  function NeedDescription(need: Json): string {
    if need.JStr? && need.s in NeedDescriptions then NeedDescriptions[need.s] else GenericNeed
  }

  /** Each of the four needs has its own description; any other value gets the generic one. */
  lemma NeedDescriptionCases(need: Json)
    ensures NeedDescription(need) == GenericNeed <==> !(need.JStr? && need.s in NeedDescriptions)
  {
  }

  /** The prompt `_generate_document` builds; an error where a `.get` lands on a non-dict. */
  function PromptFor(values: map<string, Json>, mode: Json, target: Json): Result<Prompt> {
    if mode == JStr("explain_selection") then
      var commentData := Or(Lookup(values, "comment_data", JNull), EmptyObj);
      var intent := Lookup(values, "intent", EmptyObj);
      if !commentData.JObj? then Err(NoAttribute(commentData, "get"))
      else if !intent.JObj? then Err(NoAttribute(intent, "get"))
      else
        Ok(ExplainPrompt(
          Snippet(Get(commentData, "context_before", JStr("")), Get(commentData, "selected_text", JStr("")),
                  Get(commentData, "context_after", JStr(""))),
          PyStr(Lookup(values, "raw_message", JStr(""))),
          NeedDescription(Get(intent, "user_need", JStr("more_examples")))))
    else if mode == JStr("comparison") then Ok(ComparisonPrompt(PyStr(target)))
    else Ok(StandardPrompt(PyStr(target)))
  }

  /** Explain-selection uses the comment data, comparison its own framing, every other mode the standard prompt. */
  lemma PromptChoice(values: map<string, Json>, mode: Json, target: Json)
    ensures PromptFor(values, mode, target).Ok? && PromptFor(values, mode, target).value.ExplainPrompt?
      ==> mode == JStr("explain_selection")
    ensures mode == JStr("comparison") ==> PromptFor(values, mode, target) == Ok(ComparisonPrompt(PyStr(target)))
    ensures mode != JStr("comparison") && mode != JStr("explain_selection")
      ==> PromptFor(values, mode, target) == Ok(StandardPrompt(PyStr(target)))
    ensures mode == JStr("explain_selection") && Lookup(values, "intent", EmptyObj).JObj?
      && !Truthy(Lookup(values, "comment_data", JNull))
      ==> PromptFor(values, mode, target) == Ok(ExplainPrompt("**[]**", PyStr(Lookup(values, "raw_message", JStr(""))),
            NeedDescription(Get(Lookup(values, "intent", EmptyObj), "user_need", JStr("more_examples")))))
  {
    assert Snippet(JStr(""), JStr(""), JStr("")) == "**[]**";
  }

  // ---------------------------------------------------------------------
  // Generation and update

  /** The routing decision as the helpers read it (`state.get("routing_decision", {})`). */
  function Decision(values: map<string, Json>): Json {
    Lookup(values, "routing_decision", EmptyObj)
  }

  /** The new document `_generate_document` returns once the stream is done. */
  function NewDocument(target: string, content: string): Json {
    JObj(map["id" := JNull, "topic" := JStr(target), "content" := JStr(content),
             "category_path" := JStr(CategoryPath(target)), "entities" := EmptyArr, "version" := JInt(1)])
  }

  /** `_generate_document` */
  function GenerateResult(values: map<string, Json>, mode: Json, stream: LlmStream): GenOutcome {
    var target := Get(Decision(values), "target", JStr("新主题"));
    match PromptFor(values, mode, target)
    case Err(m) => Threw(Error(m))
    case Ok(_) =>
      match stream.end
      case Failed(m) => Threw(Error(m))
      case Interrupted(m) => Threw(GenExit(m))
      case Finished =>
        if !target.JStr? then Threw(Error(NoAttribute(target, "lower")))
        else Done(Generated(NewDocument(target.s, Concat(stream.chunks)), "创建了关于 " + target.s + " 的新文档"))
  }

  method GenerateDocument(values: map<string, Json>, mode: Json, stream: LlmStream) returns (r: GenOutcome)
    ensures r == GenerateResult(values, mode, stream)
  {
    var target := Get(Decision(values), "target", JStr("新主题"));
    var prompt := PromptFor(values, mode, target);
    if prompt.Err? {
      return Threw(Error(prompt.message));
    }
    var content := AccumulateStream(stream.chunks);
    if stream.end.Failed? {
      return Threw(Error(stream.end.message));
    } else if stream.end.Interrupted? {
      return Threw(GenExit(stream.end.message));
    }
    if !target.JStr? {
      return Threw(Error(NoAttribute(target, "lower")));
    }
    var path := GenerateCategoryPath(target.s);
    var document := JObj(map["id" := JNull, "topic" := JStr(target.s), "content" := JStr(content),
                             "category_path" := JStr(path), "entities" := EmptyArr, "version" := JInt(1)]);
    r := Done(Generated(document, "创建了关于 " + target.s + " 的新文档"));
  }

  /**
   * A generated document has no id, the decision's target as topic
   * ("新主题" only when the key is absent), the chunks in order as content,
   * no entities and version 1.
   */
  lemma GeneratedDocumentShape(values: map<string, Json>, mode: Json, stream: LlmStream)
    requires GenerateResult(values, mode, stream).Done?
    ensures var doc := GenerateResult(values, mode, stream).result.document;
      var target := Get(Decision(values), "target", JStr("新主题"));
      && stream.end == Finished && target.JStr?
      && Get(doc, "id", JStr("")) == JNull
      && Get(doc, "topic", JNull) == target
      && Get(doc, "content", JNull) == JStr(Concat(stream.chunks))
      && Get(doc, "entities", JNull) == EmptyArr
      && Get(doc, "version", JNull) == JInt(1)
      && Get(doc, "category_path", JNull) == JStr(CategoryPath(target.s))
      && (Decision(values).JObj? && "target" !in Decision(values).fields ==> target == JStr("新主题"))
  {
  }

  /**
   * A routing decision that carries `"target": None`, as the LLM's dumped
   * decision does when it names no target, makes generation fail after the
   * whole stream was read: the category path calls `.lower()` on None.
   */
  lemma NullTargetFailsAfterStream(values: map<string, Json>, mode: Json, chunks: seq<string>)
    requires Decision(values).JObj? && Lookup(Decision(values).fields, "target", JStr("")) == JNull
    requires "target" in Decision(values).fields
    requires PromptFor(values, mode, JNull).Ok?
    ensures GenerateResult(values, mode, LlmStream(chunks, Finished)) ==
      Threw(Error(NoAttribute(JNull, "lower")))
  {
    var target := Get(Decision(values), "target", JStr("新主题"));
    assert target == JNull;
  }

  /** `mode_descriptions` */
  const ModeDescriptions: map<string, string> := map[
    "add_examples" := "添加了更多示例",
    "add_depth" := "增加了深入分析",
    "rewrite" := "重写了部分内容",
    "rephrase" := "用不同角度解释了概念",
    "expand" := "扩展了更多内容"
  ]

  function ModeDescription(mode: Json): string {
    if mode.JStr? && mode.s in ModeDescriptions then ModeDescriptions[mode.s] else "更新了文档"
  }

  /** `_update_document` */
  function UpdateResult(values: map<string, Json>, mode: Json, stream: LlmStream): GenOutcome {
    var currentDoc := Or(Lookup(values, "document", JNull), EmptyObj);
    if !currentDoc.JObj? then Threw(Error(NoAttribute(currentDoc, "get")))
    else
      match stream.end
      case Failed(m) => Threw(Error(m))
      case Interrupted(m) => Threw(GenExit(m))
      case Finished =>
        var oldVersion := Lookup(currentDoc.fields, "version", JInt(1));
        match PlusOne(oldVersion)
        case None => Threw(Error(PlusOneError(oldVersion)))
        case Some(v) =>
          Done(Generated(JObj(currentDoc.fields["content" := JStr(Concat(stream.chunks))]["version" := v]),
                         ModeDescription(mode)))
  }

  method UpdateDocument(values: map<string, Json>, mode: Json, stream: LlmStream) returns (r: GenOutcome)
    ensures r == UpdateResult(values, mode, stream)
  {
    var currentDoc := Or(Lookup(values, "document", JNull), EmptyObj);
    if !currentDoc.JObj? {
      return Threw(Error(NoAttribute(currentDoc, "get")));
    }
    var content := AccumulateStream(stream.chunks);
    if stream.end.Failed? {
      return Threw(Error(stream.end.message));
    } else if stream.end.Interrupted? {
      return Threw(GenExit(stream.end.message));
    }
    var oldVersion := Lookup(currentDoc.fields, "version", JInt(1));
    var version := PlusOne(oldVersion);
    if version.None? {
      return Threw(Error(PlusOneError(oldVersion)));
    }
    var updated := currentDoc.fields["content" := JStr(content)]["version" := version.value];
    r := Done(Generated(JObj(updated), ModeDescription(mode)));
  }

  /**
   * An update keeps every other field of the current document, replaces
   * the content with the stream's chunks, and raises an integer version
   * (1 when absent) by one.
   */
  lemma UpdateKeepsFields(values: map<string, Json>, mode: Json, stream: LlmStream)
    requires UpdateResult(values, mode, stream).Done?
    ensures var current := Or(Lookup(values, "document", JNull), EmptyObj);
      var doc := UpdateResult(values, mode, stream).result.document;
      && current.JObj? && doc.JObj?
      && doc.fields.Keys == current.fields.Keys + {"content", "version"}
      && (forall k | k in current.fields && k != "content" && k != "version" :: doc.fields[k] == current.fields[k])
      && doc.fields["content"] == JStr(Concat(stream.chunks))
      && (Lookup(current.fields, "version", JInt(1)).JInt? ==>
            doc.fields["version"] == JInt(Lookup(current.fields, "version", JInt(1)).i + 1))
      && ("version" !in current.fields ==> doc.fields["version"] == JInt(2))
  {
  }

  /** The summary names the mode when it is one of the five, and is generic otherwise. */
  lemma UpdateSummary(values: map<string, Json>, mode: Json, stream: LlmStream)
    requires UpdateResult(values, mode, stream).Done?
    ensures UpdateResult(values, mode, stream).result.changeSummary == "更新了文档"
      <==> !(mode.JStr? && mode.s in ModeDescriptions)
  {
  }

  // ---------------------------------------------------------------------
  // The node

  /** `decision.get("action", ...)` and `decision.get("mode", ...)` run before the node's `try`. */
  function ActionOf(values: map<string, Json>): Json {
    Get(Decision(values), "action", JStr("generate_new"))
  }

  function ModeOf(values: map<string, Json>): Json {
    Get(Decision(values), "mode", JStr("standard"))
  }

  /** The helper the node dispatches to: update for update_doc, generation for every other action. */
  function HelperResult(values: map<string, Json>, stream: LlmStream): GenOutcome {
    if ActionOf(values) == JStr("update_doc") then UpdateResult(values, ModeOf(values), stream)
    else GenerateResult(values, ModeOf(values), stream)
  }

  /**
   * The state after `content_agent_node`, and whether an exception leaves
   * it: a non-dict routing decision raises before the `try`; GeneratorExit
   * records an error and is re-raised; any other exception records the
   * error and an apology message and the state is returned.
   */
  function ContentAfter(values: map<string, Json>, stream: LlmStream): (map<string, Json>, bool)
    requires MessagesOk(values)
  {
    if !Decision(values).JObj? then (values, true)
    else
      match HelperResult(values, stream)
      case Done(g) =>
        var v := values["document" := g.document]["follow_up_questions" := EmptyArr]
                       ["change_summary" := JStr(g.changeSummary)];
        (AppendMessage(v, AIMessage("已生成文档: " + PyStr(Get(g.document, "topic", JStr("新文档"))))), false)
      case Threw(GenExit(m)) => (values["error" := JStr("Content generation interrupted: " + m)], true)
      case Threw(Error(m)) => (AppendMessage(values["error" := JStr(m)], AIMessage("抱歉，生成内容时出错: " + m)), false)
  }

  /** `content_agent_node` */
  method ContentAgentNode(st: AgentState, stream: LlmStream) returns (propagated: bool)
    requires MessagesOk(st.values)
    modifies st
    ensures (st.values, propagated) == ContentAfter(old(st.values), stream)
  {
    var decision := Lookup(st.values, "routing_decision", EmptyObj);
    if !decision.JObj? {
      return true;
    }
    var action := Get(decision, "action", JStr("generate_new"));
    var mode := Get(decision, "mode", JStr("standard"));
    var result: GenOutcome;
    if action == JStr("update_doc") {
      result := UpdateDocument(st.values, mode, stream);
    } else {
      result := GenerateDocument(st.values, mode, stream);
    }
    match result
    case Done(g) =>
      st.values := st.values["document" := g.document];
      st.values := st.values["follow_up_questions" := EmptyArr];
      st.values := st.values["change_summary" := JStr(g.changeSummary)];
      st.values := AppendMessage(st.values, AIMessage("已生成文档: " + PyStr(Get(g.document, "topic", JStr("新文档")))));
      propagated := false;
    case Threw(GenExit(m)) =>
      st.values := st.values["error" := JStr("Content generation interrupted: " + m)];
      propagated := true;
    case Threw(Error(m)) =>
      st.values := st.values["error" := JStr(m)];
      st.values := AppendMessage(st.values, AIMessage("抱歉，生成内容时出错: " + m));
      propagated := false;
  }

  /** An ordinary failure is reported in the state and one apology message; the node still returns. */
  lemma FailureReported(values: map<string, Json>, stream: LlmStream, m: string)
    requires MessagesOk(values)
    requires Decision(values).JObj? && HelperResult(values, stream) == Threw(Error(m))
    ensures var (after, propagated) := ContentAfter(values, stream);
      && !propagated
      && after["error"] == JStr(m)
      && MessagesOf(after) == MessagesOf(values) + [AIMessage("抱歉，生成内容时出错: " + m)]
      && (forall k | k in values && k != "error" && k != "messages" :: after[k] == values[k])
  {
  }

  /** GeneratorExit records an error, appends no message, and propagates. */
  lemma InterruptPropagates(values: map<string, Json>, stream: LlmStream, m: string)
    requires MessagesOk(values)
    requires Decision(values).JObj? && HelperResult(values, stream) == Threw(GenExit(m))
    ensures var (after, propagated) := ContentAfter(values, stream);
      propagated && after == values["error" := JStr("Content generation interrupted: " + m)]
      && MessagesOf(after) == MessagesOf(values)
  {
  }

  /** Success stores the document and an empty follow-up list and announces the document's topic. */
  lemma SuccessStoresDocument(values: map<string, Json>, stream: LlmStream)
    requires MessagesOk(values)
    requires Decision(values).JObj? && HelperResult(values, stream).Done?
    ensures var g := HelperResult(values, stream).result;
      var (after, propagated) := ContentAfter(values, stream);
      && !propagated
      && after["document"] == g.document
      && after["follow_up_questions"] == EmptyArr
      && after["change_summary"] == JStr(g.changeSummary)
      && MessagesOf(after) == MessagesOf(values) + [AIMessage("已生成文档: " + PyStr(Get(g.document, "topic", JStr("新文档"))))]
  {
  }

  // ---------------------------------------------------------------------
  // Background extraction

  /**
   * `_extract_entities_llm` and `_generate_follow_ups` after the LLM call:
   * the reply (`None` when the call raised) is cleaned and decoded, and
   * every failure gives `[]`.
   */
  function ExtractedJson(reply: Option<string>, decode: Decoder): Json {
    if reply.None? then EmptyArr
    else
      match decode(LlmUtils.InlineClean(reply.value))
      case None => EmptyArr
      case Some(v) => v
  }

  /** A reply fenced as "```json" ... "```" reaches the decoder as exactly the text between tag and closing fence. */
  lemma FencedReplyDecodesBody(body: string, decode: Decoder)
    requires body != [] && body[0] != '`' && body[|body| - 1] != '`'
    ensures LlmUtils.InlineClean("```json" + body + "```") == body
    ensures ExtractedJson(Some("```json" + body + "```"), decode) == decode(body).GetOr(EmptyArr)
  {
    LlmUtils.InlineCleanFacts(body);
  }

  /** Extraction never raises: a failed call or a reply that does not decode gives the empty list. */
  lemma ExtractionFailureIsEmpty(reply: Option<string>, decode: Decoder)
    ensures reply.None? ==> ExtractedJson(reply, decode) == EmptyArr
    ensures reply.Some? && decode(LlmUtils.InlineClean(reply.value)).None? ==> ExtractedJson(reply, decode) == EmptyArr
    ensures reply.Some? && decode(LlmUtils.InlineClean(reply.value)).Some? ==>
      ExtractedJson(reply, decode) == decode(LlmUtils.InlineClean(reply.value)).value
  {
  }
}
