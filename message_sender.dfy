/**
 * The payloads the server pushes over the WebSocket. Every payload is a
 * dict with a "type" key and, when the builder passed one, a "data" dict;
 * the socket itself is an outbox sequence kept by the stream processor.
 */
module MessageSender {
  import opened Wrappers
  import opened Text
  import opened Json

  const ThinkingDefault := "AI 正在思考..."
  /** The display cut for tool input and output. */
  const ToolCut: nat := 200

  /** `_send_event`: `data == None` stands for the `data is None` call, which adds no "data" key. */
  function Event(eventType: string, data: Option<Json>): Json {
    if data.Some? then JObj(map["type" := JStr(eventType), "data" := data.value])
    else JObj(map["type" := JStr(eventType)])
  }

  /** How a client reads a payload's type: its "type" text, or nothing. */
  function EventType(p: Json): Option<string> {
    if p.JObj? && "type" in p.fields && p.fields["type"].JStr? then Some(p.fields["type"].s) else None
  }

  /** How a client reads a payload's data: its "data" value, or nothing. */
  function EventData(p: Json): Option<Json> {
    if p.JObj? && "data" in p.fields then Some(p.fields["data"]) else None
  }

  /** One field of a payload's data, `None` when the payload has no data dict or the dict lacks the key. */
  function DataField(p: Json, k: string): Option<Json> {
    var d := EventData(p);
    if d.Some? && d.value.JObj? && k in d.value.fields then Some(d.value.fields[k]) else None
  }

  /**
   * Reading a payload back gives exactly what was sent: its type always,
   * its data exactly when data was passed, and no other key.
   */
  lemma EventRoundTrip(eventType: string, data: Option<Json>)
    ensures EventType(Event(eventType, data)) == Some(eventType)
    ensures EventData(Event(eventType, data)) == data
    ensures Event(eventType, data).fields.Keys == if data.Some? then {"type", "data"} else {"type"}
  {
  }

  /**
   * Two payloads are equal only when type and data are: the payload
   * determines what was sent.
   */
  lemma EventInjective(t1: string, d1: Option<Json>, t2: string, d2: Option<Json>)
    requires Event(t1, d1) == Event(t2, d2)
    ensures t1 == t2 && d1 == d2
  {
    EventRoundTrip(t1, d1);
    EventRoundTrip(t2, d2);
  }

  function Thinking(message: string): Json {
    Event("thinking", Some(JObj(map["message" := JStr(message)])))
  }

  /** `model` is included only when truthy. */
  function NodeStart(name: string, model: Json): Json {
    var data := if Truthy(model) then map["name" := JStr(name), "model" := model] else map["name" := JStr(name)];
    Event("node_start", Some(JObj(data)))
  }

  function NodeEnd(name: string): Json {
    Event("node_end", Some(JObj(map["name" := JStr(name)])))
  }

  function DocumentStart(topic: Json): Json {
    Event("document_start", Some(JObj(map["topic" := topic])))
  }

  function DocumentToken(content: string): Json {
    Event("document_token", Some(JObj(map["content" := JStr(content)])))
  }

  /** `send_document_complete`; a falsy entity list is sent as `[]`. */
  function DocumentComplete(docId: int, topic: Json, content: Json, categoryPath: Json, entities: Json): Json {
    Event("document", Some(JObj(map["id" := JInt(docId), "topic" := topic, "content" := content,
                                    "category_path" := categoryPath, "entities" := Or(entities, EmptyArr)])))
  }

  /** The roadmap dict itself is the data. */
  function Roadmap(roadmap: map<string, Json>): Json {
    Event("roadmap", Some(JObj(roadmap)))
  }

  function FollowUps(documentId: int, questions: Json): Json {
    Event("follow_ups", Some(JObj(map["document_id" := JInt(documentId), "questions" := questions])))
  }

  function Entities(documentId: int, entities: Json): Json {
    Event("entities", Some(JObj(map["document_id" := JInt(documentId), "entities" := entities])))
  }

  function Navigation(documentId: Json, message: Json): Json {
    Event("navigation", Some(JObj(map["document_id" := documentId, "message" := message])))
  }

  function Content(content: string): Json {
    Event("content", Some(JObj(map["content" := JStr(content)])))
  }

  function ToolStart(tool: string, input: string): Json {
    Event("tool_start", Some(JObj(map["tool" := JStr(tool), "input" := JStr(Take(input, ToolCut))])))
  }

  function ToolEnd(tool: string, output: string): Json {
    Event("tool_end", Some(JObj(map["tool" := JStr(tool), "output" := JStr(if output != "" then Take(output, ToolCut) else "")])))
  }

  function Error(message: string): Json {
    Event("error", Some(JObj(map["message" := JStr(message)])))
  }

  function Progress(stage: string, message: string): Json {
    Event("progress", Some(JObj(map["stage" := JStr(stage), "message" := JStr(message)])))
  }

  function Done(): Json {
    Event("done", None)
  }

  /** "done" is the one payload without a data dict; each other builder sends one. */
  lemma DoneCarriesNoData(name: string, message: string)
    ensures EventType(Done()) == Some("done") && EventData(Done()) == None
    ensures EventData(Thinking(message)).Some? && EventData(NodeEnd(name)).Some? && EventData(Error(message)).Some?
    ensures EventData(Content(message)).Some? && EventData(Progress(name, message)).Some?
  {
    EventRoundTrip("done", None);
  }

  /** The node_start data names the node, and carries "model" exactly when the model is truthy. */
  lemma NodeStartModel(name: string, model: Json)
    ensures EventType(NodeStart(name, model)) == Some("node_start")
    ensures DataField(NodeStart(name, model), "name") == Some(JStr(name))
    ensures DataField(NodeStart(name, model), "model").Some? <==> Truthy(model)
    ensures Truthy(model) ==> DataField(NodeStart(name, model), "model") == Some(model)
  {
  }

  /** The shown text is a prefix of the original, at most `n` long, and all of it when it fits. */
  lemma TakeFacts(s: string, n: nat)
    ensures |Take(s, n)| <= n && |Take(s, n)| <= |s|
    ensures Take(s, n) == s[..|Take(s, n)|]
    ensures |s| <= n ==> Take(s, n) == s
    ensures |s| > n ==> |Take(s, n)| == n
  {
  }

  /** Tool input is cut to its first 200 characters; tool output too, and an empty output is "". */
  lemma ToolPayloadsCut(tool: string, input: string, output: string)
    ensures DataField(ToolStart(tool, input), "tool") == Some(JStr(tool))
    ensures DataField(ToolStart(tool, input), "input") == Some(JStr(Take(input, ToolCut)))
    ensures DataField(ToolEnd(tool, output), "output") == Some(JStr(Take(output, ToolCut)))
    ensures output == "" ==> DataField(ToolEnd(tool, output), "output") == Some(JStr(""))
  {
    TakeFacts(input, ToolCut);
    TakeFacts(output, ToolCut);
  }

  /** The document payload carries the id, topic, content and category as given and the entities or `[]` when they are falsy. */
  lemma DocumentEntitiesDefault(docId: int, topic: Json, content: Json, categoryPath: Json, entities: Json)
    ensures var p := DocumentComplete(docId, topic, content, categoryPath, entities);
      && EventType(p) == Some("document")
      && DataField(p, "id") == Some(JInt(docId))
      && DataField(p, "topic") == Some(topic)
      && DataField(p, "content") == Some(content)
      && DataField(p, "category_path") == Some(categoryPath)
      && DataField(p, "entities") == Some(if Truthy(entities) then entities else JArr([]))
  {
  }

  /**
   * Thinking, content, error and progress put their text inside the data
   * dict, never at the top level; the roadmap payload's data is the
   * roadmap dict itself.
   */
  lemma TextInsideData(message: string, stage: string, roadmap: map<string, Json>)
    ensures Thinking(message).fields.Keys == {"type", "data"} && DataField(Thinking(message), "message") == Some(JStr(message))
    ensures Content(message).fields.Keys == {"type", "data"} && DataField(Content(message), "content") == Some(JStr(message))
    ensures Error(message).fields.Keys == {"type", "data"} && DataField(Error(message), "message") == Some(JStr(message))
    ensures Progress(stage, message).fields.Keys == {"type", "data"}
    ensures DataField(Progress(stage, message), "stage") == Some(JStr(stage)) && DataField(Progress(stage, message), "message") == Some(JStr(message))
    ensures EventType(Roadmap(roadmap)) == Some("roadmap") && EventData(Roadmap(roadmap)) == Some(JObj(roadmap))
  {
  }
}
