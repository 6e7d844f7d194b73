/**
 * The WebSocket route: the registry of open connections, the receive loop
 * of one connection, the turn context read from the session's documents,
 * and the in-route stream processor the endpoint calls. The processor's
 * loop locals (placeholder id, streamed text, captured node outputs and
 * the persisted document id) are the four fields of the newer stream
 * context, so a turn is a `Run` of the stream service; the route's own
 * handlers differ from the service's where the two copies differ.
 */
module WebSocketRoute {
  import opened Wrappers
  import opened Json
  import opened Store
  import opened WebSocketEventHandler
  import opened AgentStreamingService
  import Send = MessageSender
  import PC = PersistenceCoordinator
  import SS = SessionService
  import MS = MessageService
  import DS = DocumentService

  /** The user every turn runs as: the endpoint has no authentication. */
  const DefaultUserId := 1
  const BeginnerLevel := "beginner"
  /** How many document ids the turn context lists as recent. */
  const RecentLimit: nat := 10
  const InvalidRequestPrefix := "Invalid request format: "

  /** A payload with its text at the top level rather than inside "data". */
  function TopLevel(eventType: string, message: Json): Json {
    JObj(map["type" := JStr(eventType), "message" := message])
  }

  // ---------------------------------------------------------------------
  // Connections
  // ---------------------------------------------------------------------

  /** A client connection: whether it was accepted, and every payload sent over it. */
  class Socket {
    var accepted: bool
    var sent: seq<Json>

    constructor ()
      ensures !accepted && sent == []
    {
      accepted, sent := false, [];
    }

    method Accept()
      modifies this
      ensures accepted && sent == old(sent)
    {
      accepted := true;
    }

    /** `send_json` */
    method SendJson(message: Json)
      modifies this
      ensures sent == old(sent) + [message] && accepted == old(accepted)
    {
      sent := sent + [message];
    }
  }

  /** The registry after `disconnect`: the session's entry goes if it has one. */
  function Disconnected(active: map<string, Socket>, sessionId: string): map<string, Socket> {
    if sessionId in active then active - {sessionId} else active
  }

  /** `ConnectionManager`: at most one socket per session. */
  class ConnectionManager {
    var active: map<string, Socket>

    constructor ()
      ensures active == map[]
    {
      active := map[];
    }

    /** `connect`: accept the socket, then register it, replacing any earlier one. */
    method Connect(ws: Socket, sessionId: string)
      modifies this, ws
      ensures active == old(active)[sessionId := ws]
      ensures ws.accepted && ws.sent == old(ws.sent)
    {
      ws.Accept();
      active := active[sessionId := ws];
    }

    /** `disconnect`: a session that is not registered is left alone. */
    method Disconnect(sessionId: string)
      modifies this
      ensures active == Disconnected(old(active), sessionId)
    {
      if sessionId in active {
        active := active - {sessionId};
      }
    }

    /** `send_message`: only a registered session's socket receives the message. */
    method SendMessage(sessionId: string, message: Json)
      modifies if sessionId in active then {active[sessionId]} else {}
      ensures sessionId in active ==> active[sessionId].sent == old(active[sessionId].sent) + [message]
    {
      if sessionId in active {
        active[sessionId].SendJson(message);
      }
    }
  }

  // ---------------------------------------------------------------------
  // The request and the turn state
  // ---------------------------------------------------------------------

  /** A validated `ChatRequest`; the optional comment and entity records are kept as their dumps. */
  datatype ChatRequest = ChatRequest(message: string, source: string, commentData: Option<map<string, Json>>,
                                     entityData: Option<map<string, Json>>, intentHint: Json)

  /** `json.loads` then `ChatRequest(**data)`: the request, or the text of what they raised. */
  type RequestParser = string -> Result<ChatRequest>

  /** What the endpoint reads from the store before a turn. */
  datatype TurnContext = TurnContext(currentDocId: Json, currentDoc: Json, recentDocs: seq<int>, learnedTopics: seq<string>)

  const NoContext := TurnContext(JNull, JNull, [], [])

  /** The dict the state carries for the current document. */
  function DocumentView(id: int, d: DocumentRow): Json {
    JObj(map["id" := JInt(id), "topic" := JStr(d.topic), "content" := JStr(d.content),
             "category_path" := d.categoryPath, "version" := JInt(d.version)])
  }

  function Topics(docs: map<int, DocumentRow>, ids: seq<int>): seq<string> {
    seq(|ids|, i requires 0 <= i < |ids| => if ids[i] in docs then docs[ids[i]].topic else "")
  }

  /** The first `RecentLimit` ids, or all of them when there are fewer. */
  function Recent(ids: seq<int>): seq<int> {
    ids[..if |ids| < RecentLimit then |ids| else RecentLimit]
  }

  /**
   * The context a turn starts from, from the session's documents newest
   * first; `loads == false` stands for a read that raised, which leaves the
   * empty context.
   */
  function ContextLoaded(t: Tables, sessionId: string, loads: bool): (c: TurnContext)
    ensures !loads ==> c == NoContext
    ensures loads && DS.ListSessionDocuments(t, sessionId) != [] ==> c != NoContext
    ensures c != NoContext ==>
      var l := DS.ListSessionDocuments(t, sessionId);
      && l != [] && c.currentDocId == JInt(l[0]) && l[0] in t.documents && t.documents[l[0]].sessionId == sessionId
      && c.currentDoc == DocumentView(l[0], t.documents[l[0]])
      && |c.learnedTopics| == |l| && c.recentDocs == Recent(l)
  {
    var ids := DS.ListSessionDocuments(t, sessionId);
    if !loads || ids == [] || ids[0] !in t.documents then NoContext
    else TurnContext(JInt(ids[0]), DocumentView(ids[0], t.documents[ids[0]]), Recent(ids), Topics(t.documents, ids))
  }

  /** `model_dump()` of an optional record, or `None`. */
  function Dumped(record: Option<map<string, Json>>): Json {
    if record.Some? then JObj(record.value) else JNull
  }

  function StringList(items: seq<string>): Json {
    JArr(seq(|items|, i requires 0 <= i < |items| => JStr(items[i])))
  }

  function IntList(items: seq<int>): Json {
    JArr(seq(|items|, i requires 0 <= i < |items| => JInt(items[i])))
  }

  /** The keys of the state taken from the request and the connection. */
  function RequestFields(req: ChatRequest, sessionId: string): map<string, Json> {
    map["input_source" := JStr(req.source), "raw_message" := JStr(req.message), "user_id" := JInt(DefaultUserId),
        "session_id" := JStr(sessionId), "comment_data" := Dumped(req.commentData), "entity_data" := Dumped(req.entityData),
        "intent_hint" := req.intentHint]
  }

  /** The keys of the state taken from the loaded context. */
  function ContextFields(c: TurnContext): map<string, Json> {
    map["current_doc_id" := c.currentDocId, "user_level" := JStr(BeginnerLevel), "learned_topics" := StringList(c.learnedTopics),
        "recent_docs" := IntList(c.recentDocs), "document" := c.currentDoc]
  }

  /** The keys every turn starts empty. */
  const FreshFields: map<string, Json> :=
    map["messages" := EmptyArr, "intent" := JNull, "routing_decision" := JNull, "follow_up_questions" := EmptyArr,
        "change_summary" := JNull, "navigation_target" := JNull, "error" := JNull, "metadata" := EmptyObj]

  /** The agent state of one turn: twenty keys, no two parts sharing one. */
  function BuiltState(req: ChatRequest, sessionId: string, c: TurnContext): map<string, Json> {
    RequestFields(req, sessionId) + ContextFields(c) + FreshFields
  }

  /** The built state names the connection's session and the default user. */
  lemma BuiltStateTurn(req: ChatRequest, sessionId: string, c: TurnContext)
    ensures var state := BuiltState(req, sessionId, c);
      && "session_id" in state && state["session_id"] == JStr(sessionId)
      && "user_id" in state && state["user_id"] == JInt(DefaultUserId)
      && TurnOfState(state) == Turn(sessionId, DefaultUserId)
  {
  }

  // ---------------------------------------------------------------------
  // The event handlers of stream_agent_response
  // ---------------------------------------------------------------------

  /** The locals before the first event. */
  const FreshCtx := Ctx(None, "", map[], None)

  /**
   * The document title: the routing target when the state holds a truthy
   * routing decision, else the raw message (default "新文档"). A truthy
   * routing that is not a dict raises on `.get`.
   */
  function RouteTitle(state: map<string, Json>): Result<Json> {
    var routing := Or(Lookup(state, "routing_decision", JNull), EmptyObj);
    if !Truthy(routing) then Ok(Lookup(state, "raw_message", JStr(DefaultTitle)))
    else if !routing.JObj? then Err(NoAttribute(routing, "get"))
    else Ok(Lookup(routing.fields, "target", JNull))
  }

  /** A chain start: report the node; the first content_agent start also opens the document and its placeholder. */
  function RouteChainStarted(u: Turn, r: Run, ev: GraphEvent): (Run, Option<string>) {
    var node := LastSegment(ev.name);
    var r1 := Emit(r, Send.NodeStart(node, JNull));
    if node == ContentAgent && r.ctx.placeholderMessageId.None? then
      match RouteTitle(r.state)
      case Err(e) => (r1, Some(e))
      case Ok(title) =>
        var (t, m) := PC.PlaceholderCreated(r.tables, u.sessionId, u.userId);
        (Emit(r1, Send.DocumentStart(title)).(tables := t, ctx := r.ctx.(placeholderMessageId := Some(m.id))), None)
    else (r1, None)
  }

  /** A chain end: report the node and capture a dict output, later keys winning. */
  function RouteChainEnded(r: Run, ev: GraphEvent): Run {
    var r1 := Emit(r, Send.NodeEnd(LastSegment(ev.name)));
    if "output" in ev.data && ev.data["output"].JObj? then
      r1.(ctx := r1.ctx.(finalResult := r1.ctx.finalResult + ev.data["output"].fields))
    else r1
  }

  /** The LLM start payload always carries "model", `None` when the event has none. */
  function ModelStart(model: Json): Json {
    Send.Event("node_start", Some(JObj(map["name" := JStr(LlmName), "model" := model])))
  }

  /** Does the route forward this stream event as a document token? */
  predicate RouteForwards(ev: GraphEvent) {
    Truthy(Lookup(ev.data, "chunk", JNull)) && Lookup(ev.metadata, "langgraph_node", JStr("")) == JStr(ContentAgent)
  }

  function RouteTokenStreamed(r: Run, ev: GraphEvent): Run {
    if !RouteForwards(ev) then r
    else
      var text := ChunkText(Lookup(ev.data, "chunk", JNull));
      Emit(r, Send.DocumentToken(text)).(ctx := r.ctx.(accumulatedContent := r.ctx.accumulatedContent + text))
  }

  /** The tool_end payload: the output's text cut to 200 characters, or "" for a falsy output. */
  function ToolEndPayload(tool: string, output: Json): Json {
    Send.Event("tool_end", Some(JObj(map["tool" := JStr(tool),
                                         "output" := JStr(if Truthy(output) then Text.Take(PyStr(output), Send.ToolCut) else "")])))
  }

  /** The tool error is reported at the top level of the payload. */
  function RouteToolFailed(r: Run, ev: GraphEvent): Run {
    Emit(r, TopLevel("error", JStr(ToolErrorText(LastSegment(ev.name), Lookup(ev.data, "error", JStr(UnknownError))))))
  }

  /** One event through the if/elif chain; other kinds are skipped. */
  function RouteEvent(u: Turn, r: Run, ev: GraphEvent): (Run, Option<string>) {
    if ev.kind == "on_chain_start" then RouteChainStarted(u, r, ev)
    else if ev.kind == "on_chain_end" then (RouteChainEnded(r, ev), None)
    else if ev.kind == "on_chat_model_start" then (Emit(r, ModelStart(Lookup(ev.data, "model", JNull))), None)
    else if ev.kind == "on_chat_model_stream" then (RouteTokenStreamed(r, ev), None)
    else if ev.kind == "on_chat_model_end" then (Emit(r, Send.NodeEnd(LlmName)), None)
    else if ev.kind == "on_tool_start" then (ToolStarted(r, ev), None)
    else if ev.kind == "on_tool_end" then (Emit(r, ToolEndPayload(LastSegment(ev.name), Lookup(ev.data, "output", JStr("")))), None)
    else if ev.kind == "on_tool_error" then (RouteToolFailed(r, ev), None)
    else (r, None)
  }

  /** The event loop, up to the first event whose handling raises. */
  function RouteEvents(u: Turn, r: Run, events: seq<GraphEvent>): (Run, Option<string>)
    decreases |events|
  {
    if events == [] then (r, None)
    else
      var (r1, e) := RouteEvent(u, r, events[0]);
      if e.Some? then (r1, e) else RouteEvents(u, r1, events[1..])
  }

  // ---------------------------------------------------------------------
  // The result of the second graph run
  // ---------------------------------------------------------------------

  /** An error result: drop the placeholder, then report the error value as it is. */
  function RouteErrorHandled(r: Run, error: Json): Run {
    var t := if PC.HasMessageId(r.ctx.placeholderMessageId) then MS.MessageDeleted(r.tables, r.ctx.placeholderMessageId.value)
             else r.tables;
    Emit(r.(tables := t), TopLevel("error", error))
  }

  /** The `create_document` call of the route: every argument it passes is declared, and there is no parent. */
  function NewDocumentOf(u: Turn, rs: map<string, Json>, f: map<string, Json>): DS.NewDocument {
    var entities := Lookup(f, "entities", EmptyArr);
    DS.NewDocument(u.sessionId, u.userId, Lookup(f, "topic", JStr("")), Lookup(f, "content", JStr("")),
                   Lookup(f, "category_path", JNull), if entities.JArr? then Some(entities.items) else None,
                   JObj(map["intent" := Lookup(rs, "intent", JNull), "routing" := Lookup(rs, "routing_decision", JNull)]), JNull)
  }

  /**
   * The write of the document block: a truthy "id" updates that document
   * with the dict's "content" and the result's change summary (default
   * "更新" only when the key is absent, so a present None is stored as
   * NULL); otherwise a new document is created. Either call raises when its
   * flush rejects a value.
   */
  function DocumentWritten(u: Turn, t: Tables, rs: map<string, Json>, f: map<string, Json>): Result<(Tables, int)> {
    if Truthy(Lookup(f, "id", JNull)) then
      if "content" !in f then Err(PC.KeyErrorText("content"))
      else if PC.DocKey(f["id"]).None? then Err("Document " + PyStr(f["id"]) + " not found")
      else
        var id := PC.DocKey(f["id"]).value;
        match DS.Updated(t, id, f["content"], Lookup(rs, "change_summary", JStr(PC.DefaultChangeSummary)), "updated")
        case Err(e) => Err(e)
        case Ok(t1) => Ok((t1, id))
    else DS.Created(t, NewDocumentOf(u, rs, f))
  }

  /** The card text: the dict's "topic", with "学习文档" only when the key is absent. */
  function RouteCompletionText(f: map<string, Json>): string {
    PC.CompletionPrefix + PyStr(Lookup(f, "topic", JStr(PC.DefaultDocTopic)))
  }

  /**
   * The chat side of the document block: the document_ref message, whose
   * content is the result's "change_summary" ("" only when the key is
   * absent), then the completed placeholder or a new card. The flush of the
   * first message raises when that value is None, a list or a dict.
   */
  function DocumentFiled(u: Turn, t: Tables, rs: map<string, Json>, f: map<string, Json>, placeholder: Option<int>, id: int)
    : Result<Tables>
  {
    match MS.MessageColumns(Lookup(rs, "change_summary", JStr("")), JStr(DocumentRefType), JInt(id))
    case Err(e) => Err(e)
    case Ok((summary, _)) =>
      var t1 := MS.Saved(t, u.sessionId, u.userId, MS.AssistantRole, summary, DocumentRefType,
                         Some(id), Lookup(rs, "intent", JNull), Lookup(rs, "routing_decision", JNull), 0).0;
      var text := RouteCompletionText(f);
      if PC.HasMessageId(placeholder) then
        Ok(MS.MessageDocumentUpdated(MS.MessageContentUpdated(t1, placeholder.value, text), placeholder.value, id))
      else
        Ok(MS.Saved(t1, u.sessionId, u.userId, MS.AssistantRole, text, PC.DocumentCardType, Some(id), JNull, JNull, 0).0)
  }

  /** The one transaction of the document block: write, pin to the session, file in the chat. */
  function DocumentTransaction(u: Turn, t: Tables, rs: map<string, Json>, f: map<string, Json>, placeholder: Option<int>)
    : Result<(Tables, int)>
  {
    match DocumentWritten(u, t, rs, f)
    case Err(e) => Err(e)
    case Ok((t1, id)) =>
      match SS.CurrentDocumentUpdated(t1, u.sessionId, id)
      case Err(e) => Err(e)
      case Ok(t2) =>
        match DocumentFiled(u, t2, rs, f, placeholder, id)
        case Err(e) => Err(e)
        case Ok(t3) => Ok((t3, id))
  }

  /** The document block: the transaction, then the document payload, and the id kept for the background tasks. */
  function RouteDocumentHandled(u: Turn, r: Run, rs: map<string, Json>, doc: Json): (Run, Option<string>) {
    if !doc.JObj? then (r, Some(NoAttribute(doc, "get")))
    else
      match DocumentTransaction(u, r.tables, rs, doc.fields, r.ctx.placeholderMessageId)
      case Err(e) => (r, Some(e))
      case Ok((t, id)) =>
        var f := doc.fields;
        (Emit(r.(tables := t, ctx := r.ctx.(docId := Some(id))),
              Send.DocumentComplete(id, Lookup(f, "topic", JNull), Lookup(f, "content", JNull), Lookup(f, "category_path", JNull), EmptyArr)),
         None)
  }

  /**
   * The navigation block: the value is sent as the data before `.get` is
   * tried on it, and its "message" ("" only when the key is absent) is
   * recorded, unless the flush rejects it.
   */
  function RouteNavigationHandled(u: Turn, r: Run, nav: Json): (Run, Option<string>) {
    var r1 := Emit(r, Send.Event("navigation", Some(nav)));
    if !nav.JObj? then (r1, Some(NoAttribute(nav, "get")))
    else
      var target := Lookup(nav.fields, "document_id", JNull);
      match MS.MessageColumns(Lookup(nav.fields, "message", JStr("")), JStr(NavigationType), target)
      case Err(e) => (r1, Some(e))
      case Ok((content, _)) =>
        var t := MS.Saved(r.tables, u.sessionId, u.userId, MS.AssistantRole, content,
                          NavigationType, PC.DocKey(target), JNull, JNull, 0).0;
        (r1.(tables := t), None)
  }

  /**
   * The response block: its "content" is sent as it is and then recorded
   * in the chat with the result's intent, unless the flush rejects the
   * content or the "type".
   */
  function RouteResponseHandled(u: Turn, r: Run, rs: map<string, Json>, resp: Json): (Run, Option<string>) {
    if !resp.JObj? then (r, Some(NoAttribute(resp, "get")))
    else
      var content := Lookup(resp.fields, "content", JStr(""));
      var r1 := Emit(r, Send.Event("content", Some(JObj(map["content" := content]))));
      match MS.MessageColumns(content, Lookup(resp.fields, "type", JStr(MS.ChatType)), JNull)
      case Err(e) => (r1, Some(e))
      case Ok((text, kind)) =>
        var t := MS.Saved(r.tables, u.sessionId, u.userId, MS.AssistantRole, text, kind, None, Lookup(rs, "intent", JNull), JNull, 0).0;
        (r1.(tables := t), None)
  }

  /** The result handling: an error ends the turn without "done"; otherwise the document block comes first. */
  function RouteFinished(u: Turn, r: Run, rs: map<string, Json>): (Run, Option<string>) {
    if Truthy(Lookup(rs, "error", JNull)) then (RouteErrorHandled(r, rs["error"]), None)
    else RouteDocumentOnward(u, r, rs)
  }

  function RouteDocumentOnward(u: Turn, r: Run, rs: map<string, Json>): (Run, Option<string>) {
    var (r1, e1) := if Truthy(Lookup(rs, "document", JNull)) then RouteDocumentHandled(u, r, rs, rs["document"]) else (r, None);
    if e1.Some? then (r1, e1) else RouteNavigationOnward(u, r1, rs)
  }

  function RouteNavigationOnward(u: Turn, r: Run, rs: map<string, Json>): (Run, Option<string>) {
    var (r2, e2) := if Truthy(Lookup(rs, "navigation_target", JNull)) then RouteNavigationHandled(u, r, rs["navigation_target"]) else (r, None);
    if e2.Some? then (r2, e2) else RouteResponseOnward(u, r2, rs)
  }

  function RouteResponseOnward(u: Turn, r: Run, rs: map<string, Json>): (Run, Option<string>) {
    var (r3, e3) := if Truthy(Lookup(rs, "response", JNull)) then RouteResponseHandled(u, r, rs, rs["response"]) else (r, None);
    if e3.Some? then (r3, e3) else (Concluded(r3, rs), None)
  }

  // ---------------------------------------------------------------------
  // The whole turn
  // ---------------------------------------------------------------------

  datatype TaskKind = ExtractEntities | GenerateFollowUps

  /** A background task started for a document, and how many payloads the socket had carried when it started. */
  datatype Launch = Launch(kind: TaskKind, documentId: int, content: Json, afterSent: nat)

  /** The try block: thinking, the user's message, the events, then the result of the second run. */
  function RoutePrepared(u: Turn, r: Run, events: seq<GraphEvent>): (Run, Option<string>) {
    var (r1, e1) := UserInputPersisted(u, Emit(r, TopLevel("thinking", JStr(Send.ThinkingDefault))));
    if e1.Some? then (r1, e1) else RouteEvents(u, r1, events)
  }

  function RouteAttempted(u: Turn, r: Run, events: seq<GraphEvent>, rs: map<string, Json>): (Run, Option<string>) {
    var (r2, e2) := RoutePrepared(u, r, events);
    if e2.Some? then (r2, e2) else RouteFinished(u, r2, rs)
  }

  /** The content handed to the background tasks: the document dict's "content", default "". */
  function TaskContent(rs: map<string, Json>): Json {
    Get(Lookup(rs, "document", JNull), "content", JStr(""))
  }

  /** The background tasks: started after a turn that reached "done" with a truthy document id and content. */
  function Launches(r: Run, e: Option<string>, rs: map<string, Json>): seq<Launch> {
    if e.None? && !Truthy(Lookup(rs, "error", JNull)) && r.ctx.docId.Some? && r.ctx.docId.value != 0 && Truthy(TaskContent(rs)) then
      [Launch(ExtractEntities, r.ctx.docId.value, TaskContent(rs), |r.sent|),
       Launch(GenerateFollowUps, r.ctx.docId.value, TaskContent(rs), |r.sent|)]
    else []
  }

  /** The except and finally clauses: report what was raised, then go idle. */
  function RouteClosed(u: Turn, r: Run, e: Option<string>): Run {
    var r1 := if e.Some? then Emit(r, TopLevel("error", JStr(StreamErrorText(e.value)))) else r;
    r1.(tables := StatusSet(r1.tables, u.sessionId, SS.IdleStatus))
  }

  /** `stream_agent_response`: running before the try block, idle after it in every case. */
  function RouteStreamed(u: Turn, r: Run, events: seq<GraphEvent>, rs: map<string, Json>): (Run, seq<Launch>) {
    var r0 := r.(tables := StatusSet(r.tables, u.sessionId, SS.RunningStatus));
    var (r1, e) := RouteAttempted(u, r0, events, rs);
    (RouteClosed(u, r1, e), Launches(r1, e, rs))
  }

  /** The turn of a session's state: its "session_id" and "user_id". */
  function TurnOfState(state: map<string, Json>): Turn
    requires "session_id" in state && state["session_id"].JStr? && "user_id" in state && state["user_id"].JInt?
  {
    Turn(state["session_id"].s, state["user_id"].i)
  }

  // ---------------------------------------------------------------------
  // The endpoint
  // ---------------------------------------------------------------------

  /** The graph as the route uses it: the events it streams for a state, and the state a second run returns. */
  datatype Graph = Graph(events: map<string, Json> -> seq<GraphEvent>, invoke: map<string, Json> -> map<string, Json>)

  /** What a connection has produced: its payloads, the store, and the tasks started. */
  datatype Wire = Wire(sent: seq<Json>, tables: Tables, launched: seq<Launch>)

  /**
   * One received text. A text that does not parse gets one error payload;
   * a request runs a turn on the context loaded for it (`loads` says
   * whether loading the context succeeds).
   */
  function Received(sessionId: string, w: Wire, text: string, loads: bool, parse: RequestParser, g: Graph): Wire {
    match parse(text)
    case Err(e) => w.(sent := w.sent + [TopLevel("error", JStr(InvalidRequestPrefix + e))])
    case Ok(req) =>
      var state := BuiltState(req, sessionId, ContextLoaded(w.tables, sessionId, loads));
      TurnServed(sessionId, w, state, g.events(state), g.invoke(state))
  }

  /** A turn of the connection's session on a built state. */
  function TurnServed(sessionId: string, w: Wire, state: map<string, Json>, events: seq<GraphEvent>, rs: map<string, Json>): Wire {
    var (r, ls) := RouteStreamed(Turn(sessionId, DefaultUserId), Run(state, FreshCtx, w.sent, w.tables), events, rs);
    Wire(r.sent, r.tables, w.launched + ls)
  }

  /** The receive loop over the texts of one connection; `loads(n)` is the fate of the n-th context read. */
  function Served(sessionId: string, w: Wire, texts: seq<string>, n: nat, loads: nat -> bool, parse: RequestParser, g: Graph): Wire
    decreases |texts|
  {
    if texts == [] then w
    else Served(sessionId, Received(sessionId, w, texts[0], loads(n), parse, g), texts[1..], n + 1, loads, parse, g)
  }

  // ---------------------------------------------------------------------
  // The route as it runs
  // ---------------------------------------------------------------------

  method OnChainStart(ws: Socket, db: Db, u: Turn, state: map<string, Json>, ctx: Ctx, ev: GraphEvent)
    returns (ctx': Ctx, err: Option<string>)
    modifies ws, db
    ensures (Run(state, ctx', ws.sent, db.Snapshot()), err) == RouteChainStarted(u, Run(state, ctx, old(ws.sent), old(db.Snapshot())), ev)
  {
    ctx', err := ctx, None;
    var node := LastSegment(ev.name);
    ws.SendJson(Send.NodeStart(node, JNull));
    if node == ContentAgent && ctx.placeholderMessageId.None? {
      var routing := Or(Lookup(state, "routing_decision", JNull), EmptyObj);
      var title: Json;
      if !Truthy(routing) {
        title := Lookup(state, "raw_message", JStr(DefaultTitle));
      } else if !routing.JObj? {
        return ctx, Some(NoAttribute(routing, "get"));
      } else {
        title := Lookup(routing.fields, "target", JNull);
      }
      ws.SendJson(Send.DocumentStart(title));
      var m := PC.CreatePlaceholderMessage(db, u.sessionId, u.userId, title);
      ctx' := ctx.(placeholderMessageId := Some(m.id));
    }
  }

  method OnEvent(ws: Socket, db: Db, u: Turn, state: map<string, Json>, ctx: Ctx, ev: GraphEvent)
    returns (ctx': Ctx, err: Option<string>)
    modifies ws, db
    ensures (Run(state, ctx', ws.sent, db.Snapshot()), err) == RouteEvent(u, Run(state, ctx, old(ws.sent), old(db.Snapshot())), ev)
  {
    ctx', err := ctx, None;
    if ev.kind == "on_chain_start" {
      ctx', err := OnChainStart(ws, db, u, state, ctx, ev);
    } else if ev.kind == "on_chain_end" {
      ws.SendJson(Send.NodeEnd(LastSegment(ev.name)));
      if "output" in ev.data && ev.data["output"].JObj? {
        ctx' := ctx.(finalResult := ctx.finalResult + ev.data["output"].fields);
      }
    } else if ev.kind == "on_chat_model_start" {
      ws.SendJson(ModelStart(Lookup(ev.data, "model", JNull)));
    } else if ev.kind == "on_chat_model_stream" {
      var chunk := Lookup(ev.data, "chunk", JNull);
      if Truthy(chunk) && Lookup(ev.metadata, "langgraph_node", JStr("")) == JStr(ContentAgent) {
        var text := ChunkText(chunk);
        ctx' := ctx.(accumulatedContent := ctx.accumulatedContent + text);
        ws.SendJson(Send.DocumentToken(text));
      }
    } else if ev.kind == "on_chat_model_end" {
      ws.SendJson(Send.NodeEnd(LlmName));
    } else if ev.kind == "on_tool_start" {
      ws.SendJson(Send.ToolStart(LastSegment(ev.name), PyStr(Lookup(ev.data, "input", EmptyObj))));
    } else if ev.kind == "on_tool_end" {
      ws.SendJson(ToolEndPayload(LastSegment(ev.name), Lookup(ev.data, "output", JStr(""))));
    } else if ev.kind == "on_tool_error" {
      var tool := LastSegment(ev.name);
      ws.SendJson(TopLevel("error", JStr(ToolErrorText(tool, Lookup(ev.data, "error", JStr(UnknownError))))));
    }
  }

  /** The `async for` over the streamed events; an event whose handling raises ends the loop. */
  method OnEvents(ws: Socket, db: Db, u: Turn, state: map<string, Json>, ctx: Ctx, events: seq<GraphEvent>)
    returns (ctx': Ctx, err: Option<string>)
    modifies ws, db
    ensures (Run(state, ctx', ws.sent, db.Snapshot()), err) == RouteEvents(u, Run(state, ctx, old(ws.sent), old(db.Snapshot())), events)
  {
    ctx' := ctx;
    var i := 0;
    while i < |events|
      invariant 0 <= i <= |events|
      invariant RouteEvents(u, Run(state, ctx', ws.sent, db.Snapshot()), events[i..])
             == RouteEvents(u, Run(state, ctx, old(ws.sent), old(db.Snapshot())), events)
    {
      ctx', err := OnEvent(ws, db, u, state, ctx', events[i]);
      assert events[i..][0] == events[i] && events[i..][1..] == events[i + 1..];
      if err.Some? {
        return;
      }
      i := i + 1;
    }
    err := None;
  }

  /** The create or update call of the document block; a failed update changes nothing. */
  method WriteDocument(db: Db, u: Turn, rs: map<string, Json>, f: map<string, Json>) returns (r: Result<int>)
    modifies db
    ensures DocumentWritten(u, old(db.Snapshot()), rs, f).Err? ==>
      r == Err(DocumentWritten(u, old(db.Snapshot()), rs, f).message) && db.Snapshot() == old(db.Snapshot())
    ensures DocumentWritten(u, old(db.Snapshot()), rs, f).Ok? ==>
      r.Ok? && DocumentWritten(u, old(db.Snapshot()), rs, f).value == (db.Snapshot(), r.value)
  {
    if Truthy(Lookup(f, "id", JNull)) {
      if "content" !in f {
        return Err(PC.KeyErrorText("content"));
      }
      if !f["id"].JInt? {
        return Err("Document " + PyStr(f["id"]) + " not found");
      }
      var id := f["id"].i;
      var up := DS.UpdateDocument(db, id, f["content"], Lookup(rs, "change_summary", JStr(PC.DefaultChangeSummary)), "updated");
      if up.Err? {
        return Err(up.message);
      }
      r := Ok(id);
    } else {
      r := DS.CreateDocument(db, NewDocumentOf(u, rs, f));
    }
  }

  /** The chat side of the document block; a rejected document_ref message changes nothing. */
  method FileDocument(db: Db, u: Turn, rs: map<string, Json>, f: map<string, Json>, placeholder: Option<int>, id: int)
    returns (err: Option<string>)
    modifies db
    ensures DocumentFiled(u, old(db.Snapshot()), rs, f, placeholder, id).Err? ==>
      err == Some(DocumentFiled(u, old(db.Snapshot()), rs, f, placeholder, id).message) && db.Snapshot() == old(db.Snapshot())
    ensures DocumentFiled(u, old(db.Snapshot()), rs, f, placeholder, id).Ok? ==>
      err.None? && db.Snapshot() == DocumentFiled(u, old(db.Snapshot()), rs, f, placeholder, id).value
  {
    var columns := MS.MessageColumns(Lookup(rs, "change_summary", JStr("")), JStr(DocumentRefType), JInt(id));
    if columns.Err? {
      return Some(columns.message);
    }
    err := None;
    var _ := MS.SaveAssistantMessage(db, u.sessionId, u.userId, columns.value.0, DocumentRefType,
                                     Some(id), Lookup(rs, "intent", JNull), Lookup(rs, "routing_decision", JNull), 0);
    var text := PC.CompletionPrefix + PyStr(Lookup(f, "topic", JStr(PC.DefaultDocTopic)));
    if placeholder.Some? && placeholder.value != 0 {
      MS.UpdateMessageContent(db, placeholder.value, text);
      MS.UpdateMessageDocument(db, placeholder.value, id);
    } else {
      var _ := MS.SaveAssistantMessage(db, u.sessionId, u.userId, text, PC.DocumentCardType, Some(id), JNull, JNull, 0);
    }
  }

  /** The document block, rolled back as a whole when any of its steps raises. */
  method OnDocument(ws: Socket, db: Db, u: Turn, state: map<string, Json>, ctx: Ctx, rs: map<string, Json>, doc: Json)
    returns (ctx': Ctx, err: Option<string>)
    modifies ws, db
    ensures (Run(state, ctx', ws.sent, db.Snapshot()), err) == RouteDocumentHandled(u, Run(state, ctx, old(ws.sent), old(db.Snapshot())), rs, doc)
  {
    ctx', err := ctx, None;
    var start := db.Snapshot();
    if !doc.JObj? {
      return ctx, Some(NoAttribute(doc, "get"));
    }
    var f := doc.fields;
    var written := WriteDocument(db, u, rs, f);
    if written.Err? {
      return ctx, Some(written.message);
    }
    var id := written.value;
    var pinned := SS.UpdateCurrentDocument(db, u.sessionId, id);
    if pinned.Err? {
      db.Restore(start);
      return ctx, Some(pinned.message);
    }
    var filed := FileDocument(db, u, rs, f, ctx.placeholderMessageId, id);
    if filed.Some? {
      db.Restore(start);
      return ctx, filed;
    }
    ws.SendJson(Send.DocumentComplete(id, Lookup(f, "topic", JNull), Lookup(f, "content", JNull), Lookup(f, "category_path", JNull), EmptyArr));
    ctx' := ctx.(docId := Some(id));
  }

  method OnNavigation(ws: Socket, db: Db, u: Turn, state: map<string, Json>, ctx: Ctx, nav: Json) returns (err: Option<string>)
    modifies ws, db
    ensures (Run(state, ctx, ws.sent, db.Snapshot()), err) == RouteNavigationHandled(u, Run(state, ctx, old(ws.sent), old(db.Snapshot())), nav)
  {
    ws.SendJson(Send.Event("navigation", Some(nav)));
    if !nav.JObj? {
      return Some(NoAttribute(nav, "get"));
    }
    var target := Lookup(nav.fields, "document_id", JNull);
    var columns := MS.MessageColumns(Lookup(nav.fields, "message", JStr("")), JStr(NavigationType), target);
    if columns.Err? {
      return Some(columns.message);
    }
    var _ := MS.SaveAssistantMessage(db, u.sessionId, u.userId, columns.value.0, NavigationType, PC.DocKey(target), JNull, JNull, 0);
    err := None;
  }

  method OnResponse(ws: Socket, db: Db, u: Turn, state: map<string, Json>, ctx: Ctx, rs: map<string, Json>, resp: Json)
    returns (err: Option<string>)
    modifies ws, db
    ensures (Run(state, ctx, ws.sent, db.Snapshot()), err) == RouteResponseHandled(u, Run(state, ctx, old(ws.sent), old(db.Snapshot())), rs, resp)
  {
    if !resp.JObj? {
      return Some(NoAttribute(resp, "get"));
    }
    var content := Lookup(resp.fields, "content", JStr(""));
    ws.SendJson(Send.Event("content", Some(JObj(map["content" := content]))));
    var columns := MS.MessageColumns(content, Lookup(resp.fields, "type", JStr(MS.ChatType)), JNull);
    if columns.Err? {
      return Some(columns.message);
    }
    var _ := MS.SaveAssistantMessage(db, u.sessionId, u.userId, columns.value.0, columns.value.1, None, Lookup(rs, "intent", JNull), JNull, 0);
    err := None;
  }

  /** Everything after the second graph run, up to starting the background tasks. */
  method OnResult(ws: Socket, db: Db, u: Turn, state: map<string, Json>, ctx: Ctx, rs: map<string, Json>)
    returns (ctx': Ctx, err: Option<string>, launched: seq<Launch>)
    modifies ws, db
    ensures (Run(state, ctx', ws.sent, db.Snapshot()), err) == RouteFinished(u, Run(state, ctx, old(ws.sent), old(db.Snapshot())), rs)
    ensures launched == Launches(Run(state, ctx', ws.sent, db.Snapshot()), err, rs)
  {
    ctx', err, launched := ctx, None, [];
    if Truthy(Lookup(rs, "error", JNull)) {
      OnErrorResult(ws, db, state, ctx, rs["error"]);
      return;
    }
    ghost var r0 := Run(state, ctx, ws.sent, db.Snapshot());
    if Truthy(Lookup(rs, "document", JNull)) {
      ctx', err := OnDocument(ws, db, u, state, ctx, rs, rs["document"]);
      if err.Some? {
        return;
      }
    }
    ghost var r1 := Run(state, ctx', ws.sent, db.Snapshot());
    assert RouteDocumentOnward(u, r0, rs) == RouteNavigationOnward(u, r1, rs);
    if Truthy(Lookup(rs, "navigation_target", JNull)) {
      err := OnNavigation(ws, db, u, state, ctx', rs["navigation_target"]);
      if err.Some? {
        return;
      }
    }
    ghost var r2 := Run(state, ctx', ws.sent, db.Snapshot());
    assert RouteNavigationOnward(u, r1, rs) == RouteResponseOnward(u, r2, rs);
    if Truthy(Lookup(rs, "response", JNull)) {
      err := OnResponse(ws, db, u, state, ctx', rs, rs["response"]);
      if err.Some? {
        return;
      }
    }
    ghost var r3 := Run(state, ctx', ws.sent, db.Snapshot());
    assert RouteResponseOnward(u, r2, rs) == (Concluded(r3, rs), None);
    launched := OnConclude(ws, db, state, ctx', rs);
  }

  /** An error result: the placeholder goes and the error is reported as it is. */
  method OnErrorResult(ws: Socket, db: Db, state: map<string, Json>, ctx: Ctx, error: Json)
    modifies ws, db
    ensures Run(state, ctx, ws.sent, db.Snapshot()) == RouteErrorHandled(Run(state, ctx, old(ws.sent), old(db.Snapshot())), error)
  {
    if ctx.placeholderMessageId.Some? && ctx.placeholderMessageId.value != 0 {
      MS.DeleteMessage(db, ctx.placeholderMessageId.value);
    }
    ws.SendJson(TopLevel("error", error));
  }

  /** The end of a turn that did not fail: the streamed text if nothing else answered, "done", then the background tasks. */
  method OnConclude(ws: Socket, db: Db, state: map<string, Json>, ctx: Ctx, rs: map<string, Json>) returns (launched: seq<Launch>)
    requires !Truthy(Lookup(rs, "error", JNull))
    modifies ws
    ensures Run(state, ctx, ws.sent, db.Snapshot()) == Concluded(Run(state, ctx, old(ws.sent), db.Snapshot()), rs)
    ensures launched == Launches(Run(state, ctx, ws.sent, db.Snapshot()), None, rs)
  {
    launched := [];
    if ctx.accumulatedContent != "" && !Truthy(Lookup(rs, "document", JNull)) && !Truthy(Lookup(rs, "response", JNull)) {
      ws.SendJson(Send.Content(ctx.accumulatedContent));
    }
    ws.SendJson(Send.Done());
    var content := TaskContent(rs);
    if ctx.docId.Some? && ctx.docId.value != 0 && Truthy(content) {
      launched := [Launch(ExtractEntities, ctx.docId.value, content, |ws.sent|),
                   Launch(GenerateFollowUps, ctx.docId.value, content, |ws.sent|)];
    }
  }

  /** The try block, up to the first step that raises. */
  method OnTurn(ws: Socket, db: Db, u: Turn, state: map<string, Json>, events: seq<GraphEvent>, rs: map<string, Json>)
    returns (ctx: Ctx, err: Option<string>, launched: seq<Launch>)
    modifies ws, db
    ensures (Run(state, ctx, ws.sent, db.Snapshot()), err) == RouteAttempted(u, Run(state, FreshCtx, old(ws.sent), old(db.Snapshot())), events, rs)
    ensures launched == Launches(Run(state, ctx, ws.sent, db.Snapshot()), err, rs)
  {
    ctx, err, launched := FreshCtx, None, [];
    ws.SendJson(TopLevel("thinking", JStr(Send.ThinkingDefault)));
    if "raw_message" !in state {
      return ctx, Some(PC.KeyErrorText("raw_message")), [];
    }
    if "input_source" !in state {
      return ctx, Some(PC.KeyErrorText("input_source")), [];
    }
    var _ := MS.SaveUserMessage(db, u.sessionId, u.userId, TextOf(state["raw_message"]), TextOf(state["input_source"]), None);
    ctx, err := OnEvents(ws, db, u, state, ctx, events);
    if err.Some? {
      return;
    }
    ctx, err, launched := OnResult(ws, db, u, state, ctx, rs);
  }

  /** `stream_agent_response` on the state's session and user; `resultState` is what the second graph run returns. */
  method StreamAgentResponse(ws: Socket, db: Db, state: map<string, Json>, events: seq<GraphEvent>, resultState: map<string, Json>)
    returns (launched: seq<Launch>)
    requires "session_id" in state && state["session_id"].JStr? && "user_id" in state && state["user_id"].JInt?
    modifies ws, db
    ensures var (r, ls) := RouteStreamed(TurnOfState(state), Run(state, FreshCtx, old(ws.sent), old(db.Snapshot())), events, resultState);
      ws.sent == r.sent && db.Snapshot() == r.tables && launched == ls
  {
    var u := TurnOfState(state);
    var _ := SS.UpdateAgentStatus(db, u.sessionId, SS.RunningStatus);
    var ctx, err;
    ctx, err, launched := OnTurn(ws, db, u, state, events, resultState);
    if err.Some? {
      ws.SendJson(TopLevel("error", JStr(StreamErrorText(err.value))));
    }
    var _ := SS.UpdateAgentStatus(db, u.sessionId, SS.IdleStatus);
  }

  /** One pass of the receive loop. */
  method OnText(ws: Socket, db: Db, sessionId: string, text: string, loads: bool, parse: RequestParser, g: Graph, launched: seq<Launch>)
    returns (launched': seq<Launch>)
    modifies ws, db
    ensures Wire(ws.sent, db.Snapshot(), launched') == Received(sessionId, Wire(old(ws.sent), old(db.Snapshot()), launched), text, loads, parse, g)
  {
    var request := parse(text);
    if request.Err? {
      ws.SendJson(TopLevel("error", JStr(InvalidRequestPrefix + request.message)));
      return launched;
    }
    var c := ContextLoaded(db.Snapshot(), sessionId, loads);
    var state := BuiltState(request.value, sessionId, c);
    BuiltStateTurn(request.value, sessionId, c);
    launched' := OnRequest(ws, db, sessionId, state, g.events(state), g.invoke(state), launched);
  }

  /** The turn a parsed request runs. */
  method OnRequest(ws: Socket, db: Db, sessionId: string, state: map<string, Json>, events: seq<GraphEvent>, rs: map<string, Json>,
                   launched: seq<Launch>)
    returns (launched': seq<Launch>)
    requires "session_id" in state && state["session_id"].JStr? && "user_id" in state && state["user_id"].JInt?
    requires TurnOfState(state) == Turn(sessionId, DefaultUserId)
    modifies ws, db
    ensures Wire(ws.sent, db.Snapshot(), launched') == TurnServed(sessionId, Wire(old(ws.sent), old(db.Snapshot()), launched), state, events, rs)
  {
    var ls := StreamAgentResponse(ws, db, state, events, rs);
    launched' := launched + ls;
  }

  /**
   * `websocket_endpoint` over the texts the client sends before it goes
   * away: connect, answer each text, and drop the registration at the end.
   */
  method WebSocketEndpoint(manager: ConnectionManager, ws: Socket, db: Db, sessionId: string, texts: seq<string>,
                           loads: nat -> bool, parse: RequestParser, g: Graph)
    returns (launched: seq<Launch>)
    modifies manager, ws, db
    ensures manager.active == Disconnected(old(manager.active)[sessionId := ws], sessionId)
    ensures Wire(ws.sent, db.Snapshot(), launched) == Served(sessionId, Wire(old(ws.sent), old(db.Snapshot()), []), texts, 0, loads, parse, g)
  {
    manager.Connect(ws, sessionId);
    launched := [];
    var i := 0;
    while i < |texts|
      invariant 0 <= i <= |texts|
      invariant manager.active == old(manager.active)[sessionId := ws]
      invariant Served(sessionId, Wire(ws.sent, db.Snapshot(), launched), texts[i..], i, loads, parse, g)
             == Served(sessionId, Wire(old(ws.sent), old(db.Snapshot()), []), texts, 0, loads, parse, g)
    {
      assert texts[i..][0] == texts[i] && texts[i..][1..] == texts[i + 1..];
      launched := OnText(ws, db, sessionId, texts[i], loads(i), parse, g, launched);
      i := i + 1;
    }
    manager.Disconnect(sessionId);
  }
}
