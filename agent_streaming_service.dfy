/**
 * The stream processor that runs one agent turn over a WebSocket: it marks
 * the session running, stores the user's message, reacts to each event the
 * agent graph emits (forwarding progress to the client and persisting the
 * document, entities and follow-ups as the nodes finish), finalises from the
 * checkpointed state, reports any failure to the client, and marks the
 * session idle again.
 *
 * The graph itself is not modelled: its events and its checkpointed final
 * state are inputs. The socket is the outbox `sent`, the database a `Db`.
 */
module AgentStreamingService {
  import opened Wrappers
  import opened Text
  import opened Json
  import opened Store
  import opened WebSocketEventHandler
  import Send = MessageSender
  import PC = PersistenceCoordinator
  import SS = SessionService
  import MS = MessageService
  import DS = DocumentService
  import ES = EntityService

  /** One event of the graph's event stream: its "event" kind, "name", "data" and "metadata". */
  datatype GraphEvent = GraphEvent(kind: string, name: string, data: map<string, Json>, metadata: map<string, Json>)

  /** The kinds the processor has a handler for; every other kind is skipped. */
  const HandledKinds: set<string> := {"on_chain_start", "on_chain_end", "on_chat_model_start", "on_chat_model_stream",
                                      "on_chat_model_end", "on_tool_start", "on_tool_end", "on_tool_error"}

  /** Who the turn is for: the state's "session_id" and "user_id". */
  datatype Turn = Turn(sessionId: string, userId: int)

  /** Everything a handler can change: the agent state, the stream context, the outbox and the database. */
  datatype Run = Run(state: map<string, Json>, ctx: Ctx, sent: seq<Json>, tables: Tables)

  const ContentAgent := "content_agent"
  const PostProcess := "post_process"
  const LlmName := "LLM"
  const DefaultTitle := "新文档"
  const PostProcessingStage := "post_processing"
  const PostProcessingMessage := "正在提取关键概念和生成追问..."
  const DocumentRefType := "document_ref"
  const NavigationType := "navigation"
  const ConceptType := "concept"
  const UnknownError := "Unknown error"

  /** The part of a dotted event name after its last '.', or the whole name when it has none. */
  function LastSegment(name: string): string {
    if name == [] then []
    else if name[|name| - 1] == '.' then []
    else LastSegment(name[..|name| - 1]) + [name[|name| - 1]]
  }

  /** The run after one more payload is sent. */
  function Emit(r: Run, p: Json): Run {
    r.(sent := r.sent + [p])
  }

  // ---------------------------------------------------------------------
  // The handlers, as functions of the run
  // ---------------------------------------------------------------------

  /**
   * The title the document card starts with: the routing target, else the
   * intent target, else the raw message. A truthy routing decision that is
   * not a dict raises on `.get`, and so does such an intent once it is
   * consulted.
   */
  function DocTitle(state: map<string, Json>): Result<Json> {
    var routing := Or(Lookup(state, "routing_decision", JNull), EmptyObj);
    var intent := Or(Lookup(state, "intent", JNull), EmptyObj);
    if !routing.JObj? then Err(NoAttribute(routing, "get"))
    else if Truthy(Lookup(routing.fields, "target", JNull)) then Ok(routing.fields["target"])
    else if !intent.JObj? then Err(NoAttribute(intent, "get"))
    else Ok(Or(Lookup(intent.fields, "target", JNull), Lookup(state, "raw_message", JStr(DefaultTitle))))
  }

  // Each handler below is specified by a function of the run (ChainStarted,
  // ContentAgentEnded, PostProcessEnded, ...) and carried out by the method
  // of the processor class with the source's name (OnChainStart,
  // OnContentAgentEnd, OnPostProcessEnd, ...), whose ensures ties the two.

  /** `_on_chain_start`, specifying `OnChainStart` */
  function ChainStarted(u: Turn, r: Run, ev: GraphEvent): (Run, Option<string>) {
    var node := LastSegment(ev.name);
    var r1 := Emit(r, Send.NodeStart(node, JNull));
    if node == ContentAgent && !PC.HasMessageId(r.ctx.placeholderMessageId) then
      match DocTitle(r.state)
      case Err(e) => (r1, Some(e))
      case Ok(title) =>
        var (t, m) := PC.PlaceholderCreated(r.tables, u.sessionId, u.userId);
        (Emit(r1, Send.DocumentStart(title)).(tables := t, ctx := r.ctx.(placeholderMessageId := Some(m.id))), None)
    else (r1, None)
  }

  /**
   * `_on_content_agent_end`, specifying `OnContentAgentEnd`: persist the
   * document, record it in the chat, send it, and remember its id. The
   * chat record's flush rejects a truthy list or dict as change summary,
   * and the whole transaction is rolled back.
   */
  function ContentAgentEnded(u: Turn, r: Run, o: map<string, Json>): (Run, Option<string>) {
    var docData := Lookup(o, "document", JNull);
    if "input_source" !in r.state then (r, Some(PC.KeyErrorText("input_source")))
    else
      var changeSummary := Lookup(o, "change_summary", JNull);
      var intent := Lookup(o, "intent", JNull);
      var routing := Lookup(o, "routing_decision", JNull);
      match PC.DocumentPersisted(r.tables, u.sessionId, u.userId, docData, changeSummary, TextOf(r.state["input_source"]),
                                 Lookup(r.state, "current_doc_id", JNull), intent, routing)
      case Err(e) => (r, Some(e))
      case Ok((t1, docId, topic)) =>
        match MS.MessageColumns(Or(changeSummary, JStr("")), JStr(DocumentRefType), JInt(docId))
        case Err(e) => (r, Some(e))
        case Ok((summary, _)) => (DocumentRecorded(u, r, o, t1, docId, topic, summary), None)
  }

  /**
   * What follows a persisted document: the chat records its change, the
   * placeholder is completed, the card is sent and the id remembered, and
   * post-processing is announced.
   */
  function DocumentRecorded(u: Turn, r: Run, o: map<string, Json>, t1: Tables, docId: int, topic: Json, summary: string): Run {
    var docData := Lookup(o, "document", JNull);
    var t2 := MS.Saved(t1, u.sessionId, u.userId, MS.AssistantRole, summary, DocumentRefType,
                       Some(docId), Lookup(o, "intent", JNull), Lookup(o, "routing_decision", JNull), 0).0;
    var t3 := PC.PlaceholderUpdated(t2, r.ctx.placeholderMessageId, u.sessionId, u.userId, docId, topic);
    var card := Send.DocumentComplete(docId, Get(docData, "topic", JNull), Get(docData, "content", JNull),
                                      Get(docData, "category_path", JNull), EmptyArr);
    var r1 := Emit(r, card).(tables := t3, ctx := r.ctx.(docId := Some(docId)));
    Emit(r1, Send.Progress(PostProcessingStage, PostProcessingMessage))
  }

  /** A list of entity names. */
  predicate AllStrings(items: seq<Json>) {
    forall i | 0 <= i < |items| :: items[i].JStr?
  }

  function Names(items: seq<Json>): seq<string> {
    seq(|items|, i requires 0 <= i < |items| => TextOf(items[i]))
  }

  /** A list of question dicts. */
  predicate AllDicts(items: seq<Json>) {
    forall i | 0 <= i < |items| :: items[i].JObj?
  }

  function FieldsList(items: seq<Json>): seq<map<string, Json>> {
    seq(|items|, i requires 0 <= i < |items| => FieldsOf(items[i]))
  }

  /**
   * The entity block of `_on_post_process_end`, specifying
   * `PersistEntities`: upsert the names and store
   * the list on the document. Anything the services cannot take, and any
   * failure, rolls the block back and is only logged.
   */
  function EntitiesPersisted(t: Tables, sessionId: string, docId: int, entities: Json): Tables {
    if !(entities.JArr? && AllStrings(entities.items)) then t
    else
      match ES.Upserted(t, sessionId, Names(entities.items), docId, ConceptType)
      case None => t
      case Some(t1) =>
        match DS.EntitiesUpdated(t1, docId, entities.items)
        case None => t1
        case Some(t2) => t2
  }

  /**
   * The follow-up block of `_on_post_process_end`, specifying
   * `PersistFollowUps`; anything but a list of dicts, and a flush that
   * rejects one of the questions, fails, rolls back and is only logged.
   */
  function FollowUpsPersisted(t: Tables, docId: int, questions: Json): Tables {
    if !(questions.JArr? && AllDicts(questions.items)) then t
    else
      var rows := DS.FollowUpRows(docId, FieldsList(questions.items));
      if rows.Ok? then t.(followUps := t.followUps + rows.value) else t
  }

  /** `if not doc_id` */
  predicate HasDocId(docId: Option<int>) {
    docId.Some? && docId.value != 0
  }

  /** `_on_post_process_end`, specifying `OnPostProcessEnd`: persist entities and follow-ups for the document and send both. */
  function PostProcessEnded(u: Turn, r: Run, o: map<string, Json>): (Run, Option<string>) {
    if !HasDocId(r.ctx.docId) then (r, None)
    else
      var docId := r.ctx.docId.value;
      var docData := Or(Lookup(o, "document", JNull), EmptyObj);
      if !docData.JObj? then (r, Some(NoAttribute(docData, "get")))
      else
        PostProcessRecorded(u, r, docId, Lookup(docData.fields, "entities", EmptyArr), Lookup(o, "follow_up_questions", EmptyArr))
  }

  /**
   * The entities and the follow-ups are persisted, each only when truthy,
   * and then both are sent. Each send logs the length of what it sent, so
   * a value without one (None, a boolean or a number) raises right after
   * its payload.
   */
  function PostProcessRecorded(u: Turn, r: Run, docId: int, entities: Json, followUps: Json): (Run, Option<string>) {
    var t1 := if Truthy(entities) then EntitiesPersisted(r.tables, u.sessionId, docId, entities) else r.tables;
    var t2 := if Truthy(followUps) then FollowUpsPersisted(t1, docId, followUps) else t1;
    var r1 := Emit(r.(tables := t2), Send.Entities(docId, entities));
    if !Sized(entities) then (r1, Some(NoLen(entities)))
    else
      var r2 := Emit(r1, Send.FollowUps(docId, followUps));
      if !Sized(followUps) then (r2, Some(NoLen(followUps))) else (r2, None)
  }

  /** `_on_chain_end`, specifying `OnChainEnd`: a dict output is merged into the state and the captured result before the node's own step. */
  function ChainEnded(u: Turn, r: Run, ev: GraphEvent): (Run, Option<string>) {
    var node := LastSegment(ev.name);
    var r1 := Emit(r, Send.NodeEnd(node));
    if "output" !in ev.data || !ev.data["output"].JObj? then (r1, None)
    else
      var o := ev.data["output"].fields;
      var r2 := r1.(state := r1.state + o, ctx := r1.ctx.(finalResult := r1.ctx.finalResult + o));
      if node == ContentAgent && Truthy(Lookup(o, "document", JNull)) then ContentAgentEnded(u, r2, o)
      else if node == PostProcess then PostProcessEnded(u, r2, o)
      else (r2, None)
  }

  /** Chat-model events from inside post_process are not forwarded. */
  predicate InPostProcess(ev: GraphEvent) {
    Lookup(ev.metadata, "langgraph_node", JNull) == JStr(PostProcess)
  }

  function ChatModelStarted(r: Run, ev: GraphEvent): Run {
    if InPostProcess(ev) then r else Emit(r, Send.NodeStart(LlmName, Lookup(ev.data, "model", JNull)))
  }

  /** A chunk's text: its "content" when it has one, else its `str`. */
  function ChunkText(chunk: Json): string {
    if chunk.JObj? && "content" in chunk.fields then PyStr(chunk.fields["content"]) else PyStr(chunk)
  }

  /** Does this stream event carry a document token? */
  predicate IsDocumentToken(ev: GraphEvent) {
    && !InPostProcess(ev)
    && Truthy(Lookup(ev.data, "chunk", JNull))
    && Lookup(ev.metadata, "langgraph_node", JStr("")) == JStr(ContentAgent)
  }

  /** `_on_chat_model_stream`: content_agent tokens are accumulated and forwarded; others are dropped. */
  function ChatModelStreamed(r: Run, ev: GraphEvent): Run {
    if !IsDocumentToken(ev) then r
    else
      var text := ChunkText(Lookup(ev.data, "chunk", JNull));
      Emit(r, Send.DocumentToken(text)).(ctx := r.ctx.(accumulatedContent := r.ctx.accumulatedContent + text))
  }

  function ChatModelEnded(r: Run, ev: GraphEvent): Run {
    if InPostProcess(ev) then r else Emit(r, Send.NodeEnd(LlmName))
  }

  function ToolStarted(r: Run, ev: GraphEvent): Run {
    Emit(r, Send.ToolStart(LastSegment(ev.name), PyStr(Lookup(ev.data, "input", EmptyObj))))
  }

  function ToolEnded(r: Run, ev: GraphEvent): Run {
    Emit(r, Send.ToolEnd(LastSegment(ev.name), PyStr(Lookup(ev.data, "output", JStr("")))))
  }

  function ToolErrorText(tool: string, error: Json): string {
    "工具 " + tool + " 执行失败: " + PyStr(error)
  }

  function ToolFailed(r: Run, ev: GraphEvent): Run {
    Emit(r, Send.Error(ToolErrorText(LastSegment(ev.name), Lookup(ev.data, "error", JStr(UnknownError)))))
  }

  /** One event through its handler, specifying `HandleEvent`; an unhandled kind changes nothing. */
  function EventHandled(u: Turn, r: Run, ev: GraphEvent): (Run, Option<string>) {
    if ev.kind == "on_chain_start" then ChainStarted(u, r, ev)
    else if ev.kind == "on_chain_end" then ChainEnded(u, r, ev)
    else if ev.kind == "on_chat_model_start" then (ChatModelStarted(r, ev), None)
    else if ev.kind == "on_chat_model_stream" then (ChatModelStreamed(r, ev), None)
    else if ev.kind == "on_chat_model_end" then (ChatModelEnded(r, ev), None)
    else if ev.kind == "on_tool_start" then (ToolStarted(r, ev), None)
    else if ev.kind == "on_tool_end" then (ToolEnded(r, ev), None)
    else if ev.kind == "on_tool_error" then (ToolFailed(r, ev), None)
    else (r, None)
  }

  /** `process_events`, specifying `ProcessEvents`: the events in order, up to the first handler that raises. */
  function EventsHandled(u: Turn, r: Run, events: seq<GraphEvent>): (Run, Option<string>)
    decreases |events|
  {
    if events == [] then (r, None)
    else
      var step := EventHandled(u, r, events[0]);
      if step.1.Some? then step else EventsHandled(u, step.0, events[1..])
  }

  // ---------------------------------------------------------------------
  // finalize
  // ---------------------------------------------------------------------

  /** A captured value fills a key the saved checkpoint lacks or holds as None. */
  predicate Fills(checkpoint: map<string, Json>, captured: map<string, Json>, k: string) {
    k in captured && (k !in checkpoint || checkpoint[k].JNull?)
  }

  /** The saved state with the captured node outputs as fallback. */
  function Merged(checkpoint: map<string, Json>, captured: map<string, Json>): map<string, Json> {
    map k | k in checkpoint.Keys + captured.Keys :: if Fills(checkpoint, captured, k) then captured[k] else checkpoint[k]
  }

  /** `_handle_error`, specifying `HandleError`: drop the placeholder card and report the error. */
  function ErrorHandled(r: Run, message: string): Run {
    var t := if PC.HasMessageId(r.ctx.placeholderMessageId) then MS.MessageDeleted(r.tables, r.ctx.placeholderMessageId.value)
             else r.tables;
    Emit(r.(tables := t), Send.Error(message))
  }

  /** The roadmap step, specifying `HandleRoadmap`: store it and send it with its new id. */
  function RoadmapHandled(u: Turn, r: Run, roadmap: Json): (Run, Option<string>) {
    match PC.RoadmapPersisted(r.tables, u.sessionId, Some(u.userId), roadmap)
    case Err(e) => (r, Some(e))
    case Ok((t, id)) => (Emit(r.(tables := t), Send.Roadmap(FieldsOf(roadmap)["id" := JInt(id)])), None)
  }

  /**
   * `_handle_navigation`, specifying `HandleNavigation`: send the target,
   * then record its message ("" when falsy) in the chat, unless the flush
   * rejects the message or the document id.
   */
  function NavigationHandled(u: Turn, r: Run, nav: Json): (Run, Option<string>) {
    if !nav.JObj? then (r, Some(NoAttribute(nav, "get")))
    else
      var docId := Lookup(nav.fields, "document_id", JNull);
      var message := Lookup(nav.fields, "message", JNull);
      var r1 := Emit(r, Send.Navigation(docId, message));
      match MS.MessageColumns(Or(message, JStr("")), JStr(NavigationType), docId)
      case Err(e) => (r1, Some(e))
      case Ok((text, _)) =>
        var t := MS.Saved(r.tables, u.sessionId, u.userId, MS.AssistantRole, text, NavigationType, PC.DocKey(docId), JNull, JNull, 0).0;
        (r1.(tables := t), None)
  }

  /**
   * `_handle_response`, specifying `HandleResponse`: send the reply as it
   * is, then record its content ("" when falsy) and type in the chat with
   * the turn's intent. The send logs the reply's length, so a reply
   * without one raises first; the flush rejects a list or dict content or
   * type.
   */
  function ResponseHandled(u: Turn, r: Run, resp: Json): (Run, Option<string>) {
    if !resp.JObj? then (r, Some(NoAttribute(resp, "get")))
    else
      var content := Lookup(resp.fields, "content", JStr(""));
      var r1 := Emit(r, Send.Event("content", Some(JObj(map["content" := content]))));
      if !Sized(content) then (r1, Some(NoLen(content)))
      else
        match MS.MessageColumns(Or(Lookup(resp.fields, "content", JNull), JStr("")), Lookup(resp.fields, "type", JStr(MS.ChatType)), JNull)
        case Err(e) => (r1, Some(e))
        case Ok((text, kind)) =>
          var t := MS.Saved(r.tables, u.sessionId, u.userId, MS.AssistantRole, text, kind, None, Lookup(r.state, "intent", JNull), JNull, 0).0;
          (r1.(tables := t), None)
  }

  /** Is the accumulated document text still to be sent as plain content? */
  predicate SendsAccumulated(r: Run, rs: map<string, Json>) {
    r.ctx.accumulatedContent != "" && !Truthy(Lookup(rs, "document", JNull)) && !Truthy(Lookup(rs, "response", JNull))
  }

  /** The steps of `finalize` after the error check, each skipped when its key is falsy: first the roadmap. */
  function ResultsHandled(u: Turn, r: Run, rs: map<string, Json>): (Run, Option<string>) {
    var (r1, e1) := if Truthy(Lookup(rs, "roadmap", JNull)) then RoadmapHandled(u, r, rs["roadmap"]) else (r, None);
    if e1.Some? then (r1, e1) else NavigationOnward(u, r1, rs)
  }

  /** The results steps from the navigation on. */
  function NavigationOnward(u: Turn, r: Run, rs: map<string, Json>): (Run, Option<string>) {
    var (r2, e2) := if Truthy(Lookup(rs, "navigation_target", JNull)) then NavigationHandled(u, r, rs["navigation_target"]) else (r, None);
    if e2.Some? then (r2, e2) else ResponseOnward(u, r2, rs)
  }

  /** The results steps from the response on. */
  function ResponseOnward(u: Turn, r: Run, rs: map<string, Json>): (Run, Option<string>) {
    var (r3, e3) := if Truthy(Lookup(rs, "response", JNull)) then ResponseHandled(u, r, rs["response"]) else (r, None);
    if e3.Some? then (r3, e3) else (Concluded(r3, rs), None)
  }

  /** The end of a turn that did not fail: the streamed text when nothing else answered, then "done". */
  function Concluded(r: Run, rs: map<string, Json>): Run {
    var r1 := if SendsAccumulated(r, rs) then Emit(r, Send.Content(r.ctx.accumulatedContent)) else r;
    Emit(r1, Send.Done())
  }

  /** `finalize`, specifying `Finalize`, given the saved state (empty when there is none). */
  function Finalized(u: Turn, r: Run, checkpoint: map<string, Json>): (Run, Option<string>) {
    var rs := Merged(checkpoint, r.ctx.finalResult);
    if Truthy(Lookup(rs, "error", JNull)) then (ErrorHandled(r, PyStr(Lookup(rs, "error", JNull))), None)
    else ResultsHandled(u, r, rs)
  }

  // ---------------------------------------------------------------------
  // stream
  // ---------------------------------------------------------------------

  /** A status update whose failure is only logged. */
  function StatusSet(t: Tables, sessionId: string, status: string): Tables {
    match SS.AgentStatusUpdated(t, sessionId, status)
    case Ok(t') => t'
    case Err(_) => t
  }

  /** `initialize`, specifying `Initialize` */
  function Initialized(u: Turn, r: Run): Run {
    Emit(r.(tables := StatusSet(r.tables, u.sessionId, SS.RunningStatus)), Send.Thinking(Send.ThinkingDefault))
  }

  /** `persist_user_input`, specifying `PersistUserInput`: the raw message, typed by its input source. */
  function UserInputPersisted(u: Turn, r: Run): (Run, Option<string>) {
    if "raw_message" !in r.state then (r, Some(PC.KeyErrorText("raw_message")))
    else if "input_source" !in r.state then (r, Some(PC.KeyErrorText("input_source")))
    else
      var t := MS.Saved(r.tables, u.sessionId, u.userId, MS.UserRole, TextOf(r.state["raw_message"]),
                        TextOf(r.state["input_source"]), None, JNull, JNull, 0).0;
      (r.(tables := t), None)
  }

  function StreamErrorText(e: string): string {
    "处理请求时出错: " + e
  }

  /** The try block of `stream` up to `finalize`: initialise, store the user's message, run the events. */
  function Prepared(u: Turn, r: Run, events: seq<GraphEvent>): (Run, Option<string>) {
    var (r1, e1) := UserInputPersisted(u, Initialized(u, r));
    if e1.Some? then (r1, e1) else EventsHandled(u, r1, events)
  }

  /** The steps `stream` runs inside its try block, up to the first that raises; specifies `Attempt`. */
  function Attempted(u: Turn, r: Run, events: seq<GraphEvent>, checkpoint: map<string, Json>): (Run, Option<string>) {
    var (r2, e2) := Prepared(u, r, events);
    if e2.Some? then (r2, e2) else Finalized(u, r2, checkpoint)
  }

  /** `stream`, specifying `Stream`: a raised error is reported to the client, and the session goes back to idle in every case. */
  function Streamed(u: Turn, r: Run, events: seq<GraphEvent>, checkpoint: map<string, Json>): Run {
    var (r1, e) := Attempted(u, r, events, checkpoint);
    Closed(u, r1, e)
  }

  /** The end of `stream`: report what the try block raised, if anything, then go idle. */
  function Closed(u: Turn, r: Run, e: Option<string>): Run {
    var r1 := if e.Some? then Emit(r, Send.Error(StreamErrorText(e.value))) else r;
    r1.(tables := StatusSet(r1.tables, u.sessionId, SS.IdleStatus))
  }

  // ---------------------------------------------------------------------
  // The processor
  // ---------------------------------------------------------------------

  class AgentStreamProcessor {
    const sessionId: string
    const userId: int
    const ctx: StreamContext
    const db: Db
    var state: map<string, Json>
    /** Every payload sent over the socket, in order. */
    var sent: seq<Json>

    function Now(): Run
      reads this, ctx, db
    {
      Run(state, ctx.Value(), sent, db.Snapshot())
    }

    function TurnOf(): Turn {
      Turn(sessionId, userId)
    }

    /** `__init__`: the turn is the state's session and user; the context is fresh and nothing is sent. */
    constructor (db: Db, state: map<string, Json>)
      requires "session_id" in state && state["session_id"].JStr?
      requires "user_id" in state && state["user_id"].JInt?
      ensures this.db == db && this.state == state && sent == []
      ensures sessionId == state["session_id"].s && userId == state["user_id"].i
      ensures fresh(ctx) && IsFresh(ctx.Value())
    {
      this.db := db;
      this.state := state;
      sessionId := state["session_id"].s;
      userId := state["user_id"].i;
      ctx := new StreamContext();
      sent := [];
    }

    method OnChainStart(ev: GraphEvent) returns (err: Option<string>)
      modifies this, ctx, db
      ensures (Now(), err) == ChainStarted(TurnOf(), old(Now()), ev)
    {
      var node := LastSegment(ev.name);
      sent := sent + [Send.NodeStart(node, JNull)];
      err := None;
      if node == ContentAgent && !PC.HasMessageId(ctx.placeholderMessageId) {
        var title := DocTitle(state);
        if title.Err? {
          return Some(title.message);
        }
        sent := sent + [Send.DocumentStart(title.value)];
        var m := PC.CreatePlaceholderMessage(db, sessionId, userId, title.value);
        ctx.placeholderMessageId := Some(m.id);
      }
    }

    method OnContentAgentEnd(output: map<string, Json>) returns (err: Option<string>)
      modifies this, ctx, db
      ensures (Now(), err) == ContentAgentEnded(TurnOf(), old(Now()), output)
    {
      var docData := Lookup(output, "document", JNull);
      if "input_source" !in state {
        return Some(PC.KeyErrorText("input_source"));
      }
      var changeSummary := Lookup(output, "change_summary", JNull);
      var intent := Lookup(output, "intent", JNull);
      var routing := Lookup(output, "routing_decision", JNull);
      var start := db.Snapshot();
      var p := PC.PersistDocument(db, sessionId, userId, docData, changeSummary, TextOf(state["input_source"]),
                                  Lookup(state, "current_doc_id", JNull), intent, routing);
      if p.Err? {
        return Some(p.message);
      }
      var (docId, topic) := p.value;
      var columns := MS.MessageColumns(Or(changeSummary, JStr("")), JStr(DocumentRefType), JInt(docId));
      if columns.Err? {
        db.Restore(start);
        return Some(columns.message);
      }
      var _ := PC.PersistAssistantMessage(db, sessionId, userId, columns.value.0, DocumentRefType, Some(docId), intent, routing);
      PC.UpdatePlaceholderMessage(db, ctx.placeholderMessageId, sessionId, userId, docId, topic);
      sent := sent + [Send.DocumentComplete(docId, Get(docData, "topic", JNull), Get(docData, "content", JNull),
                                            Get(docData, "category_path", JNull), EmptyArr)];
      ctx.docId := Some(docId);
      sent := sent + [Send.Progress(PostProcessingStage, PostProcessingMessage)];
      err := None;
    }

    /** The entity block: its own transaction, rolled back and only logged on failure. */
    method PersistEntities(docId: int, entities: Json)
      modifies db
      ensures db.Snapshot() == EntitiesPersisted(old(db.Snapshot()), sessionId, docId, entities)
    {
      if !(entities.JArr? && AllStrings(entities.items)) {
        return;
      }
      var ok := ES.UpsertEntities(db, sessionId, Names(entities.items), docId, ConceptType);
      if ok {
        var _ := DS.UpdateDocumentEntities(db, docId, entities.items);
      }
    }

    /** The follow-up block: its own transaction, rolled back and only logged on failure. */
    method PersistFollowUps(docId: int, questions: Json)
      modifies db
      ensures db.Snapshot() == FollowUpsPersisted(old(db.Snapshot()), docId, questions)
    {
      if questions.JArr? && AllDicts(questions.items) {
        var _ := DS.SaveFollowUps(db, docId, FieldsList(questions.items));
      }
    }

    method OnPostProcessEnd(output: map<string, Json>) returns (err: Option<string>)
      modifies this, db
      ensures (Now(), err) == PostProcessEnded(TurnOf(), old(Now()), output)
    {
      var docId := ctx.docId;
      if !(docId.Some? && docId.value != 0) {
        return None;
      }
      var docData := Or(Lookup(output, "document", JNull), EmptyObj);
      if !docData.JObj? {
        return Some(NoAttribute(docData, "get"));
      }
      var entities := Lookup(docData.fields, "entities", EmptyArr);
      var followUps := Lookup(output, "follow_up_questions", EmptyArr);
      if Truthy(entities) {
        PersistEntities(docId.value, entities);
      }
      if Truthy(followUps) {
        PersistFollowUps(docId.value, followUps);
      }
      sent := sent + [Send.Entities(docId.value, entities)];
      if !Sized(entities) {
        return Some(NoLen(entities));
      }
      sent := sent + [Send.FollowUps(docId.value, followUps)];
      if !Sized(followUps) {
        return Some(NoLen(followUps));
      }
      err := None;
    }

    method OnChainEnd(ev: GraphEvent) returns (err: Option<string>)
      modifies this, ctx, db
      ensures (Now(), err) == ChainEnded(TurnOf(), old(Now()), ev)
    {
      var node := LastSegment(ev.name);
      sent := sent + [Send.NodeEnd(node)];
      err := None;
      if "output" in ev.data && ev.data["output"].JObj? {
        var output := ev.data["output"].fields;
        state := state + output;
        ctx.finalResult := ctx.finalResult + output;
        if node == ContentAgent && Truthy(Lookup(output, "document", JNull)) {
          err := OnContentAgentEnd(output);
        } else if node == PostProcess {
          err := OnPostProcessEnd(output);
        }
      }
    }

    method OnChatModelStart(ev: GraphEvent)
      modifies this
      ensures Now() == ChatModelStarted(old(Now()), ev)
    {
      if InPostProcess(ev) {
        return;
      }
      sent := sent + [Send.NodeStart(LlmName, Lookup(ev.data, "model", JNull))];
    }

    method OnChatModelStream(ev: GraphEvent)
      modifies this, ctx
      ensures Now() == ChatModelStreamed(old(Now()), ev)
    {
      if InPostProcess(ev) {
        return;
      }
      var chunk := Lookup(ev.data, "chunk", JNull);
      if Truthy(chunk) {
        var text := ChunkText(chunk);
        if Lookup(ev.metadata, "langgraph_node", JStr("")) == JStr(ContentAgent) {
          ctx.accumulatedContent := ctx.accumulatedContent + text;
          sent := sent + [Send.DocumentToken(text)];
        }
      }
    }

    method OnChatModelEnd(ev: GraphEvent)
      modifies this
      ensures Now() == ChatModelEnded(old(Now()), ev)
    {
      if InPostProcess(ev) {
        return;
      }
      sent := sent + [Send.NodeEnd(LlmName)];
    }

    method OnToolStart(ev: GraphEvent)
      modifies this
      ensures Now() == ToolStarted(old(Now()), ev)
    {
      sent := sent + [Send.ToolStart(LastSegment(ev.name), PyStr(Lookup(ev.data, "input", EmptyObj)))];
    }

    method OnToolEnd(ev: GraphEvent)
      modifies this
      ensures Now() == ToolEnded(old(Now()), ev)
    {
      sent := sent + [Send.ToolEnd(LastSegment(ev.name), PyStr(Lookup(ev.data, "output", JStr(""))))];
    }

    method OnToolError(ev: GraphEvent)
      modifies this
      ensures Now() == ToolFailed(old(Now()), ev)
    {
      var tool := LastSegment(ev.name);
      sent := sent + [Send.Error(ToolErrorText(tool, Lookup(ev.data, "error", JStr(UnknownError))))];
    }

    /** The handler table: the event's kind picks the handler, and a kind without one is skipped. */
    method HandleEvent(ev: GraphEvent) returns (err: Option<string>)
      modifies this, ctx, db
      ensures (Now(), err) == EventHandled(TurnOf(), old(Now()), ev)
    {
      err := None;
      if ev.kind == "on_chain_start" {
        err := OnChainStart(ev);
      } else if ev.kind == "on_chain_end" {
        err := OnChainEnd(ev);
      } else if ev.kind == "on_chat_model_start" {
        OnChatModelStart(ev);
      } else if ev.kind == "on_chat_model_stream" {
        OnChatModelStream(ev);
      } else if ev.kind == "on_chat_model_end" {
        OnChatModelEnd(ev);
      } else if ev.kind == "on_tool_start" {
        OnToolStart(ev);
      } else if ev.kind == "on_tool_end" {
        OnToolEnd(ev);
      } else if ev.kind == "on_tool_error" {
        OnToolError(ev);
      }
    }

    /** `process_events` over the events the graph streams; a raising handler ends the loop. */
    method ProcessEvents(events: seq<GraphEvent>) returns (err: Option<string>)
      modifies this, ctx, db
      ensures (Now(), err) == EventsHandled(TurnOf(), old(Now()), events)
    {
      var i := 0;
      while i < |events|
        invariant 0 <= i <= |events|
        invariant EventsHandled(TurnOf(), Now(), events[i..]) == EventsHandled(TurnOf(), old(Now()), events)
      {
        ghost var before := Now();
        err := HandleEvent(events[i]);
        assert events[i..][0] == events[i] && events[i..][1..] == events[i + 1..];
        if err.Some? {
          return;
        }
        i := i + 1;
      }
      err := None;
    }

    /** The fallback merge of `finalize`, one captured key at a time. */
    method MergeFallback(checkpoint: map<string, Json>, captured: map<string, Json>) returns (rs: map<string, Json>)
      ensures rs == Merged(checkpoint, captured)
    {
      rs := checkpoint;
      var keys := captured.Keys;
      while keys != {}
        invariant keys <= captured.Keys
        invariant rs.Keys == checkpoint.Keys + (captured.Keys - keys)
        invariant forall k | k in rs :: rs[k] == if k !in keys && Fills(checkpoint, captured, k) then captured[k] else checkpoint[k]
        decreases keys
      {
        ghost var w := Element(keys);
        var k :| k in keys;
        if k !in rs || rs[k].JNull? {
          rs := rs[k := captured[k]];
        }
        keys := keys - {k};
      }
    }

    method HandleError(message: string)
      modifies this, db
      ensures Now() == ErrorHandled(old(Now()), message)
    {
      if ctx.placeholderMessageId.Some? && ctx.placeholderMessageId.value != 0 {
        MS.DeleteMessage(db, ctx.placeholderMessageId.value);
      }
      sent := sent + [Send.Error(message)];
    }

    method HandleNavigation(nav: Json) returns (err: Option<string>)
      modifies this, db
      ensures (Now(), err) == NavigationHandled(TurnOf(), old(Now()), nav)
    {
      if !nav.JObj? {
        return Some(NoAttribute(nav, "get"));
      }
      var docId := Lookup(nav.fields, "document_id", JNull);
      var message := Lookup(nav.fields, "message", JNull);
      sent := sent + [Send.Navigation(docId, message)];
      var columns := MS.MessageColumns(Or(message, JStr("")), JStr(NavigationType), docId);
      if columns.Err? {
        return Some(columns.message);
      }
      var _ := PC.PersistAssistantMessage(db, sessionId, userId, columns.value.0, NavigationType, PC.DocKey(docId), JNull, JNull);
      err := None;
    }

    method HandleResponse(resp: Json) returns (err: Option<string>)
      modifies this, db
      ensures (Now(), err) == ResponseHandled(TurnOf(), old(Now()), resp)
    {
      if !resp.JObj? {
        return Some(NoAttribute(resp, "get"));
      }
      var content := Lookup(resp.fields, "content", JStr(""));
      sent := sent + [Send.Event("content", Some(JObj(map["content" := content])))];
      if !Sized(content) {
        return Some(NoLen(content));
      }
      var columns := MS.MessageColumns(Or(Lookup(resp.fields, "content", JNull), JStr("")), Lookup(resp.fields, "type", JStr(MS.ChatType)), JNull);
      if columns.Err? {
        return Some(columns.message);
      }
      var _ := PC.PersistAssistantMessage(db, sessionId, userId, columns.value.0, columns.value.1, None, Lookup(state, "intent", JNull), JNull);
      err := None;
    }

    /** The roadmap step of `finalize`: store the roadmap, then send it with its new id attached. */
    method HandleRoadmap(roadmap: Json) returns (err: Option<string>)
      modifies this, db
      ensures (Now(), err) == RoadmapHandled(TurnOf(), old(Now()), roadmap)
    {
      var p := PC.PersistRoadmap(db, sessionId, Some(userId), roadmap);
      if p.Err? {
        return Some(p.message);
      }
      sent := sent + [Send.Roadmap(FieldsOf(roadmap)["id" := JInt(p.value)])];
      err := None;
    }

    /** The steps of `finalize` after the error check. */
    method HandleResults(resultState: map<string, Json>) returns (err: Option<string>)
      modifies this, db
      ensures (Now(), err) == ResultsHandled(TurnOf(), old(Now()), resultState)
    {
      ghost var r0 := Now();
      if Truthy(Lookup(resultState, "roadmap", JNull)) {
        err := HandleRoadmap(resultState["roadmap"]);
        if err.Some? {
          return;
        }
      }
      ghost var r1 := Now();
      assert (r1, None) == if Truthy(Lookup(resultState, "roadmap", JNull)) then RoadmapHandled(TurnOf(), r0, resultState["roadmap"]) else (r0, None);
      if Truthy(Lookup(resultState, "navigation_target", JNull)) {
        err := HandleNavigation(resultState["navigation_target"]);
        if err.Some? {
          return;
        }
      }
      ghost var r2 := Now();
      assert (r2, None) == if Truthy(Lookup(resultState, "navigation_target", JNull)) then NavigationHandled(TurnOf(), r1, resultState["navigation_target"]) else (r1, None);
      if Truthy(Lookup(resultState, "response", JNull)) {
        err := HandleResponse(resultState["response"]);
        if err.Some? {
          return;
        }
      }
      Conclude(resultState);
      err := None;
    }

    method Conclude(resultState: map<string, Json>)
      modifies this
      ensures Now() == Concluded(old(Now()), resultState)
    {
      if ctx.accumulatedContent != "" && !Truthy(Lookup(resultState, "document", JNull))
         && !Truthy(Lookup(resultState, "response", JNull)) {
        sent := sent + [Send.Content(ctx.accumulatedContent)];
      }
      sent := sent + [Send.Done()];
    }

    /** `finalize`, given the saved state the graph reports. */
    method Finalize(checkpoint: map<string, Json>) returns (err: Option<string>)
      modifies this, db
      ensures (Now(), err) == Finalized(TurnOf(), old(Now()), checkpoint)
    {
      var resultState := MergeFallback(checkpoint, ctx.finalResult);
      if Truthy(Lookup(resultState, "error", JNull)) {
        HandleError(PyStr(resultState["error"]));
        return None;
      }
      err := HandleResults(resultState);
    }

    method Initialize()
      modifies this, db
      ensures Now() == Initialized(TurnOf(), old(Now()))
    {
      var _ := SS.UpdateAgentStatus(db, sessionId, SS.RunningStatus);
      sent := sent + [Send.Thinking(Send.ThinkingDefault)];
    }

    method PersistUserInput() returns (err: Option<string>)
      modifies db
      ensures (Now(), err) == UserInputPersisted(TurnOf(), old(Now()))
    {
      if "raw_message" !in state {
        return Some(PC.KeyErrorText("raw_message"));
      }
      if "input_source" !in state {
        return Some(PC.KeyErrorText("input_source"));
      }
      var _ := PC.PersistUserMessage(db, sessionId, userId, TextOf(state["raw_message"]), TextOf(state["input_source"]), None);
      err := None;
    }

    method Cleanup()
      modifies db
      ensures Now() == old(Now()).(tables := StatusSet(old(db.Snapshot()), sessionId, SS.IdleStatus))
    {
      var _ := SS.UpdateAgentStatus(db, sessionId, SS.IdleStatus);
    }

    /** The try block of `stream`: the steps in order, up to the first that raises. */
    method Attempt(events: seq<GraphEvent>, checkpoint: map<string, Json>) returns (err: Option<string>)
      modifies this, ctx, db
      ensures (Now(), err) == Attempted(TurnOf(), old(Now()), events, checkpoint)
    {
      Initialize();
      ghost var r0 := Now();
      err := PersistUserInput();
      if err.Some? {
        return;
      }
      ghost var r1 := Now();
      assert UserInputPersisted(TurnOf(), r0) == (r1, None);
      err := ProcessEvents(events);
      assert Prepared(TurnOf(), old(Now()), events) == (Now(), err);
      if err.Some? {
        return;
      }
      err := Finalize(checkpoint);
    }

    /** `stream`: the whole turn, given the graph's events and its checkpointed final state. */
    method Stream(events: seq<GraphEvent>, checkpoint: map<string, Json>)
      modifies this, ctx, db
      ensures Now() == Streamed(TurnOf(), old(Now()), events, checkpoint)
    {
      var err := Attempt(events, checkpoint);
      if err.Some? {
        sent := sent + [Send.Error(StreamErrorText(err.value))];
      }
      Cleanup();
    }
  }
}
