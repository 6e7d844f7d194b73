/**
 * What the WebSocket route guarantees: the registry keeps one socket per
 * session; a malformed request is answered with one error and runs
 * nothing; the turn context is the session's newest document and its
 * topics; the built state carries no roadmap, so routing never sees one;
 * the in-route handlers keep the store invariants and forward exactly the
 * content_agent tokens; an error result drops the placeholder and ends
 * without "done"; a successful turn sends its results in a fixed order
 * with "done" last, and the background tasks start only after it.
 */
module WebSocketRouteFacts {
  import opened Wrappers
  import opened Json
  import opened Store
  import opened WebSocketEventHandler
  import opened AgentStreamingService
  import opened AgentStreamingFacts
  import opened WebSocketRoute
  import Send = MessageSender
  import PC = PersistenceCoordinator
  import SS = SessionService
  import MS = MessageService
  import DS = DocumentService
  import Route

  // ---------------------------------------------------------------------
  // Connections
  // ---------------------------------------------------------------------

  /**
   * After a disconnect the session has no socket, every other session
   * keeps its own, nothing is added, and disconnecting again changes
   * nothing; a session that was not registered leaves the registry as it is.
   */
  lemma DisconnectedFacts(active: map<string, Socket>, sessionId: string)
    ensures var d := Disconnected(active, sessionId);
      && sessionId !in d
      && (forall k | k in active && k != sessionId :: k in d && d[k] == active[k])
      && (forall k | k in d :: k in active)
      && Disconnected(d, sessionId) == d
      && (sessionId !in active ==> d == active)
  {
  }

  /** A connect replaces the session's socket, so its disconnect leaves the registry as if the session had never connected. */
  lemma ReconnectReplaces(active: map<string, Socket>, sessionId: string, ws: Socket)
    ensures var c := active[sessionId := ws];
      && c[sessionId] == ws
      && (forall k | k in active && k != sessionId :: k in c && c[k] == active[k])
      && Disconnected(c, sessionId) == Disconnected(active, sessionId)
  {
    var c := active[sessionId := ws];
    assert Disconnected(c, sessionId).Keys == Disconnected(active, sessionId).Keys;
  }

  // ---------------------------------------------------------------------
  // The request and the turn state
  // ---------------------------------------------------------------------

  /**
   * A text that does not parse gets exactly one error payload, its
   * message the parser's text after "Invalid request format: ", at the top
   * level; the store is untouched and no task starts.
   */
  lemma MalformedRequestAnswered(sessionId: string, w: Wire, text: string, loads: bool, parse: RequestParser, g: Graph)
    requires parse(text).Err?
    ensures var w' := Received(sessionId, w, text, loads, parse, g);
      && w'.tables == w.tables && w'.launched == w.launched
      && |w'.sent| == |w.sent| + 1 && w'.sent[..|w.sent|] == w.sent
      && var p := w'.sent[|w.sent|];
      && Send.EventType(p) == Some("error") && Send.EventData(p).None?
      && p.fields["message"] == JStr(InvalidRequestPrefix + parse(text).message)
  {
    PrefixAppend(w.sent, [TopLevel("error", JStr(InvalidRequestPrefix + parse(text).message))]);
  }

  /**
   * One received text keeps every store invariant and the set of
   * sessions, appends at least one payload to what the connection sent,
   * only appends background tasks, and leaves the connection's session
   * idle once a request was served.
   */
  lemma ReceivedKeeps(sessionId: string, w: Wire, text: string, loads: bool, parse: RequestParser, g: Graph)
    requires TablesOk(w.tables)
    ensures var w' := Received(sessionId, w, text, loads, parse, g);
      && Keeps(w.tables, w'.tables)
      && |w'.sent| > |w.sent| && w'.sent[..|w.sent|] == w.sent
      && |w'.launched| >= |w.launched| && w'.launched[..|w.launched|] == w.launched
      && (parse(text).Ok? && sessionId in w.tables.sessions ==> w'.tables.sessions[sessionId].agentStatus == SS.IdleStatus)
  {
    match parse(text)
    case Err(e) =>
      MalformedRequestAnswered(sessionId, w, text, loads, parse, g);
    case Ok(req) =>
      var state := BuiltState(req, sessionId, ContextLoaded(w.tables, sessionId, loads));
      RouteStreamedFacts(Turn(sessionId, DefaultUserId), Run(state, FreshCtx, w.sent, w.tables), g.events(state), g.invoke(state));
      var ls := RouteStreamed(Turn(sessionId, DefaultUserId), Run(state, FreshCtx, w.sent, w.tables), g.events(state), g.invoke(state)).1;
      PrefixAppend(w.launched, ls);
  }

  /**
   * The receive loop keeps every store invariant and the set of sessions,
   * answers every text with at least one payload, and never takes back a
   * payload or a started task.
   */
  lemma {:induction false} ServedKeeps(sessionId: string, w: Wire, texts: seq<string>, n: nat, loads: nat -> bool,
                                       parse: RequestParser, g: Graph)
    requires TablesOk(w.tables)
    ensures var w' := Served(sessionId, w, texts, n, loads, parse, g);
      && Keeps(w.tables, w'.tables)
      && |w'.sent| >= |w.sent| + |texts| && w'.sent[..|w.sent|] == w.sent
      && |w'.launched| >= |w.launched| && w'.launched[..|w.launched|] == w.launched
    decreases |texts|
  {
    if texts != [] {
      var w1 := Received(sessionId, w, texts[0], loads(n), parse, g);
      ReceivedKeeps(sessionId, w, texts[0], loads(n), parse, g);
      ServedKeeps(sessionId, w1, texts[1..], n + 1, loads, parse, g);
      var w' := Served(sessionId, w1, texts[1..], n + 1, loads, parse, g);
      PrefixTrans(w.sent, w1.sent, w'.sent);
      PrefixTrans(w.launched, w1.launched, w'.launched);
    }
  }

  /**
   * The context of a turn. When the read fails or the session has no
   * document it is empty. Otherwise the current document is the first one
   * listed, which is the newest created of the session; the recent ids are
   * the first ten listed; the topics are those of every listed document,
   * in order.
   */
  lemma ContextFacts(t: Tables, sessionId: string, loads: bool)
    requires DocumentsOk(t.documents, t.nextDocumentId, t.clock)
    ensures var l := DS.ListSessionDocuments(t, sessionId);
      var c := ContextLoaded(t, sessionId, loads);
      && (c == NoContext <==> !loads || forall id | id in t.documents :: t.documents[id].sessionId != sessionId)
      && (loads && l != [] ==>
            && l[0] in t.documents && t.documents[l[0]].sessionId == sessionId
            && c.currentDocId == JInt(l[0]) && c.currentDoc == DocumentView(l[0], t.documents[l[0]])
            && (forall id | id in t.documents && t.documents[id].sessionId == sessionId && id != l[0] ::
                  t.documents[id].createdAt < t.documents[l[0]].createdAt)
            && |c.recentDocs| == (if |l| < RecentLimit then |l| else RecentLimit) && c.recentDocs == l[..|c.recentDocs|]
            && |c.learnedTopics| == |l|
            && (forall i | 0 <= i < |l| :: l[i] in t.documents && c.learnedTopics[i] == t.documents[l[i]].topic))
  {
    var l := DS.ListSessionDocuments(t, sessionId);
    DS.ListSessionDocumentsNewestFirst(t, sessionId);
    if l != [] {
      forall id | id in t.documents && t.documents[id].sessionId == sessionId && id != l[0]
        ensures t.documents[id].createdAt < t.documents[l[0]].createdAt
      {
        var j :| 0 <= j < |l| && l[j] == id;
      }
    }
  }

  lemma RequestFieldsFacts(req: ChatRequest, sessionId: string)
    ensures var m := RequestFields(req, sessionId);
      && "current_roadmap" !in m && "available_docs" !in m
      && m["raw_message"] == JStr(req.message) && m["user_id"] == JInt(DefaultUserId) && m["session_id"] == JStr(sessionId)
  {
  }

  lemma ContextFieldsFacts(c: TurnContext)
    ensures var m := ContextFields(c);
      && "current_roadmap" !in m && "available_docs" !in m
      && "raw_message" !in m && "user_id" !in m && "intent" !in m && "routing_decision" !in m && "error" !in m
      && m["user_level"] == JStr(BeginnerLevel) && m["document"] == c.currentDoc && m["current_doc_id"] == c.currentDocId
  {
  }

  lemma FreshFieldsFacts()
    ensures var m := FreshFields;
      && "current_roadmap" !in m && "available_docs" !in m
      && "raw_message" !in m && "user_id" !in m && "user_level" !in m && "document" !in m && "current_doc_id" !in m
      && m["intent"] == JNull && m["routing_decision"] == JNull && m["error"] == JNull
  {
  }

  /**
   * The built state: user 1 at beginner level, no intent, routing decision
   * or error yet, and the loaded document; there is no roadmap key and no
   * document list.
   */
  lemma BuiltStateFacts(req: ChatRequest, sessionId: string, c: TurnContext)
    ensures var state := BuiltState(req, sessionId, c);
      && "current_roadmap" !in state && "available_docs" !in state
      && "raw_message" in state && state["raw_message"] == JStr(req.message)
      && "user_id" in state && state["user_id"] == JInt(DefaultUserId)
      && "user_level" in state && state["user_level"] == JStr(BeginnerLevel)
      && "intent" in state && state["intent"] == JNull
      && "routing_decision" in state && state["routing_decision"] == JNull
      && "error" in state && state["error"] == JNull
      && "document" in state && state["document"] == c.currentDoc
      && "current_doc_id" in state && state["current_doc_id"] == c.currentDocId
  {
    RequestFieldsFacts(req, sessionId);
    ContextFieldsFacts(c);
    FreshFieldsFacts();
  }

  /**
   * With no roadmap key in the state the router always sees `has_roadmap`
   * false and the summary "无", no intent yet, and the raw message; the
   * document title is the raw message.
   */
  lemma BuiltStateHasNoRoadmap(req: ChatRequest, sessionId: string, c: TurnContext)
    ensures var state := BuiltState(req, sessionId, c);
      && Route.BuildDecisionContext(state) == Some(Route.DecisionContext(JStr(req.message), EmptyObj, JNull, false, "无"))
      && RouteTitle(state) == Ok(JStr(req.message))
  {
    BuiltStateFacts(req, sessionId, c);
    NoRoadmapRouted(BuiltState(req, sessionId, c), req.message);
  }

  /** What the router and the title read from a state with those entries. */
  lemma NoRoadmapRouted(state: map<string, Json>, message: string)
    requires "current_roadmap" !in state && "raw_message" in state && state["raw_message"] == JStr(message)
    requires "intent" in state && state["intent"] == JNull && "routing_decision" in state && state["routing_decision"] == JNull
    ensures Route.BuildDecisionContext(state) == Some(Route.DecisionContext(JStr(message), EmptyObj, JNull, false, "无"))
    ensures RouteTitle(state) == Ok(JStr(message))
  {
  }

  // ---------------------------------------------------------------------
  // The event handlers
  // ---------------------------------------------------------------------

  /** The route forwards a stream event exactly when the stream service does, with the same run afterwards. */
  lemma RouteForwardsSameTokens(r: Run, ev: GraphEvent)
    ensures RouteForwards(ev) <==> IsDocumentToken(ev)
    ensures RouteTokenStreamed(r, ev) == ChatModelStreamed(r, ev)
  {
    if Lookup(ev.metadata, "langgraph_node", JStr("")) == JStr(ContentAgent) {
      assert "langgraph_node" in ev.metadata;
      assert Lookup(ev.metadata, "langgraph_node", JNull) != JStr(PostProcess);
    }
  }

  /**
   * A chain start sends node_start. The first content_agent start, when
   * the title can be read, then sends document_start with the title and
   * appends one placeholder card whose id becomes the run's; any other
   * start changes nothing else.
   */
  lemma RouteChainStartedPlaceholder(u: Turn, r: Run, ev: GraphEvent)
    requires TablesOk(r.tables)
    ensures var (r', e) := RouteChainStarted(u, r, ev);
      var node := LastSegment(ev.name);
      if node == ContentAgent && r.ctx.placeholderMessageId.None? && RouteTitle(r.state).Ok? then
        && e.None?
        && r'.sent == r.sent + [Send.NodeStart(node, JNull), Send.DocumentStart(RouteTitle(r.state).value)]
        && |r'.tables.messages| == |r.tables.messages| + 1 && r'.tables.messages[..|r.tables.messages|] == r.tables.messages
        && var m := r'.tables.messages[|r.tables.messages|];
        && m.role == MS.AssistantRole && m.messageType == PC.DocumentCardType && m.content == PC.PlaceholderContent
        && m.sessionId == u.sessionId && m.relatedDocumentId.None?
        && r'.ctx == r.ctx.(placeholderMessageId := Some(m.id)) && PC.HasMessageId(Some(m.id))
      else
        && r' == Emit(r, Send.NodeStart(node, JNull))
        && (e.Some? <==> node == ContentAgent && r.ctx.placeholderMessageId.None?)
  {
    var node := LastSegment(ev.name);
    if node == ContentAgent && r.ctx.placeholderMessageId.None? && RouteTitle(r.state).Ok? {
      MS.SavedOk(r.tables, u.sessionId, u.userId, MS.AssistantRole, PC.PlaceholderContent, PC.DocumentCardType, None, JNull, JNull, 0);
      var t' := RouteChainStarted(u, r, ev).0.tables;
      var m := t'.messages[|r.tables.messages|];
      assert t'.messages == r.tables.messages + [m];
    }
  }

  lemma RouteChainStartedSound(u: Turn, r: Run, ev: GraphEvent)
    requires TablesOk(r.tables)
    ensures Sound(r, RouteChainStarted(u, r, ev).0)
  {
    var node := LastSegment(ev.name);
    RouteChainStartedShape(u, r, ev);
    if node == ContentAgent && r.ctx.placeholderMessageId.None? && RouteTitle(r.state).Ok? {
      SavedKeeps(r.tables, u.sessionId, u.userId, MS.AssistantRole, PC.PlaceholderContent, PC.DocumentCardType, None, JNull, JNull);
      var ps := [Send.NodeStart(node, JNull), Send.DocumentStart(RouteTitle(r.state).value)];
      TokenTextPlain(r.sent, ps);
      PrefixAppend(r.sent, ps);
    } else {
      EmitPlain(r, Send.NodeStart(node, JNull));
    }
  }

  lemma RouteChainStartedShape(u: Turn, r: Run, ev: GraphEvent)
    ensures var node := LastSegment(ev.name);
      var r' := RouteChainStarted(u, r, ev).0;
      if node == ContentAgent && r.ctx.placeholderMessageId.None? && RouteTitle(r.state).Ok? then
        var (t, m) := PC.PlaceholderCreated(r.tables, u.sessionId, u.userId);
        && r'.sent == r.sent + [Send.NodeStart(node, JNull), Send.DocumentStart(RouteTitle(r.state).value)]
        && r'.tables == t && r'.ctx == r.ctx.(placeholderMessageId := Some(m.id))
      else r' == Emit(r, Send.NodeStart(node, JNull))
  {
  }

  lemma RouteTokenStreamedSound(r: Run, ev: GraphEvent)
    requires TablesOk(r.tables)
    ensures Sound(r, RouteTokenStreamed(r, ev))
  {
    RouteForwardsSameTokens(r, ev);
    ChatModelStreamedSound(r, ev);
  }

  /** Every handler of the route keeps the store invariants, only appends, never sends "done", and keeps the text equal to the tokens sent. */
  lemma RouteEventSound(u: Turn, r: Run, ev: GraphEvent)
    requires TablesOk(r.tables)
    ensures Sound(r, RouteEvent(u, r, ev).0)
  {
    if ev.kind == "on_chain_start" {
      RouteChainStartedSound(u, r, ev);
    } else if ev.kind == "on_chain_end" {
      var r1 := Emit(r, Send.NodeEnd(LastSegment(ev.name)));
      EmitPlain(r, Send.NodeEnd(LastSegment(ev.name)));
      StepSound(r, RouteChainEnded(r, ev), [Send.NodeEnd(LastSegment(ev.name))]);
    } else if ev.kind == "on_chat_model_start" {
      EmitPlain(r, ModelStart(Lookup(ev.data, "model", JNull)));
    } else if ev.kind == "on_chat_model_stream" {
      RouteTokenStreamedSound(r, ev);
    } else if ev.kind == "on_chat_model_end" {
      EmitPlain(r, Send.NodeEnd(LlmName));
    } else if ev.kind == "on_tool_start" {
      EmitPlain(r, Send.ToolStart(LastSegment(ev.name), PyStr(Lookup(ev.data, "input", EmptyObj))));
    } else if ev.kind == "on_tool_end" {
      EmitPlain(r, ToolEndPayload(LastSegment(ev.name), Lookup(ev.data, "output", JStr(""))));
    } else if ev.kind == "on_tool_error" {
      EmitPlain(r, TopLevel("error", JStr(ToolErrorText(LastSegment(ev.name), Lookup(ev.data, "error", JStr(UnknownError))))));
    } else {
      SoundRefl(r);
    }
  }

  /** The event loop is sound as a whole, whether or not a handler raised. */
  lemma {:induction false} RouteEventsSound(u: Turn, r: Run, events: seq<GraphEvent>)
    requires TablesOk(r.tables)
    ensures Sound(r, RouteEvents(u, r, events).0)
    decreases |events|
  {
    if events == [] {
      SoundRefl(r);
    } else {
      var (r1, e) := RouteEvent(u, r, events[0]);
      RouteEventSound(u, r, events[0]);
      if e.None? {
        RouteEventsSound(u, r1, events[1..]);
        SoundTrans(r, r1, RouteEvents(u, r1, events[1..]).0);
      }
    }
  }

  lemma RouteEventTokens(u: Turn, r: Run, ev: GraphEvent)
    ensures RouteEvent(u, r, ev).0.ctx.accumulatedContent == r.ctx.accumulatedContent + TokenOf(ev)
  {
    RouteForwardsSameTokens(r, ev);
  }

  /**
   * When no handler raises, the streamed text grows by exactly the
   * content_agent chunks of the stream, in order: the text the stream
   * service accumulates from the same events.
   */
  lemma {:induction false} RouteEventsAccumulate(u: Turn, r: Run, events: seq<GraphEvent>)
    ensures RouteEvents(u, r, events).1.None? ==>
      RouteEvents(u, r, events).0.ctx.accumulatedContent == r.ctx.accumulatedContent + StreamTokens(events)
    decreases |events|
  {
    if events != [] {
      var (r1, e) := RouteEvent(u, r, events[0]);
      RouteEventTokens(u, r, events[0]);
      if e.None? {
        RouteEventsAccumulate(u, r1, events[1..]);
      }
    }
  }

  /** Only a content_agent start without a placeholder changes the placeholder. */
  lemma RouteOnlyContentAgentStartCreates(u: Turn, r: Run, ev: GraphEvent)
    ensures RouteEvent(u, r, ev).0.ctx.placeholderMessageId != r.ctx.placeholderMessageId ==>
      && ev.kind == "on_chain_start"
      && LastSegment(ev.name) == ContentAgent
      && r.ctx.placeholderMessageId.None?
  {
  }

  /**
   * Over the whole stream the placeholder is created at most once: it
   * changes only from none to a real message id, only if some event is a
   * content_agent start, and once set it is never replaced.
   */
  lemma {:induction false} RoutePlaceholderAtMostOnce(u: Turn, r: Run, events: seq<GraphEvent>)
    requires TablesOk(r.tables)
    ensures var r' := RouteEvents(u, r, events).0;
      r'.ctx.placeholderMessageId != r.ctx.placeholderMessageId ==>
        && r.ctx.placeholderMessageId.None?
        && PC.HasMessageId(r'.ctx.placeholderMessageId)
        && exists i | 0 <= i < |events| :: events[i].kind == "on_chain_start" && LastSegment(events[i].name) == ContentAgent
    ensures r.ctx.placeholderMessageId.Some? ==>
      RouteEvents(u, r, events).0.ctx.placeholderMessageId == r.ctx.placeholderMessageId
    decreases |events|
  {
    if events != [] {
      var (r1, e) := RouteEvent(u, r, events[0]);
      RouteOnlyContentAgentStartCreates(u, r, events[0]);
      RouteEventSound(u, r, events[0]);
      if e.None? {
        RoutePlaceholderAtMostOnce(u, r1, events[1..]);
        var r' := RouteEvents(u, r1, events[1..]).0;
        if r'.ctx.placeholderMessageId != r.ctx.placeholderMessageId && r1.ctx.placeholderMessageId == r.ctx.placeholderMessageId {
          var i :| 0 <= i < |events[1..]| && events[1..][i].kind == "on_chain_start" && LastSegment(events[1..][i].name) == ContentAgent;
          assert events[i + 1] == events[1..][i];
        }
      }
    }
  }

  /**
   * The two copies' payloads differ: the route's LLM start always carries
   * "model", even `None`, where the sender drops a falsy one; and its
   * tool_end is "" for any falsy output, where the service sends the text
   * of a falsy value such as `False`.
   */
  lemma RoutePayloadsDiffer(tool: string)
    ensures ModelStart(JNull) != Send.NodeStart(LlmName, JNull)
    ensures Send.DataField(ModelStart(JNull), "model") == Some(JNull)
    ensures ToolEndPayload(tool, JBool(false)) != Send.ToolEnd(tool, PyStr(JBool(false)))
  {
    assert Send.DataField(Send.NodeStart(LlmName, JNull), "model") == None;
    assert Send.DataField(ToolEndPayload(tool, JBool(false)), "output") == Some(JStr(""));
    assert Send.DataField(Send.ToolEnd(tool, "False"), "output") == Some(JStr(Text.Take("False", Send.ToolCut)));
  }

  // ---------------------------------------------------------------------
  // The document block
  // ---------------------------------------------------------------------

  /**
   * Completing a card in place: no message is added or removed, the one
   * with that id gets the text and the document link, and every table
   * invariant holds.
   */
  lemma CardCompletedKeeps(t: Tables, messageId: int, text: string, docId: int)
    requires TablesOk(t)
    ensures var t' := MS.MessageDocumentUpdated(MS.MessageContentUpdated(t, messageId, text), messageId, docId);
      && Keeps(t, t') && t' == t.(messages := t'.messages)
      && |t'.messages| == |t.messages|
      && forall i | 0 <= i < |t.messages| ::
           t'.messages[i] == if t.messages[i].id == messageId then t.messages[i].(content := text, relatedDocumentId := Some(docId))
                             else t.messages[i]
  {
    var t1 := MS.MessageContentUpdated(t, messageId, text);
    var t' := MS.MessageDocumentUpdated(t1, messageId, docId);
    assert forall i | 0 <= i < |t.messages| :: t'.messages[i].id == t.messages[i].id && t'.messages[i].timestamp == t.messages[i].timestamp;
    assert MessageTableOk(t'.messages, t'.nextMessageId, t'.clock);
  }

  /**
   * An update of the document block fails exactly when the dict has no
   * "content" (a `KeyError`), an id that names no stored document, a
   * content that is None, a list or a dict, or when the result's change
   * summary is a list or a dict.
   */
  lemma DocumentWrittenFails(u: Turn, t: Tables, rs: map<string, Json>, f: map<string, Json>)
    requires PC.IsUpdate(f)
    ensures var w := DocumentWritten(u, t, rs, f);
      var summary := Lookup(rs, "change_summary", JStr(PC.DefaultChangeSummary));
      && (w.Err? <==> "content" !in f || PC.DocKey(f["id"]).None? || PC.DocKey(f["id"]).value !in t.documents
                      || !Bindable(f["content"]) || f["content"].JNull? || !Bindable(summary))
      && ("content" !in f ==> w == Err(PC.KeyErrorText("content")))
  {
    if "content" in f && PC.DocKey(f["id"]).Some? {
      var id := PC.DocKey(f["id"]).value;
      DS.UpdatedOk(t, id, f["content"], Lookup(rs, "change_summary", JStr(PC.DefaultChangeSummary)), "updated");
    }
  }

  /** A successful write keeps the store invariants and names a stored document. */
  lemma DocumentWrittenKeeps(u: Turn, t: Tables, rs: map<string, Json>, f: map<string, Json>)
    requires TablesOk(t)
    ensures var w := DocumentWritten(u, t, rs, f);
      w.Ok? ==> Keeps(t, w.value.0) && w.value.1 in w.value.0.documents && w.value.0.sessions == t.sessions
  {
    if PC.IsUpdate(f) {
      if "content" in f && PC.DocKey(f["id"]).Some? {
        var id := PC.DocKey(f["id"]).value;
        var summary := Lookup(rs, "change_summary", JStr(PC.DefaultChangeSummary));
        DS.UpdatedOk(t, id, f["content"], summary, "updated");
        DS.UpdatedKeepsTables(t, id, f["content"], summary, "updated");
      }
    } else {
      DS.CreatedOk(t, NewDocumentOf(u, rs, f));
    }
  }

  /**
   * An update bumps that document's version, replaces its content with
   * the dict's, keeps everything else about it, and appends one history
   * row with the result's change summary: "更新" when the key is absent,
   * NULL when it holds None, its text otherwise.
   */
  lemma DocumentWrittenUpdates(u: Turn, t: Tables, rs: map<string, Json>, f: map<string, Json>)
    requires PC.IsUpdate(f) && DocumentWritten(u, t, rs, f).Ok?
    ensures var (t', id) := DocumentWritten(u, t, rs, f).value;
      && f["id"] == JInt(id) && id in t.documents
      && t'.documents[id] == t.documents[id].(content := PyStr(f["content"]), version := t.documents[id].version + 1,
                                               updatedAt := t.clock)
      && t'.versions == t.versions + [VersionRow(id, t.documents[id].version + 1, PyStr(f["content"]),
                                                 if "change_summary" !in rs then Some(PC.DefaultChangeSummary)
                                                 else if rs["change_summary"].JNull? then None
                                                 else Some(PyStr(rs["change_summary"])), "updated")]
  {
    var id := PC.DocKey(f["id"]).value;
    DS.UpdatedOk(t, id, f["content"], Lookup(rs, "change_summary", JStr(PC.DefaultChangeSummary)), "updated");
  }

  /**
   * Without a truthy id a new document is created at version 1 with the
   * dict's topic and content (default "") and no parent. The flush fails
   * exactly when the topic or the content is None, a list or a dict, or
   * the category path is a list or a dict.
   */
  lemma DocumentWrittenCreates(u: Turn, t: Tables, rs: map<string, Json>, f: map<string, Json>)
    requires TablesOk(t) && !PC.IsUpdate(f)
    ensures var topic := Lookup(f, "topic", JStr(""));
      var content := Lookup(f, "content", JStr(""));
      DocumentWritten(u, t, rs, f).Ok? <==>
        Bindable(topic) && Bindable(content) && Bindable(Lookup(f, "category_path", JNull)) && !topic.JNull? && !content.JNull?
    ensures DocumentWritten(u, t, rs, f).Ok? ==>
      var (t', id) := DocumentWritten(u, t, rs, f).value;
      && id !in t.documents && t'.documents[id].version == 1
      && t'.documents[id].topic == PyStr(Lookup(f, "topic", JStr("")))
      && t'.documents[id].content == PyStr(Lookup(f, "content", JStr("")))
      && t'.documents[id].sessionId == u.sessionId && t'.documents[id].parentDocumentId == JNull
  {
    DS.CreatedOk(t, NewDocumentOf(u, rs, f));
  }

  /**
   * The content of the document_ref message, the result's "change_summary"
   * ("" only when the key is absent), cannot be stored: it is None, a list
   * or a dict.
   */
  predicate RefRejected(rs: map<string, Json>) {
    var summary := Lookup(rs, "change_summary", JStr(""));
    !Bindable(summary) || summary.JNull?
  }

  /**
   * The chat side of the document block fails exactly when the result's
   * change summary cannot be stored, with the NOT NULL error when it is
   * None. Otherwise it appends the document_ref message with that summary,
   * then completes the placeholder or appends a completed card; it changes
   * no document and keeps every invariant.
   */
  lemma DocumentFiledKeeps(u: Turn, t: Tables, rs: map<string, Json>, f: map<string, Json>, placeholder: Option<int>, id: int)
    requires TablesOk(t)
    ensures DocumentFiled(u, t, rs, f, placeholder, id).Err? <==> RefRejected(rs)
    ensures Lookup(rs, "change_summary", JStr("")).JNull? ==>
      DocumentFiled(u, t, rs, f, placeholder, id) == Err(NotNullError("messages.content"))
    ensures DocumentFiled(u, t, rs, f, placeholder, id).Ok? ==>
      var t' := DocumentFiled(u, t, rs, f, placeholder, id).value;
      && Keeps(t, t') && t'.documents == t.documents && t'.versions == t.versions && t'.sessions == t.sessions
      && |t'.messages| > |t.messages|
      && t'.messages[|t.messages|].messageType == DocumentRefType
      && (!PC.HasMessageId(placeholder) || placeholder.value != t.nextMessageId ==>
            t'.messages[|t.messages|].content == PyStr(Lookup(rs, "change_summary", JStr(""))))
      && (forall i | 0 <= i < |t.messages| && (!PC.HasMessageId(placeholder) || t.messages[i].id != placeholder.value) ::
            t'.messages[i] == t.messages[i])
      && (PC.HasMessageId(placeholder) ==>
            && |t'.messages| == |t.messages| + 1
            && forall i | 0 <= i < |t.messages| && t.messages[i].id == placeholder.value ::
                 t'.messages[i] == t.messages[i].(content := RouteCompletionText(f), relatedDocumentId := Some(id)))
      && (!PC.HasMessageId(placeholder) ==>
            && |t'.messages| == |t.messages| + 2
            && var m := t'.messages[|t.messages| + 1];
            && m.messageType == PC.DocumentCardType && m.content == RouteCompletionText(f) && m.relatedDocumentId == Some(id))
  {
    DocumentFiledOutcome(u, t, rs, f, placeholder, id);
    if !RefRejected(rs) {
      if PC.HasMessageId(placeholder) {
        DocumentFiledCompletes(u, t, rs, f, placeholder, id);
      } else {
        DocumentFiledAppends(u, t, rs, f, placeholder, id);
      }
    }
  }

  lemma DocumentFiledOutcome(u: Turn, t: Tables, rs: map<string, Json>, f: map<string, Json>, placeholder: Option<int>, id: int)
    ensures DocumentFiled(u, t, rs, f, placeholder, id).Err? <==> RefRejected(rs)
    ensures Lookup(rs, "change_summary", JStr("")).JNull? ==>
      DocumentFiled(u, t, rs, f, placeholder, id) == Err(NotNullError("messages.content"))
  {
    MS.MessageColumnsFacts(Lookup(rs, "change_summary", JStr("")), JStr(DocumentRefType), JInt(id));
  }

  lemma DocumentFiledCompletes(u: Turn, t: Tables, rs: map<string, Json>, f: map<string, Json>, placeholder: Option<int>, id: int)
    requires TablesOk(t) && !RefRejected(rs) && PC.HasMessageId(placeholder)
    ensures DocumentFiled(u, t, rs, f, placeholder, id).Ok?
    ensures var t' := DocumentFiled(u, t, rs, f, placeholder, id).value;
      && Keeps(t, t') && t'.documents == t.documents && t'.versions == t.versions && t'.sessions == t.sessions
      && |t'.messages| == |t.messages| + 1
      && t'.messages[|t.messages|].messageType == DocumentRefType
      && (placeholder.value != t.nextMessageId ==>
            t'.messages[|t.messages|].content == PyStr(Lookup(rs, "change_summary", JStr(""))))
      && (forall i | 0 <= i < |t.messages| && t.messages[i].id != placeholder.value :: t'.messages[i] == t.messages[i])
      && (forall i | 0 <= i < |t.messages| && t.messages[i].id == placeholder.value ::
            t'.messages[i] == t.messages[i].(content := RouteCompletionText(f), relatedDocumentId := Some(id)))
  {
    var raw := Lookup(rs, "change_summary", JStr(""));
    MS.MessageColumnsFacts(raw, JStr(DocumentRefType), JInt(id));
    var summary := PyStr(raw);
    MS.SavedOk(t, u.sessionId, u.userId, MS.AssistantRole, summary, DocumentRefType, Some(id),
               Lookup(rs, "intent", JNull), Lookup(rs, "routing_decision", JNull), 0);
    var (t1, ref) := MS.Saved(t, u.sessionId, u.userId, MS.AssistantRole, summary, DocumentRefType, Some(id),
                              Lookup(rs, "intent", JNull), Lookup(rs, "routing_decision", JNull), 0);
    CardCompletedKeeps(t1, placeholder.value, RouteCompletionText(f), id);
    assert t1.messages[|t.messages|].id == t.nextMessageId;
  }

  lemma DocumentFiledAppends(u: Turn, t: Tables, rs: map<string, Json>, f: map<string, Json>, placeholder: Option<int>, id: int)
    requires TablesOk(t) && !RefRejected(rs) && !PC.HasMessageId(placeholder)
    ensures DocumentFiled(u, t, rs, f, placeholder, id).Ok?
    ensures var t' := DocumentFiled(u, t, rs, f, placeholder, id).value;
      && Keeps(t, t') && t'.documents == t.documents && t'.versions == t.versions && t'.sessions == t.sessions
      && |t'.messages| == |t.messages| + 2
      && t'.messages[|t.messages|].messageType == DocumentRefType
      && t'.messages[|t.messages|].content == PyStr(Lookup(rs, "change_summary", JStr("")))
      && (forall i | 0 <= i < |t.messages| :: t'.messages[i] == t.messages[i])
      && var m := t'.messages[|t.messages| + 1];
      && m.messageType == PC.DocumentCardType && m.content == RouteCompletionText(f) && m.relatedDocumentId == Some(id)
  {
    var raw := Lookup(rs, "change_summary", JStr(""));
    MS.MessageColumnsFacts(raw, JStr(DocumentRefType), JInt(id));
    var summary := PyStr(raw);
    MS.SavedOk(t, u.sessionId, u.userId, MS.AssistantRole, summary, DocumentRefType, Some(id),
               Lookup(rs, "intent", JNull), Lookup(rs, "routing_decision", JNull), 0);
    var (t1, ref) := MS.Saved(t, u.sessionId, u.userId, MS.AssistantRole, summary, DocumentRefType, Some(id),
                              Lookup(rs, "intent", JNull), Lookup(rs, "routing_decision", JNull), 0);
    MS.SavedOk(t1, u.sessionId, u.userId, MS.AssistantRole, RouteCompletionText(f), PC.DocumentCardType, Some(id), JNull, JNull, 0);
  }

  /**
   * The document transaction fails exactly when the write fails, the
   * session does not exist or the document_ref message cannot be stored,
   * and then nothing is kept; a None change summary fails it with the
   * NOT NULL error once the write and the pin succeed. Otherwise the
   * document is stored and pinned as the session's current document, and
   * the store invariants hold.
   */
  lemma DocumentTransactionFacts(u: Turn, t: Tables, rs: map<string, Json>, f: map<string, Json>, placeholder: Option<int>)
    requires TablesOk(t)
    ensures var x := DocumentTransaction(u, t, rs, f, placeholder);
      && (x.Err? <==> DocumentWritten(u, t, rs, f).Err? || u.sessionId !in t.sessions || RefRejected(rs))
      && (DocumentWritten(u, t, rs, f).Ok? && u.sessionId in t.sessions && Lookup(rs, "change_summary", JStr("")).JNull? ==>
            x == Err(NotNullError("messages.content")))
      && (x.Ok? ==>
            && DocumentWritten(u, t, rs, f).Ok? && x.value.1 == DocumentWritten(u, t, rs, f).value.1
            && Keeps(t, x.value.0)
            && x.value.0.documents == DocumentWritten(u, t, rs, f).value.0.documents
            && x.value.0.versions == DocumentWritten(u, t, rs, f).value.0.versions
            && x.value.0.sessions[u.sessionId].currentDocumentId == Some(x.value.1))
  {
    DocumentWrittenKeeps(u, t, rs, f);
    var w := DocumentWritten(u, t, rs, f);
    if w.Ok? {
      var (t1, id) := w.value;
      SS.CurrentDocumentEffect(t1, u.sessionId, id);
      var c := SS.CurrentDocumentUpdated(t1, u.sessionId, id);
      if c.Ok? {
        PC.SessionsOnlyKeepsTables(t1, c.value);
        DocumentFiledKeeps(u, c.value, rs, f, placeholder, id);
      }
    }
  }

  /** A transaction that succeeds keeps the store invariants and the sessions. */
  lemma DocumentTransactionKeeps(u: Turn, t: Tables, rs: map<string, Json>, f: map<string, Json>, placeholder: Option<int>)
    requires TablesOk(t)
    ensures var x := DocumentTransaction(u, t, rs, f, placeholder);
      x.Ok? ==> Keeps(t, x.value.0)
  {
    DocumentWrittenKeeps(u, t, rs, f);
    var w := DocumentWritten(u, t, rs, f);
    if w.Ok? {
      var (t1, id) := w.value;
      SS.CurrentDocumentEffect(t1, u.sessionId, id);
      var c := SS.CurrentDocumentUpdated(t1, u.sessionId, id);
      if c.Ok? {
        PC.SessionsOnlyKeepsTables(t1, c.value);
        DocumentFiledKeeps(u, c.value, rs, f, placeholder, id);
      }
    }
  }

  /**
   * The loaded current document stays in the state, so a result that
   * hands it back unchanged, with a change summary that is a string or
   * absent, rewrites it: the transaction succeeds, the document keeps its
   * content and topic but its version goes up by one, and one more
   * history row is appended. (With a None change summary the transaction
   * fails instead; see `LoadedDocumentNullSummaryFails`.)
   */
  lemma LoadedDocumentRewritten(u: Turn, t: Tables, rs: map<string, Json>, placeholder: Option<int>, id: int)
    requires TablesOk(t) && id in t.documents && u.sessionId in t.sessions
    requires "change_summary" !in rs || rs["change_summary"].JStr?
    ensures var x := DocumentTransaction(u, t, rs, DocumentView(id, t.documents[id]).fields, placeholder);
      && x.Ok? && x.value.1 == id
      && x.value.0.documents[id].version == t.documents[id].version + 1
      && x.value.0.documents[id].content == t.documents[id].content
      && x.value.0.documents[id].topic == t.documents[id].topic
      && |x.value.0.versions| == |t.versions| + 1
  {
    var f := DocumentView(id, t.documents[id]).fields;
    assert f["id"] == JInt(id) && id != 0;
    assert "content" in f && f["content"] == JStr(t.documents[id].content);
    DocumentTransactionFacts(u, t, rs, f, placeholder);
    DocumentWrittenFails(u, t, rs, f);
    DocumentWrittenUpdates(u, t, rs, f);
  }

  /**
   * A result that hands the loaded document back with a None change
   * summary, the value the built state starts with, fails the document
   * transaction: the document update itself
   * succeeds, but the document_ref message's content is NULL, so its
   * flush raises and the whole transaction is rolled back.
   */
  lemma LoadedDocumentNullSummaryFails(u: Turn, t: Tables, rs: map<string, Json>, placeholder: Option<int>, id: int)
    requires TablesOk(t) && id in t.documents && u.sessionId in t.sessions
    requires "change_summary" in rs && rs["change_summary"].JNull?
    ensures DocumentTransaction(u, t, rs, DocumentView(id, t.documents[id]).fields, placeholder) == Err(NotNullError("messages.content"))
  {
    var f := DocumentView(id, t.documents[id]).fields;
    assert f["id"] == JInt(id) && id != 0;
    assert "content" in f && f["content"] == JStr(t.documents[id].content);
    DocumentWrittenFails(u, t, rs, f);
    DocumentWrittenKeeps(u, t, rs, f);
    var (t1, written) := DocumentWritten(u, t, rs, f).value;
    SS.CurrentDocumentEffect(t1, u.sessionId, written);
    var t2 := SS.CurrentDocumentUpdated(t1, u.sessionId, written).value;
    DocumentFiledOutcome(u, t2, rs, f, placeholder, written);
  }

  // ---------------------------------------------------------------------
  // The result blocks, one by one
  // ---------------------------------------------------------------------

  /**
   * The document block raises exactly when the value is not a dict or its
   * transaction fails, and then leaves the run as it was; otherwise it
   * sends the document payload and records the stored id for the
   * background tasks.
   */
  lemma RouteDocumentHandledFacts(u: Turn, r: Run, rs: map<string, Json>, doc: Json)
    requires TablesOk(r.tables)
    ensures var (r', e) := RouteDocumentHandled(u, r, rs, doc);
      && (e.Some? <==> !doc.JObj? || DocumentTransaction(u, r.tables, rs, doc.fields, r.ctx.placeholderMessageId).Err?)
      && (e.Some? ==> r' == r)
      && (e.None? ==>
            && r'.ctx.docId.Some? && r'.ctx.docId.value in r'.tables.documents
            && |r'.sent| == |r.sent| + 1 && Send.EventType(r'.sent[|r.sent|]) == Some("document")
            && Send.DataField(r'.sent[|r.sent|], "id") == Some(JInt(r'.ctx.docId.value)))
  {
    if doc.JObj? {
      var x := DocumentTransaction(u, r.tables, rs, doc.fields, r.ctx.placeholderMessageId);
      DocumentTransactionFacts(u, r.tables, rs, doc.fields, r.ctx.placeholderMessageId);
      DocumentWrittenKeeps(u, r.tables, rs, doc.fields);
      if x.Ok? {
        var f := doc.fields;
        CardPayload(x.value.1, Lookup(f, "topic", JNull), Lookup(f, "content", JNull), Lookup(f, "category_path", JNull));
      }
    }
  }

  lemma CardPayload(id: int, topic: Json, content: Json, categoryPath: Json)
    ensures var p := Send.DocumentComplete(id, topic, content, categoryPath, EmptyArr);
      Send.EventType(p) == Some("document") && Send.DataField(p, "id") == Some(JInt(id))
  {
  }

  /** Sending the document card over a store that keeps the invariants is sound. */
  lemma CardStepSound(r: Run, t: Tables, id: int, f: map<string, Json>)
    requires Keeps(r.tables, t)
    ensures var r' := Emit(r.(tables := t, ctx := r.ctx.(docId := Some(id))),
                           Send.DocumentComplete(id, Lookup(f, "topic", JNull), Lookup(f, "content", JNull), Lookup(f, "category_path", JNull), EmptyArr));
      Sound(r, r') && r'.ctx.accumulatedContent == r.ctx.accumulatedContent && r'.state == r.state
  {
    var card := Send.DocumentComplete(id, Lookup(f, "topic", JNull), Lookup(f, "content", JNull), Lookup(f, "category_path", JNull), EmptyArr);
    assert Send.EventType(card) == Some("document");
    PlainOne(card);
    StepSound(r, Emit(r.(tables := t, ctx := r.ctx.(docId := Some(id))), card), [card]);
  }

  /** The document block is sound and leaves the state and the streamed text alone. */
  lemma RouteDocumentHandledSound(u: Turn, r: Run, rs: map<string, Json>, doc: Json)
    requires TablesOk(r.tables)
    ensures var r' := RouteDocumentHandled(u, r, rs, doc).0;
      Sound(r, r') && r'.ctx.accumulatedContent == r.ctx.accumulatedContent && r'.state == r.state
  {
    if doc.JObj? {
      var x := DocumentTransaction(u, r.tables, rs, doc.fields, r.ctx.placeholderMessageId);
      DocumentTransactionKeeps(u, r.tables, rs, doc.fields, r.ctx.placeholderMessageId);
      if x.Ok? {
        CardStepSound(r, x.value.0, x.value.1, doc.fields);
      } else {
        SoundRefl(r);
      }
    } else {
      SoundRefl(r);
    }
  }

  /**
   * The navigation block always sends the navigation payload with the
   * value as its data, and raises afterwards, recording nothing, when the
   * value is not a dict or its "message" ("" only when absent) or
   * "document_id" cannot be stored, a None message with the NOT NULL
   * error; otherwise the message is recorded as a navigation message. It
   * is sound.
   */
  lemma RouteNavigationHandledFacts(u: Turn, r: Run, nav: Json)
    requires TablesOk(r.tables)
    ensures var (r', e) := RouteNavigationHandled(u, r, nav);
      && Sound(r, r') && r'.ctx == r.ctx && r'.state == r.state
      && r'.sent == r.sent + [Send.Event("navigation", Some(nav))]
      && (!nav.JObj? ==> e == Some(NoAttribute(nav, "get")) && r'.tables == r.tables)
      && (nav.JObj? ==>
            var message := Lookup(nav.fields, "message", JStr(""));
            var target := Lookup(nav.fields, "document_id", JNull);
            && (e.Some? <==> !Bindable(message) || message.JNull? || !Bindable(target))
            && (message.JNull? && Bindable(target) ==> e == Some(NotNullError("messages.content")))
            && (e.Some? ==> r'.tables == r.tables)
            && (e.None? ==>
                  && |r'.tables.messages| == |r.tables.messages| + 1
                  && r'.tables.messages[|r.tables.messages|].messageType == NavigationType
                  && r'.tables.messages[|r.tables.messages|].content == PyStr(message)
                  && r'.tables.messages[|r.tables.messages|].relatedDocumentId == PC.DocKey(target)))
  {
    var p := Send.Event("navigation", Some(nav));
    if nav.JObj? {
      var message := Lookup(nav.fields, "message", JStr(""));
      var target := Lookup(nav.fields, "document_id", JNull);
      MS.MessageColumnsFacts(message, JStr(NavigationType), target);
      var c := MS.MessageColumns(message, JStr(NavigationType), target);
      if c.Ok? {
        var content := c.value.0;
        SavedKeeps(r.tables, u.sessionId, u.userId, MS.AssistantRole, content, NavigationType, PC.DocKey(target), JNull, JNull);
        MS.SavedOk(r.tables, u.sessionId, u.userId, MS.AssistantRole, content, NavigationType, PC.DocKey(target), JNull, JNull, 0);
        StepSound(r, RouteNavigationHandled(u, r, nav).0, [p]);
      } else {
        EmitPlain(r, p);
      }
    } else {
      EmitPlain(r, p);
    }
  }

  /**
   * The response block raises, changing nothing, when the value is not a
   * dict. Otherwise it sends its "content" as it is, then records it in
   * the chat with its "type" (default "chat") and the result's intent;
   * when the content or the type is None, a list or a dict the record
   * raises instead, a None content with the NOT NULL error, and nothing is
   * recorded. It is sound.
   */
  lemma RouteResponseHandledFacts(u: Turn, r: Run, rs: map<string, Json>, resp: Json)
    requires TablesOk(r.tables)
    ensures var (r', e) := RouteResponseHandled(u, r, rs, resp);
      && Sound(r, r') && r'.ctx == r.ctx && r'.state == r.state
      && (!resp.JObj? ==> r' == r && e == Some(NoAttribute(resp, "get")))
      && (resp.JObj? ==>
            var content := Lookup(resp.fields, "content", JStr(""));
            var kind := Lookup(resp.fields, "type", JStr(MS.ChatType));
            && r'.sent == r.sent + [Send.Event("content", Some(JObj(map["content" := content])))]
            && (e.Some? <==> !Bindable(content) || !Bindable(kind) || content.JNull? || kind.JNull?)
            && (content.JNull? && Bindable(kind) ==> e == Some(NotNullError("messages.content")))
            && (e.Some? ==> r'.tables == r.tables)
            && (e.None? ==>
                  && |r'.tables.messages| == |r.tables.messages| + 1
                  && r'.tables.messages[|r.tables.messages|].content == PyStr(content)
                  && r'.tables.messages[|r.tables.messages|].messageType == PyStr(kind)
                  && r'.tables.messages[|r.tables.messages|].agentIntent == Lookup(rs, "intent", JNull)))
  {
    if resp.JObj? {
      var content := Lookup(resp.fields, "content", JStr(""));
      var kind := Lookup(resp.fields, "type", JStr(MS.ChatType));
      var p := Send.Event("content", Some(JObj(map["content" := content])));
      MS.MessageColumnsFacts(content, kind, JNull);
      var c := MS.MessageColumns(content, kind, JNull);
      if c.Ok? {
        SavedKeeps(r.tables, u.sessionId, u.userId, MS.AssistantRole, c.value.0, c.value.1, None, Lookup(rs, "intent", JNull), JNull);
        MS.SavedOk(r.tables, u.sessionId, u.userId, MS.AssistantRole, c.value.0, c.value.1, None, Lookup(rs, "intent", JNull), JNull, 0);
        StepSound(r, RouteResponseHandled(u, r, rs, resp).0, [p]);
      } else {
        EmitPlain(r, p);
      }
    } else {
      SoundRefl(r);
    }
  }

  /**
   * An error result: the placeholder, if any, is deleted so that no
   * message with its id remains; the error value is sent as it is, at the
   * top level, as the last payload; nothing raises and no "done" is sent.
   */
  lemma RouteErrorHandledFacts(r: Run, error: Json)
    requires TablesOk(r.tables)
    ensures var r' := RouteErrorHandled(r, error);
      && Ends(r, r', None, false)
      && r'.sent == r.sent + [TopLevel("error", error)]
      && (PC.HasMessageId(r.ctx.placeholderMessageId) ==>
            forall m | m in r'.tables.messages :: m.id != r.ctx.placeholderMessageId.value)
      && (!PC.HasMessageId(r.ctx.placeholderMessageId) ==> r'.tables == r.tables)
  {
    if PC.HasMessageId(r.ctx.placeholderMessageId) {
      MessageDeletedKeeps(r.tables, r.ctx.placeholderMessageId.value);
    }
    PrefixAppend(r.sent, [TopLevel("error", error)]);
  }

  // ---------------------------------------------------------------------
  // The order of a successful result
  // ---------------------------------------------------------------------

  lemma RouteResponseOnwardFacts(u: Turn, r: Run, rs: map<string, Json>)
    requires TablesOk(r.tables)
    ensures var (r', e) := RouteResponseOnward(u, r, rs);
      Finishes(r, r', e, When(Truthy(Lookup(rs, "response", JNull)), "content")
                         + (When(SendsAccumulated(r, rs), "content") + [Some("done")]))
  {
    var b := Truthy(Lookup(rs, "response", JNull));
    var (r3, e3) := if b then RouteResponseHandled(u, r, rs, rs["response"]) else (r, None);
    if b {
      RouteResponseHandledFacts(u, r, rs, rs["response"]);
    } else {
      SoundRefl(r);
    }
    if e3.Some? {
      FinishesRaised(r, r3, e3, When(b, "content") + (When(SendsAccumulated(r, rs), "content") + [Some("done")]));
    } else {
      var p := if b then r3.sent[|r.sent|] else Send.Done();
      assert r3.sent == r.sent + (if b then [p] else []);
      TypesWhen(b, "content", p);
      ConcludedFacts(r3, rs);
      FinishesAfter(r, r3, Concluded(r3, rs), None, if b then [p] else [], When(SendsAccumulated(r, rs), "content") + [Some("done")]);
    }
  }

  lemma RouteNavigationOnwardFacts(u: Turn, r: Run, rs: map<string, Json>)
    requires TablesOk(r.tables)
    ensures var (r', e) := RouteNavigationOnward(u, r, rs);
      Finishes(r, r', e, When(Truthy(Lookup(rs, "navigation_target", JNull)), "navigation")
                         + (When(Truthy(Lookup(rs, "response", JNull)), "content")
                            + (When(SendsAccumulated(r, rs), "content") + [Some("done")])))
  {
    var b := Truthy(Lookup(rs, "navigation_target", JNull));
    var rest := When(Truthy(Lookup(rs, "response", JNull)), "content") + (When(SendsAccumulated(r, rs), "content") + [Some("done")]);
    var (r2, e2) := if b then RouteNavigationHandled(u, r, rs["navigation_target"]) else (r, None);
    if b {
      RouteNavigationHandledFacts(u, r, rs["navigation_target"]);
    } else {
      SoundRefl(r);
    }
    if e2.Some? {
      FinishesRaised(r, r2, e2, When(b, "navigation") + rest);
      assert Finishes(r, r2, e2, When(b, "navigation") + rest);
    } else {
      var p := if b then r2.sent[|r.sent|] else Send.Done();
      assert r2.sent == r.sent + (if b then [p] else []);
      TypesWhen(b, "navigation", p);
      RouteResponseOnwardFacts(u, r2, rs);
      var (r', e) := RouteResponseOnward(u, r2, rs);
      FinishesAfter(r, r2, r', e, if b then [p] else [], rest);
    }
  }

  /**
   * A result without an error sends, in this order: the document, the
   * navigation, the response, each when its key is truthy, then the
   * streamed text when there is no document and no response, and then
   * "done", last and once. A block that raises stops the rest, and no
   * "done" is sent. The store invariants hold in every case.
   */
  lemma RouteResultsOrder(u: Turn, r: Run, rs: map<string, Json>)
    requires TablesOk(r.tables) && !Truthy(Lookup(rs, "error", JNull))
    ensures var (r', e) := RouteFinished(u, r, rs);
      Finishes(r, r', e, When(Truthy(Lookup(rs, "document", JNull)), "document")
                         + (When(Truthy(Lookup(rs, "navigation_target", JNull)), "navigation")
                            + (When(Truthy(Lookup(rs, "response", JNull)), "content")
                               + (When(SendsAccumulated(r, rs), "content") + [Some("done")]))))
  {
    var b := Truthy(Lookup(rs, "document", JNull));
    var rest := When(Truthy(Lookup(rs, "navigation_target", JNull)), "navigation")
                + (When(Truthy(Lookup(rs, "response", JNull)), "content") + (When(SendsAccumulated(r, rs), "content") + [Some("done")]));
    var (r1, e1) := if b then RouteDocumentHandled(u, r, rs, rs["document"]) else (r, None);
    if b {
      RouteDocumentHandledFacts(u, r, rs, rs["document"]);
      RouteDocumentHandledSound(u, r, rs, rs["document"]);
    } else {
      SoundRefl(r);
    }
    if e1.Some? {
      FinishesRaised(r, r1, e1, When(b, "document") + rest);
    } else {
      var p := if b then r1.sent[|r.sent|] else Send.Done();
      assert r1.sent == r.sent + (if b then [p] else []);
      TypesWhen(b, "document", p);
      RouteNavigationOnwardFacts(u, r1, rs);
      assert SendsAccumulated(r1, rs) == SendsAccumulated(r, rs);
      var (r', e) := RouteNavigationOnward(u, r1, rs);
      FinishesAfter(r, r1, r', e, if b then [p] else [], rest);
    }
  }

  // ---------------------------------------------------------------------
  // The whole turn
  // ---------------------------------------------------------------------

  /** The try block gets as far as "done": nothing raises and the result carries no error. */
  predicate RouteSucceeds(u: Turn, r: Run, events: seq<GraphEvent>, rs: map<string, Json>) {
    RouteAttempted(u, r, events, rs).1.None? && !Truthy(Lookup(rs, "error", JNull))
  }

  lemma RoutePreparedSound(u: Turn, r: Run, events: seq<GraphEvent>)
    requires TablesOk(r.tables)
    ensures Sound(r, RoutePrepared(u, r, events).0)
    ensures |RoutePrepared(u, r, events).0.sent| > |r.sent|
    ensures RoutePrepared(u, r, events).0.sent[|r.sent|] == TopLevel("thinking", JStr(Send.ThinkingDefault))
  {
    var p := TopLevel("thinking", JStr(Send.ThinkingDefault));
    var r0 := Emit(r, p);
    EmitPlain(r, p);
    var (r1, e1) := UserInputPersisted(u, r0);
    UserInputPersistedFacts(u, r0);
    SoundTrans(r, r0, r1);
    var r2 := RoutePrepared(u, r, events).0;
    if e1.None? {
      RouteEventsSound(u, r1, events);
      SoundTrans(r, r1, r2);
    }
    PrefixIndex(r1.sent, r2.sent, |r.sent|);
  }

  /**
   * The try block starts with the thinking payload and ends as `Ends`
   * says: "done" last and once exactly when it succeeds; otherwise no
   * "done", and unless something raised the last payload is the error.
   */
  lemma RouteAttemptedEnds(u: Turn, r: Run, events: seq<GraphEvent>, rs: map<string, Json>)
    requires TablesOk(r.tables)
    ensures var (r1, e) := RouteAttempted(u, r, events, rs);
      && Ends(r, r1, e, RouteSucceeds(u, r, events, rs))
      && |r1.sent| > |r.sent| && r1.sent[|r.sent|] == TopLevel("thinking", JStr(Send.ThinkingDefault))
  {
    RoutePreparedSound(u, r, events);
    var (r2, e2) := RoutePrepared(u, r, events);
    var (r1, e) := RouteAttempted(u, r, events, rs);
    if e2.Some? {
      SoundEnds(r, r2, e2);
    } else {
      if Truthy(Lookup(rs, "error", JNull)) {
        RouteErrorHandledFacts(r2, rs["error"]);
      } else {
        RouteResultsOrder(u, r2, rs);
        FinishesEnds(r2, r1, e, When(Truthy(Lookup(rs, "document", JNull)), "document")
                               + (When(Truthy(Lookup(rs, "navigation_target", JNull)), "navigation")
                                  + (When(Truthy(Lookup(rs, "response", JNull)), "content")
                                     + (When(SendsAccumulated(r2, rs), "content") + [Some("done")]))));
      }
      EndsAfter(r, r2, r1, e, RouteSucceeds(u, r, events, rs));
      PrefixIndex(r2.sent, r1.sent, |r.sent|);
    }
  }

  /** The except and finally clauses: whatever was raised is reported last, and the session goes idle. */
  lemma RouteClosedFacts(u: Turn, r: Run, r1: Run, e: Option<string>, succeeds: bool)
    requires Ends(r, r1, e, succeeds) && |r1.sent| > |r.sent|
    ensures Streams(u, r, RouteClosed(u, r1, e), succeeds)
    ensures RouteClosed(u, r1, e).sent[|r.sent|] == r1.sent[|r.sent|]
    ensures e.None? ==> RouteClosed(u, r1, e).sent == r1.sent
  {
    var r2 := if e.Some? then Emit(r1, TopLevel("error", JStr(StreamErrorText(e.value)))) else r1;
    if e.Some? {
      var p := TopLevel("error", JStr(StreamErrorText(e.value)));
      PrefixAppend(r1.sent, [p]);
      PrefixTrans(r.sent, r1.sent, r2.sent);
      PrefixIndex(r1.sent, r2.sent, |r.sent|);
      NoDoneExtend(r1.sent, r2.sent, |r.sent|);
    }
    StatusSetKeeps(r2.tables, u.sessionId, SS.IdleStatus);
  }

  /** The result handling of a turn whose result hands the loaded document back with a None change summary raises that NOT NULL error, changing nothing. */
  lemma LoadedDocumentFinishFails(u: Turn, r: Run, rs: map<string, Json>, id: int)
    requires TablesOk(r.tables) && id in r.tables.documents && u.sessionId in r.tables.sessions
    requires "document" in rs && rs["document"] == DocumentView(id, r.tables.documents[id])
    requires !Truthy(Lookup(rs, "error", JNull)) && "change_summary" in rs && rs["change_summary"].JNull?
    ensures RouteFinished(u, r, rs) == (r, Some(NotNullError("messages.content")))
  {
    LoadedDocumentNullSummaryFails(u, r.tables, rs, r.ctx.placeholderMessageId, id);
  }

  /**
   * A whole turn whose events went through and whose result hands the
   * loaded document back with a None change summary ends in the error
   * branch: after the events nothing is sent but the "处理请求时出错: "
   * error with the NOT NULL message (no "done"), no document or history
   * row changes, the session goes idle, and no background task starts.
   */
  lemma LoadedDocumentTurnFails(u: Turn, r: Run, events: seq<GraphEvent>, rs: map<string, Json>, id: int)
    requires TablesOk(r.tables)
    requires var r2 := RoutePrepared(u, r.(tables := StatusSet(r.tables, u.sessionId, SS.RunningStatus)), events);
      && r2.1.None? && id in r2.0.tables.documents && u.sessionId in r2.0.tables.sessions
      && "document" in rs && rs["document"] == DocumentView(id, r2.0.tables.documents[id])
    requires !Truthy(Lookup(rs, "error", JNull)) && "change_summary" in rs && rs["change_summary"].JNull?
    ensures var r2 := RoutePrepared(u, r.(tables := StatusSet(r.tables, u.sessionId, SS.RunningStatus)), events).0;
      var (r', launches) := RouteStreamed(u, r, events, rs);
      && r'.sent == r2.sent + [TopLevel("error", JStr(StreamErrorText(NotNullError("messages.content"))))]
      && r'.tables == StatusSet(r2.tables, u.sessionId, SS.IdleStatus)
      && launches == []
      && NoDoneFrom(r'.sent, |r.sent|)
  {
    var r0 := r.(tables := StatusSet(r.tables, u.sessionId, SS.RunningStatus));
    StatusSetKeeps(r.tables, u.sessionId, SS.RunningStatus);
    RoutePreparedExtends(u, r0, events);
    var r2 := RoutePrepared(u, r0, events).0;
    var e := NotNullError("messages.content");
    LoadedDocumentFinishFails(u, r2, rs, id);
    assert RouteAttempted(u, r0, events, rs) == (r2, Some(e));
    assert RouteStreamed(u, r, events, rs) == (RouteClosed(u, r2, Some(e)), []);
    RouteClosedRaised(u, r2, e);
    NoDoneExtend(r2.sent, RouteClosed(u, r2, Some(e)).sent, |r.sent|);
  }

  /** The preparation keeps the store invariants and the sessions, only appends, and appends no "done". */
  lemma RoutePreparedExtends(u: Turn, r: Run, events: seq<GraphEvent>)
    requires TablesOk(r.tables)
    ensures var r' := RoutePrepared(u, r, events).0;
      && TablesOk(r'.tables) && r'.tables.sessions.Keys == r.tables.sessions.Keys
      && |r.sent| <= |r'.sent| && r'.sent[..|r.sent|] == r.sent && NoDoneFrom(r'.sent, |r.sent|)
  {
    RoutePreparedSound(u, r, events);
  }

  /** Closing a try block that raised `e` appends only the report of `e` and sets the session idle. */
  lemma RouteClosedRaised(u: Turn, r: Run, e: string)
    ensures var r' := RouteClosed(u, r, Some(e));
      && r'.sent == r.sent + [TopLevel("error", JStr(StreamErrorText(e)))]
      && r'.tables == StatusSet(r.tables, u.sessionId, SS.IdleStatus)
      && |r.sent| <= |r'.sent| && r'.sent[..|r.sent|] == r.sent
      && NoDoneFrom(r'.sent, |r.sent|)
  {
    var p := TopLevel("error", JStr(StreamErrorText(e)));
    assert !IsDone(p);
    PrefixAppend(r.sent, [p]);
  }

  /**
   * The whole of `stream_agent_response`: the session is running during
   * the turn and idle after it, whatever happened, and the store
   * invariants hold; the first payload is the thinking indicator; "done"
   * is sent exactly when the turn succeeds, and then last and once;
   * otherwise the last payload is an error.
   */
  lemma RouteStreamedFacts(u: Turn, r: Run, events: seq<GraphEvent>, rs: map<string, Json>)
    requires TablesOk(r.tables)
    ensures var r0 := r.(tables := StatusSet(r.tables, u.sessionId, SS.RunningStatus));
      var r' := RouteStreamed(u, r, events, rs).0;
      && Streams(u, r, r', RouteSucceeds(u, r0, events, rs))
      && r'.sent[|r.sent|] == TopLevel("thinking", JStr(Send.ThinkingDefault))
  {
    var r0 := r.(tables := StatusSet(r.tables, u.sessionId, SS.RunningStatus));
    StatusSetKeeps(r.tables, u.sessionId, SS.RunningStatus);
    StepSound(r, r0, []);
    RouteAttemptedEnds(u, r0, events, rs);
    var (r1, e) := RouteAttempted(u, r0, events, rs);
    var succeeds := RouteSucceeds(u, r0, events, rs);
    EndsAfter(r, r0, r1, e, succeeds);
    RouteClosedFacts(u, r, r1, e, succeeds);
  }

  /**
   * The two background tasks start exactly when the turn succeeded with a
   * truthy document id and content, both for that document and that
   * content.
   */
  lemma RouteLaunchesWhen(u: Turn, r: Run, events: seq<GraphEvent>, rs: map<string, Json>)
    ensures var r0 := r.(tables := StatusSet(r.tables, u.sessionId, SS.RunningStatus));
      var ls := RouteStreamed(u, r, events, rs).1;
      var docId := RouteAttempted(u, r0, events, rs).0.ctx.docId;
      && (ls != [] <==> RouteSucceeds(u, r0, events, rs) && docId.Some? && docId.value != 0 && Truthy(TaskContent(rs)))
      && (ls != [] ==> ls == [Launch(ExtractEntities, docId.value, TaskContent(rs), ls[0].afterSent),
                              Launch(GenerateFollowUps, docId.value, TaskContent(rs), ls[0].afterSent)])
  {
    var r0 := r.(tables := StatusSet(r.tables, u.sessionId, SS.RunningStatus));
    var (r1, e) := RouteAttempted(u, r0, events, rs);
    assert RouteStreamed(u, r, events, rs).1 == Launches(r1, e, rs);
  }

  /** The background tasks start only once "done" has been sent as the last payload, and see every payload of the turn. */
  lemma RouteLaunchesAfterDone(u: Turn, r: Run, events: seq<GraphEvent>, rs: map<string, Json>)
    requires TablesOk(r.tables)
    ensures var (r', ls) := RouteStreamed(u, r, events, rs);
      ls != [] ==> DoneLast(r'.sent) && forall l | l in ls :: l.afterSent == |r'.sent|
  {
    RouteStreamedFacts(u, r, events, rs);
    RouteLaunchesWhen(u, r, events, rs);
    var r0 := r.(tables := StatusSet(r.tables, u.sessionId, SS.RunningStatus));
    var (r1, e) := RouteAttempted(u, r0, events, rs);
    if e.None? {
      assert RouteClosed(u, r1, e).sent == r1.sent;
    }
  }

  /** The last payload is "done". */
  predicate DoneLast(ps: seq<Json>) {
    |ps| > 0 && IsDone(ps[|ps| - 1])
  }
}
