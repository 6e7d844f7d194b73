# knowzero backend core in Dafny

knowzero is a learning assistant. A FastAPI WebSocket route takes a chat
request and builds the agent state for one turn. It runs a LangGraph
workflow on that state: input normaliser, intent agent, router, then the
content, navigator, planner or topic node. It translates the workflow's
event stream into client payloads and stores documents, entities, roadmaps
and messages in a SQL database. This project models the decision logic of
those nodes, the bookkeeping rules of the services over in-memory tables,
and the per-turn stream processors, and proves properties of them.

The model follows the code as written, with the exceptions listed under
"## Left out" (the three message service functions the code calls but
does not define, and the entity block's handling of a string or dict
value). In a few places the code does not
do what its comments or tests suggest, and the model keeps that behaviour
and proves that it happens:

- the fast-path table files new_topic under `("new_topic", False)` while the lookup asks for `("new_topic", None)` (`Route.NewTopicNeverFast`);
- a routing decision that is present but None makes the navigator raise (`Navigator.NoneDecisionRaises`);
- the create branch of `persist_document` passes two keyword arguments that `create_document` does not declare, so it always fails (`PersistenceCoordinator.PersistDocumentCreateFails`);
- the state the WebSocket route builds carries the session's current document and a change summary of None, so a turn whose result hands that document back fails at the NOT NULL content column of its document_ref message and ends with an error instead of done (`WebSocketRouteFacts.LoadedDocumentTurnFails`);
- the state the WebSocket route builds has no roadmap, so routing never sees one (`WebSocketRouteFacts.BuiltStateHasNoRoadmap`);
- an untagged multi-line fenced reply loses its first body line before decoding (see Findings).

Modules, one per source file:

| module | source |
|---|---|
| `Wrappers`, `Json`, `Text` | shared vocabulary: Option/Result, a JSON value type for Python dicts and lists, and Python string methods (`strip`, `lower`, substring tests) |
| `AgentStateModel` | `backend/app/agent/state.py`: the agent state, a class over a map |
| `LlmUtils` | `backend/app/agent/llm_utils.py` and the inline cleaners |
| `Classifier`, `IntentNode`, `InputNormalizer` | intent classification and the input defaults |
| `Route`, `Graph` | routing overrides, fast path, fallback, edges, and the workflow's transition function |
| `Navigator`, `Content`, `Planner`, `Topic` | the node result records |
| `Store` | the database as one class of tables, with rollback |
| `DocumentService`, `EntityService`, `SessionService`, `MessageService`, `RoadmapService`, `PersistenceCoordinator` | the persistence rules |
| `MessageSender`, `WebSocketEventHandler` | payload builders and the stream context |
| `AgentStreamingService`, `AgentStreamingFacts` | the stream processor class and what one turn guarantees |
| `WebSocketRoute`, `WebSocketRouteFacts` | the connection manager, the endpoint and the older stream translation it runs |

Four kinds of input come from outside:

- Every LLM call is a parameter: the reply text, or None for a call that raised.
- `json.loads` is a decoder parameter `string -> Option<Json>`, so each property holds for every decoder.
- The graph's event stream is a sequence of events.
- The saved final state is a map.

Each operation that changes state is a method. Its `ensures` ties the new
state to a specification function of the old one. The properties are
lemmas about those functions.

## Model

| member | source | states |
|---|---|---|
| AgentStateModel.AgentState.constructor | backend/app/agent/state.py:9-43 | a fresh agent state holds exactly the initial fields it is given |
| AgentStateModel.AppendMessage | backend/app/agent/state.py:29 | appending a message keeps every other field, leaves the messages list as the old list followed by the new message and adds the key only when it was absent |
| WebSocketEventHandler.StreamContext.constructor | backend/app/services/websocket_event_handler.py:16-21 | a new stream context has no placeholder, empty accumulated text, an empty captured result and no document id |
| Graph.StepInSuccessors | backend/app/agent/graph.py:49-73 | every step of the workflow lands on one of the node's declared successors: both routing functions only name keys of their path maps |
| Graph.IntentSuccessorsReached | backend/app/agent/graph.py:51-59 | each of the three branches out of intent_agent is taken for some state (chitchat, navigate, anything else) |
| Graph.PlanRunsContentAgent | backend/app/agent/graph.py:61-69 | a "planner_agent" decision runs content_agent, since no planner node is registered |
| Graph.IntentStepFollowsRouteByIntent | backend/app/agent/graph.py:51-59 | the node after intent_agent is chitchat, navigator or route_agent exactly when route_by_intent names it |
| Graph.StepLowersRank | backend/app/agent/graph.py:46-73 | every edge lowers a rank on nodes, so the graph is acyclic |
| Graph.TraceBounded | backend/app/agent/graph.py:46-73 | a run from a node visits at most as many nodes as its rank and never visits END |
| Graph.RunTerminates | backend/app/agent/graph.py:46-73 | with as many steps as the start node's rank, every run has reached END |
| Graph.WorkflowRun | backend/app/agent/graph.py:21-75 | a run from the entry visits at most four nodes, starts with input_normalizer then intent_agent, and reaches END within four steps |
| Graph.GraphCache.constructor | backend/app/agent/graph.py:79-80 | the module starts with no checkpointer and no graph |
| Graph.GraphCache.GetCheckpointer | backend/app/agent/graph.py:83-89 | the first call creates a checkpointer and later calls return the same one without creating another |
| Graph.GraphCache.GetGraph | backend/app/agent/graph.py:92-98 | the first call compiles the graph with the shared checkpointer, later calls return the cached graph unchanged |
| Graph.GetGraphTwice | backend/app/agent/graph.py:92-98 | two successive calls return the same compiled graph |
| Store.EmptyTablesOk | backend/app/core/database.py:41-45 | freshly created, empty tables satisfy every table invariant (unique entity names per session, unique links, one active roadmap per session, growing ids and times) |
| Store.Db.constructor | backend/app/core/database.py:41-45 | a new database holds the empty tables and is valid |
| Store.Db.Restore | backend/app/core/database.py:54-65 | rolling back a failed transaction puts every table back as it was when the transaction began |
| Store.RequiredTextFacts | backend/app/models/document.py:29-30 | a `Mapped[str]` column refuses None with its NOT NULL error and a list or a dict with a binding error, stores a string as it is, and stores what a nullable column would |
| LlmUtils.ParseLlmJsonResponse | backend/app/agent/llm_utils.py:6-50 | an empty or missing reply raises "Empty LLM response"; otherwise the reply is cleaned and the result is the decoded value (dict or list) when the decoder accepts the cleaned text and the parse failure exactly when it does not |
| LlmUtils.FirstFenceBodyShape | backend/app/agent/llm_utils.py:31-34 | for a reply that opens with a fence, `parts[1]` is the text right after the opening fence and holds no fence itself |
| LlmUtils.InlineClean | backend/app/agent/classifier.py:130 | the one-line cleaner trims, strips backticks from both ends and removes a single leading "json" only when present |
| LlmUtils.InlineCleanFacts | backend/app/agent/nodes/content.py:294-324 | the inline cleaner takes a reply fenced as "```json" ... "```" to exactly the text between the tag and the closing fence, and removes a leading "json" even without a fence |
| LlmUtils.PlannerClean | backend/app/agent/nodes/planner.py:204-207 | the planner's cleaner only trims an unfenced reply; a fenced one also loses its backticks, then one "json" and then one "JSON" |
| LlmUtils.PlannerCleanFacts | backend/app/agent/nodes/planner.py:204-207 | the planner's cleaner takes a reply fenced as "```json" or "```JSON" ... "```" to exactly the text between the tag and the closing fence (when that text does not start with "JSON"), but keeps an unfenced reply whole, tag included |
| LlmUtils.WhitespaceOnlyReachesDecoder | backend/app/agent/llm_utils.py:23-24 | a whitespace-only reply is not rejected as empty: the empty string reaches the decoder and, when that fails, the result is the parse failure |
| LlmUtils.FenceBodyOf | backend/app/agent/llm_utils.py:29-34 | the fence body of a closed fenced block followed by anything is exactly the text between the two fences |
| LlmUtils.OnlyFirstFencedBlock | backend/app/agent/llm_utils.py:29-37 | only the first fenced block reaches the decoder: what follows its closing fence never changes the cleaned text |
| LlmUtils.TaggedFenceKeepsBody | backend/app/agent/llm_utils.py:29-37 | a fence opened with a language tag loses the tag line and keeps the body, trimmed at the end |
| LlmUtils.PlainJsonReachesDecoderTrimmed | backend/app/agent/llm_utils.py:26-48 | unfenced text delimited like a JSON object or array reaches the decoder exactly as trimmed: no trailing comma is repaired |
| LlmUtils.ProseReachesDecoderWhole | backend/app/agent/llm_utils.py:26-48 | prose that starts with neither a fence nor a tag letter reaches the decoder whole: embedded JSON is not searched for |
| LlmUtils.NoPrefixCut | backend/app/agent/llm_utils.py:43-45 | a text that starts with no letter of "json" or "python" passes the prefix loop unchanged |
| LlmUtils.DoubledTagBothCut | backend/app/agent/llm_utils.py:43-45 | the loop tries "json" and then "JSON", both case-insensitively, so a doubled tag is removed twice |
| LlmUtils.UntaggedFenceDropsFirstLine | backend/app/agent/llm_utils.py:34-37 | as written, a fence without a tag whose body spans several lines loses the first line of its body |
| LlmUtils.UntaggedFenceExample | backend/app/agent/llm_utils.py:34-37 | the reply made of a fence, `{`, `"a": 1`, `}` and a fence reaches the decoder without its opening brace |
| LlmUtils.UnfenceIntendedKeepsBody | backend/app/agent/llm_utils.py:29-37 | with the tag line dropped before trimming, every fence keeps its whole body, tagged or not |
| InputNormalizer.InputNormalizerNode | backend/app/agent/nodes/input_normalizer.py:9-46 | the node leaves the state equal to the defaults-then-append specification of its input, changing the dict in place |
| InputNormalizer.DefaultField | backend/app/agent/nodes/input_normalizer.py:22-36 | one defaulting step sets its field to the default exactly when the field is missing or falsy |
| InputNormalizer.FillDefaultsFields | backend/app/agent/nodes/input_normalizer.py:22-36 | each of the five fields ends up holding its old value when that was truthy and its default ("", "beginner", [], [], {}) otherwise; every other field is untouched and the five keys are present |
| InputNormalizer.DefaultedLookup | backend/app/agent/nodes/input_normalizer.py:22-36 | one defaulting step changes only its own field, and only when that field is falsy |
| InputNormalizer.FillDefaultsIdempotent | backend/app/agent/nodes/input_normalizer.py:22-36 | filling the defaults a second time changes nothing |
| InputNormalizer.NormalizedMessages | backend/app/agent/nodes/input_normalizer.py:39-43 | one human message carrying the raw message is appended exactly when the raw message is non-empty and the source is "chat"; otherwise the messages are unchanged |
| InputNormalizer.NormalizeTwiceAppendsTwice | backend/app/agent/nodes/input_normalizer.py:9-46 | the node is not idempotent: running it twice on a chat message records that message twice |
| Navigator.NavigatorAgentNode | backend/app/agent/nodes/navigator.py:13-59 | the node raises exactly when its specification is undefined (a `.get` on a non-dict) and leaves the state untouched then; otherwise the state becomes the specified navigated state |
| Navigator.NoneDecisionRaises | backend/app/agent/nodes/navigator.py:19-22 | a routing decision that is present but None makes the node raise, because the `{}` default applies only to an absent key |
| Navigator.IntentSuppliesTarget | backend/app/agent/nodes/navigator.py:18-23 | without a routing decision the intent supplies the target id and the target text |
| Navigator.DecisionIdFirst | backend/app/agent/nodes/navigator.py:21-32 | a truthy target id in the routing decision wins, and then the lookup is by that id |
| Navigator.NavigationResult | backend/app/agent/nodes/navigator.py:28-57 | a found document gives a "document" result with its id, title and content, anything else a "not_found" result titled with the target; either way exactly one AI message carrying the result's message is appended |
| SessionService.UpdateAgentStatus | backend/app/services/session_service.py:13-45 | a missing session raises "Session … not found" and changes nothing; otherwise the tables become the specified update and the updated row is returned |
| SessionService.AgentStatusEffect | backend/app/services/session_service.py:32-42 | the update fails exactly for a missing session; otherwise the status is stored as given with no check against known statuses, "running" stamps the start with the current time, "idle" clears it, any other status keeps it, only that row changes and every table invariant is kept |
| SessionService.UpdateCurrentDocument | backend/app/services/session_service.py:48-67 | a missing session raises and changes nothing; otherwise the tables become the specified update and the row is returned |
| SessionService.CurrentDocumentEffect | backend/app/services/session_service.py:59-64 | pinning fails exactly for a missing session and otherwise changes that session's current document and nothing else |
| SessionService.UpdateSessionTopic | backend/app/services/session_service.py:70-101 | a missing session gives None and changes nothing; otherwise the specified update is applied and the row returned |
| SessionService.SessionTopicEffect | backend/app/services/session_service.py:88-93 | the result is None exactly for a missing session; otherwise the learning goal becomes the topic, None clearing it, and nothing else changes |
| MessageService.SaveUserMessage | backend/app/services/message_service.py:12-32 | saving adds one "user" message with no intent, no routing and no tokens, stamped with the next id and the current time |
| MessageService.SaveAssistantMessage | backend/app/services/message_service.py:35-61 | saving adds one "assistant" message with the given intent, routing and token count |
| MessageService.SavedOk | backend/app/services/message_service.py:22-31 | a saved message stores every field as given, is the newest message afterwards, keeps growing ids and timestamps, and changes no other table |
| MessageService.MessageColumnsFacts | backend/app/models/session.py:59-64 | a message flush fails exactly when one of its values is a list or a dict or its content or type is None, a None content with the NOT NULL error of messages.content, and strings are stored as given |
| MessageService.ReverseInPlace | backend/app/services/message_service.py:78 | reversing the fetched list puts element k where element n-1-k was |
| MessageService.GetRecentMessages | backend/app/services/message_service.py:64-79 | the query walks the messages newest first, keeps at most `limit` of the session's rows, and the reversed result is the specified recent tail |
| MessageService.RecentIsLatestTail | backend/app/services/message_service.py:64-79 | the result holds only the session's messages, at most `limit` of them (all of them for a negative limit), is exactly the tail of its history, and comes oldest first |
| MessageService.UpdateMessageContent | backend/app/services/persistence_coordinator.py:76-80 | the message with that id gets the new content and nothing else changes |
| MessageService.UpdateMessageDocument | backend/app/services/persistence_coordinator.py:82-86 | the message with that id is linked to the document and nothing else changes |
| MessageService.DeleteMessage | backend/app/services/agent_streaming_service.py:402 | the message with that id is removed from the table |
| MessageService.WithoutMessageExact | backend/app/services/agent_streaming_service.py:402 | deleting removes exactly the messages with that id and nothing else |
| MessageService.MessageDeletedOk | backend/app/services/agent_streaming_service.py:402 | after deletion no message has that id, the others stay in order and every table invariant holds |
| EntityService.FindEntity | backend/app/services/entity_service.py:40-46 | the found position holds the session's entity with that name; no position is found exactly when no such entity exists |
| EntityService.FindEntityDocument | backend/app/services/entity_service.py:12-27 | a document is returned only when some "explains" link joins an active entity of the session with that name, and None exactly when no such link exists |
| EntityService.UpsertEntities | backend/app/services/entity_service.py:30-75 | the loop succeeds exactly when the specification does and leaves the specified tables; a raised integrity error leaves the store as it was |
| EntityService.UpsertStep | backend/app/services/entity_service.py:39-73 | one pass of the loop succeeds exactly when the specified step does and leaves its tables and pending links; when the flush after a new entity raises, that entity is in the session unflushed and nothing else has changed |
| EntityService.UpsertedOk | backend/app/services/entity_service.py:38-75 | a successful upsert keeps every table invariant (one entity per session and name, one link per key, links into created entities) and only appends to the entity and link tables |
| EntityService.UpsertedLinksEveryName | backend/app/services/entity_service.py:38-73 | after a successful upsert every name has its entity in the session and an "explains" link to the document |
| EntityService.UpsertIdempotent | backend/app/services/entity_service.py:38-75 | repeating a successful upsert succeeds and changes nothing |
| EntityService.UpsertThenFind | backend/app/services/entity_service.py:12-75 | after a successful upsert, a name whose entity is active resolves through find_entity_document to some document |
| EntityService.RepeatedNameWithoutLinkFails | backend/app/services/entity_service.py:58-75 | with autoflush off, the same already-existing name twice in one call queues its missing link twice, and the final flush breaks the unique link constraint |
| EntityService.DistinctNamesSucceed | backend/app/services/entity_service.py:38-75 | without a repeated name no constraint can be broken, so the upsert always succeeds |
| DocumentService.CreateDocument | backend/app/services/document_service.py:12-51 | the method leaves the tables and returns the id that the creation specification gives |
| DocumentService.CreatedOk | backend/app/services/document_service.py:25-48 | creation fails, changing nothing, exactly when a bound value is a list or a dict or the topic or the content is None; otherwise it keeps every table invariant, and the new document gets the next id, version 1, the given topic and content as text, `entities or []`, and exactly one history row, version 1 with the content, "初始创建" and "created" |
| DocumentService.UpdateDocument | backend/app/services/document_service.py:54-83 | a missing id raises "Document … not found", and a content or change summary the flush rejects raises its error, both changing nothing; otherwise the tables become the specified update and the row is returned |
| DocumentService.UpdatedOk | backend/app/services/document_service.py:63-80 | an update fails exactly for a missing id, a content that is None, a list or a dict, or a change summary that is a list or a dict; otherwise the version goes up by one, the content is replaced by its text, one history row with the new version, content, summary (NULL for None) and type is added, and every other document is untouched |
| DocumentService.UpdatedKeepsTables | backend/app/services/document_service.py:63-80 | a successful update keeps every table invariant, and the document's history then runs exactly from 1 up to its new version |
| DocumentService.FindDocumentByTopicLatest | backend/app/services/document_service.py:91-103 | the lookup returns a session document whose topic matches `ilike('%topic%')`, updated no earlier than any other match, and None exactly when nothing matches |
| DocumentService.LatestMatchBelow | backend/app/services/document_service.py:95-101 | the chosen id matches and is updated no earlier than any match below the bound; None means no match below the bound |
| DocumentService.LikePrefix | backend/app/services/document_service.py:98 | a wildcard-free pattern followed by `%` matches exactly the texts that start with it |
| DocumentService.TopicPatternIsContains | backend/app/services/document_service.py:98 | with no `%` or `_` in the query, the topic pattern matches exactly the topics that contain the query, ignoring ASCII case |
| DocumentService.UnderscoreMatchesAnyTopic | backend/app/services/document_service.py:98 | an underscore in the query acts as a wildcard, so the query "_" finds any document with a non-empty topic |
| DocumentService.ListSessionDocumentsNewestFirst | backend/app/services/document_service.py:106-116 | the listing holds exactly the session's documents, each once, newest created first |
| DocumentService.ListSessionDocuments | backend/app/services/document_service.py:106-116 | the listing holds only the session's documents, every one of them with an allocated id, highest id first |
| DocumentService.GetDocument | backend/app/services/document_service.py:86-88 | the document with that id, and None exactly when there is none |
| DocumentService.UpdateDocumentEntities | backend/app/services/document_service.py:119-133 | a missing document gives None and changes nothing; otherwise the specified update is applied and the row returned |
| DocumentService.EntitiesUpdatedOk | backend/app/services/document_service.py:126-131 | the result is None exactly for a missing document; otherwise only its entity list changes: not its version, its content or the history |
| DocumentService.SaveFollowUps | backend/app/services/document_service.py:136-153 | the staged records are flushed at once: when every question can be written, one record per question is appended in order and returned; otherwise the flush raises the error of the first question it cannot write and nothing is stored |
| DocumentService.FollowUpOfFacts | backend/app/models/document.py:96-103 | a question dict fails the flush exactly when its question is None or any of question, type and entity tag is a list or dict; a None question with bindable fields breaks the NOT NULL constraint on follow_up_questions.question; a missing question is stored as ""; otherwise the question text and the nullable type and tag are stored with is_clicked false |
| DocumentService.FollowUpRowsFacts | backend/app/services/document_service.py:143-153 | the flush of a list succeeds exactly when each question can be written, and then gives one record per question in order; otherwise its error is that of the first question that cannot be written |
| MessageSender.EventRoundTrip | backend/app/services/websocket_message_sender.py:14-25 | a payload read back gives its type always, its data exactly when data was passed, and has no other key |
| MessageSender.EventInjective | backend/app/services/websocket_message_sender.py:14-25 | two payloads are equal only when their types and data are, so a payload determines what was sent |
| MessageSender.DoneCarriesNoData | backend/app/services/websocket_message_sender.py:28-211 | "done" is sent without a data dict, while thinking, node_end, error, content and progress each carry one |
| MessageSender.NodeStartModel | backend/app/services/websocket_message_sender.py:34-45 | node_start data names the node and carries "model" exactly when the model is truthy |
| MessageSender.TakeFacts | backend/app/services/websocket_message_sender.py:163-181 | the `[:200]` slice is a prefix of the text, at most 200 long, and the whole text when it fits |
| MessageSender.ToolPayloadsCut | backend/app/services/websocket_message_sender.py:151-184 | tool_start carries the tool name and the input cut to 200 characters; tool_end the output cut to 200 characters, "" for an empty output |
| MessageSender.DocumentEntitiesDefault | backend/app/services/websocket_message_sender.py:74-95 | the document payload carries the id, topic, content and category path as given, and the entities or `[]` when they are falsy |
| MessageSender.TextInsideData | backend/app/services/websocket_message_sender.py:28-205 | thinking, content, error and progress put their text inside the data dict, not at the top level; the roadmap payload's data is the roadmap dict itself |
| Classifier.FirstStrongFrom | backend/app/agent/classifier.py:15-44 | the chosen strong row matches the message and no earlier row does; no row is chosen exactly when none matches |
| Classifier.FirstFuzzyFrom | backend/app/agent/classifier.py:24-89 | the chosen fuzzy keyword is contained in the lowered message and no earlier keyword is; none is chosen exactly when none is contained |
| Classifier.LlmClassify | backend/app/agent/classifier.py:105-148 | the LLM tier answers with method "llm" exactly when the reply arrived and decodes to a dict, taking intent_type (default "question"), confidence 0.85, target (default the extracted target) and reasoning (default "") from it; any failure gives the "llm_fallback" result |
| Classifier.LlmResult | backend/app/agent/classifier.py:132-139 | the dict built from a decoded answer reports method "llm", confidence 0.85 and the answer's fields with their defaults |
| Classifier.FuzzyMatch | backend/app/agent/classifier.py:82-91 | the loop returns the intent of the first keyword in table order contained in the lowered message, or None when none is |
| Classifier.ExtractTarget | backend/app/agent/classifier.py:93-103 | each prefix is removed at most once, in list order, and the rest trimmed; the result has at most 100 characters and is empty exactly when the message is |
| Classifier.Classify | backend/app/agent/classifier.py:35-80 | the tier loops compute the tier-by-tier classification specification |
| Classifier.ClassifyTiers | backend/app/agent/classifier.py:42-80 | the strong tier answers exactly when a strong row matches (first row's intent, confidence 1.0), the fuzzy tier exactly when only a keyword matches (confidence 0.8), the LLM tier exactly when nothing matches and an LLM is in use, and the fixed fallback ("question", first 50 characters as target) otherwise |
| Classifier.MoreDetailIsFollowUp | backend/app/agent/classifier.py:17-44 | "再详细点" also matches the optimize_content row through "详细点", but the follow_up row comes first and wins |
| Classifier.WhatIsIsNewTopic | backend/app/agent/classifier.py:16 | "什么是 Redis" is classified by the new_topic row |
| Classifier.EmptyMatchesNothing | backend/app/agent/classifier.py:15-30 | the empty message matches no strong row and no fuzzy keyword |
| Classifier.EmptyMessageReachesLlmOrFallback | backend/app/agent/classifier.py:35-103 | the empty message is therefore classified by the LLM tier or the fallback, and its extracted target is empty |
| Classifier.ClassifierRegistry.GetClassifier | backend/app/agent/classifier.py:152-160 | the first call builds the classifier with its LLM and later calls return that one, ignoring their argument |
| Classifier.GetClassifierTwice | backend/app/agent/classifier.py:155-160 | two calls give the same classifier, built with the first call's LLM |
| IntentNode.BuildIntent | backend/app/agent/nodes/intent.py:65-94 | the intent dict holds exactly the five common keys with the given values plus the extra keyword fields, which never override a common key |
| IntentNode.ComplexityMonotone | backend/app/agent/nodes/intent.py:192-201 | a longer message is never judged simpler than a shorter one |
| IntentNode.EstimateAmbiguity | backend/app/agent/nodes/intent.py:204-213 | the ambiguity is low, medium or high; a question mark always gives medium, and high only comes with fewer than 10 characters |
| IntentNode.EntityIntent | backend/app/agent/nodes/intent.py:97-129 | an entity click navigates, carrying the found document id, exactly when the lookup answered with a truthy id; otherwise it is a new topic without a target id; either way the target is the entity name and the confidence 0.95 |
| IntentNode.FirstNeedFrom | backend/app/agent/nodes/intent.py:143-154 | the chosen need has a keyword in the comment and no earlier need does; none is chosen exactly when no keyword occurs |
| IntentNode.AnalyzeCommentNeed | backend/app/agent/nodes/intent.py:150-157 | the loop with `break` returns the first need whose keywords occur in the comment, "more_examples" when none does, and always one of the four needs |
| IntentNode.CommentTarget | backend/app/agent/nodes/intent.py:161-163 | an empty selection gives the generic title, a selection of at most 50 characters is kept, a longer one is cut to 50 and gets "..." |
| IntentNode.CommentIntent | backend/app/agent/nodes/intent.py:132-174 | a comment gives an optimize_content intent with confidence 0.85, the need found in the comment and the title made from the selection |
| IntentNode.TooAbstractWantsExamples | backend/app/agent/nodes/intent.py:144 | "太抽象" asks for more examples |
| IntentNode.WhyWantsDepth | backend/app/agent/nodes/intent.py:145 | "为什么" names no example keyword and so asks for more depth |
| IntentNode.NoKeywordWantsExamples | backend/app/agent/nodes/intent.py:156-157 | a comment with no keyword asks for more examples |
| IntentNode.FollowUpIntent | backend/app/agent/nodes/intent.py:177-189 | a follow-up takes its type from the intent hint, "follow_up" when that is missing or falsy, so the type is always truthy; the target is the raw message or ""; confidence 0.9 |
| IntentNode.EntryIntent | backend/app/agent/nodes/intent.py:39-47 | an entry point is a new topic whose target is the trimmed message, with confidence 0.95 |
| IntentNode.ChatIntent | backend/app/agent/nodes/intent.py:49-51 | a chat intent is the classifier's dict with complexity and ambiguity overwritten by the estimators and every other key kept |
| IntentNode.IntentFor | backend/app/agent/nodes/intent.py:21-51 | the source selects the analyser: entity, comment, follow_up and entry have their own, and anything else (chat by default) goes through the classifier |
| IntentNode.AnalyzeCommentIntent | backend/app/agent/nodes/intent.py:132-174 | the comment branch computes the comment intent |
| IntentNode.AnalyzeChatIntent | backend/app/agent/nodes/intent.py:49-51 | the chat branch classifies with an empty context and then overwrites complexity and ambiguity |
| IntentNode.AnalyzeIntent | backend/app/agent/nodes/intent.py:32-51 | the source dispatch returns the specified intent |
| IntentNode.IntentAgentNode | backend/app/agent/nodes/intent.py:13-62 | the node fetches (or first builds) the classifier singleton and stores the computed intent under "intent", changing no other key |
| Topic.ResolveTopic | backend/app/agent/nodes/topic.py:66-84 | the two loops cut each prefix and then each suffix at most once, in list order, and the result is the cleaned text, else the target, else the raw message (default "新主题") |
| Topic.TopicAgentNode | backend/app/agent/nodes/topic.py:15-63 | the node raises exactly when its specification is undefined (a non-dict intent or a non-string target) and then leaves the state untouched; otherwise the state becomes the specified one |
| Topic.NonEmptyTargetGivesText | backend/app/agent/nodes/topic.py:71-84 | a non-empty target always resolves to a non-empty string no longer than the target |
| Topic.LearnRustTutorial | backend/app/agent/nodes/topic.py:72-82 | "学习Rust教程" resolves to "Rust": one prefix and one suffix are cut |
| Topic.EmptyTargetUsesRawMessage | backend/app/agent/nodes/topic.py:84 | an empty target falls back to the raw message, and to "新主题" only when that key is absent |
| Topic.TopicNodeFields | backend/app/agent/nodes/topic.py:43-55 | the node records the resolved topic as the session topic and as the pending learning goal, stores the roadmap and clears both roadmap flags |
| Topic.TopicRoadmapFallback | backend/app/agent/nodes/topic.py:122-137 | a failed roadmap call gives the one-milestone placeholder with exactly the four roadmap keys and no error key |
| Planner.RenumberMilestones | backend/app/agent/nodes/planner.py:228-229 | the loop gives the renumbered milestones, or fails when one milestone is not a dict |
| Planner.GenerateRoadmapFallback | backend/app/agent/nodes/planner.py:183-260 | when the cleaned, decoded and validated reply is a roadmap the fallback returns it without an error; otherwise it returns the one-milestone placeholder for the target with the generation error |
| Planner.GenerateRoadmap | backend/app/agent/nodes/planner.py:137-180 | the method computes the specified generation result, raising only when the intent is not a dict |
| Planner.SummarizeCurrentRoadmap | backend/app/agent/nodes/planner.py:323-339 | the loop builds the specified summary, or fails as soon as one milestone lacks a field or its topics cannot be joined |
| Planner.ModifyRoadmap | backend/app/agent/nodes/planner.py:263-320 | the method computes the specified modification result |
| Planner.PlannerAgentNode | backend/app/agent/nodes/planner.py:98-134 | the node raises exactly when its specification is undefined and then leaves the state untouched; otherwise the state becomes the specified planned state |
| Planner.PlannedWritesOnlyRoadmap | backend/app/agent/nodes/planner.py:120-134 | both flags are True exactly on the modify path and False otherwise, and the node adds only the roadmap and the two flags, so a helper's "error" never reaches the state |
| Planner.TargetPriority | backend/app/agent/nodes/planner.py:105-109 | the target is the first truthy of the decision's and the intent's target, then the raw message ("新主题" only when that key is absent) |
| Planner.StructuredRoadmapFields | backend/app/agent/nodes/planner.py:164-169 | the roadmap built from a structured answer has its goal, diagram and version, and one dumped milestone per milestone with its id, title, description and topics |
| Planner.RenumberedIds | backend/app/agent/nodes/planner.py:228-229 | renumbering succeeds exactly on lists of dicts, sets the ids to 0..n-1 and keeps every other field |
| Planner.FallbackRenames | backend/app/agent/nodes/planner.py:213-217 | "learning_goal" is renamed to "goal" only when there is no "goal", and likewise "fishbone_diagram" to "mermaid" |
| Planner.GeneratedWellFormed | backend/app/agent/nodes/planner.py:137-260 | every roadmap the generation path stores is a dict with a goal, a milestones list and version 1 |
| Planner.FallbackIdsSequential | backend/app/agent/nodes/planner.py:227-231 | the fallback's milestones are numbered 0..n-1 |
| Planner.PlaceholderOnDoubleFailure | backend/app/agent/nodes/planner.py:236-260 | the placeholder is stored, with the error, exactly when both methods fail: goal the target, one milestone numbered 0 with no topics, no diagram |
| Planner.StructuredFirst | backend/app/agent/nodes/planner.py:151-172 | a structured answer wins over the fallback and is stored with version 1 and no error |
| Planner.ModifyVersion | backend/app/agent/nodes/planner.py:276-320 | on the modify path a successful modification stores the old version plus one, and any failure in the `try` block keeps the current roadmap |
| Planner.ModifySucceeds | backend/app/agent/nodes/planner.py:276-315 | a dict roadmap whose summary and version increment work is modified whenever the model answers |
| Planner.DescriptionsSomeIff | backend/app/agent/nodes/planner.py:328-333 | the summary exists exactly when every milestone's text does |
| Planner.DescriptionsInOrder | backend/app/agent/nodes/planner.py:328-333 | the summary holds one text per milestone, in order |
| Planner.MissingIdKeepsRoadmap | backend/app/agent/nodes/planner.py:281-330 | a current roadmap with a milestone that is not a dict or has no "id" cannot be summarised, so it is returned unchanged with the modification error |
| Planner.NodeModifyNeverGenerates | backend/app/agent/nodes/planner.py:121-274 | called from the node, the modify helper never takes its generate branch, and a failed modification keeps the current roadmap |
| Route.DecisionDictInjective | backend/app/agent/nodes/route.py:22-35 | the dump keeps every field of the decision: distinct decisions give distinct dicts |
| Route.NewTopicNeverFast | backend/app/agent/nodes/route.py:43-199 | a new topic never takes the fast path: the table files it under `("new_topic", False)` while the lookup asks for `("new_topic", None)` |
| Route.FastRouteExactly | backend/app/agent/nodes/route.py:171-208 | exactly follow-ups, comparisons and content optimisations take the fast path |
| Route.FastRouteShape | backend/app/agent/nodes/route.py:199-206 | a fast decision is the table entry for its key, with the intent's target added exactly when the intent and its target are truthy |
| Route.TryFastRoute | backend/app/agent/nodes/route.py:171-208 | exactly follow-ups, comparisons and content optimisations get a decision without the LLM, and it always has an action, a mode and a reasoning |
| Route.FollowUpUpdatesIffCurrentDoc | backend/app/agent/nodes/route.py:51-193 | a follow-up is routed to an in-place update exactly when there is a current document |
| Route.DocInfoDicts | backend/app/agent/nodes/route.py:221-224 | one dict per listed document, in order, with its id, title and creation time |
| Route.MilestoneLines | backend/app/agent/nodes/route.py:269-274 | one summary line per milestone when none raises |
| Route.SummaryNoneIffNoRoadmap | backend/app/agent/nodes/route.py:260-263 | the summary is "无" exactly for an absent or empty roadmap |
| Route.SummaryIgnoresLaterMilestones | backend/app/agent/nodes/route.py:269-276 | milestones after the fifth affect the summary only through the count |
| Route.FallbackRules | backend/app/agent/nodes/route.py:410-434 | the fallback plans exactly for a plan intent without a roadmap and otherwise generates, in roadmap_learning mode exactly when a roadmap exists; its target is the detected target, else the message, else "新主题", so it is never empty; confidence 0.5 |
| Route.OverridesHold | backend/app/agent/nodes/route.py:130-154 | for every LLM decision: a first topic becomes a roadmap-generating plan with its reasoning prefixed, a surviving navigation always has a truthy target document, the second override keeps the mode, and keys other than action, mode and reasoning are never touched |
| Route.NavigationWithTargetKept | backend/app/agent/nodes/route.py:145 | a navigation with a truthy target document passes both overrides unchanged when it is not a first topic |
| Route.FirstTopicAlwaysPlans | backend/app/agent/nodes/route.py:125-189 | a first topic is planned as a new roadmap whatever the LLM answered, or whether it answered at all |
| Route.RouteAgentNode | backend/app/agent/nodes/route.py:82-168 | on the fast path only the decision is written, tagged "rule"; on the slow path the available documents are stored first, then the overridden decision tagged "llm", and the node raises exactly when the context cannot be built |
| Route.RouteByIntentCases | backend/app/agent/nodes/route.py:442-456 | chitchat and navigate intents skip the router; every other intent, a missing one included, reaches it |
| Route.RouteByDecisionCases | backend/app/agent/nodes/route.py:459-471 | navigate and plan decisions have their own edges; anything else, a missing decision included, generates content |
| Route.RouteByIntent | backend/app/agent/nodes/route.py:442-456 | the next node is one of the three; chitchat_agent exactly for a chitchat intent, navigator_agent exactly for a navigate intent, and the router for a missing intent |
| Route.RouteByDecision | backend/app/agent/nodes/route.py:459-471 | the next node is one of the three; navigator_agent exactly for a navigate action, and content_agent without a routing decision |
| Content.AccumulateStream | backend/app/agent/nodes/content.py:189-271 | the streamed content is the concatenation of every chunk, in the order the stream yields them |
| Content.StreamKeepsChunks | backend/app/agent/nodes/content.py:189-194 | accumulating a longer stream extends the content of its prefix by the content of the rest; an empty stream gives "" |
| Content.FirstKeywordFrom | backend/app/agent/nodes/content.py:355-357 | the index found is a keyword the lowered topic contains, and no earlier keyword from the starting point occurs in it; none is found only when no keyword occurs |
| Content.GenerateCategoryPath | backend/app/agent/nodes/content.py:327-359 | the first-match loop over the keyword table returns the category path of the topic |
| Content.CategoryPathCases | backend/app/agent/nodes/content.py:329-359 | the path is the category of the first keyword, in table order, that the lowered topic contains, then "/" and the topic as given; with no keyword it is "其他/" and the topic |
| Content.MongoDbFiledUnderGo | backend/app/agent/nodes/content.py:339-357 | "mongodb" is filed under 后端/Go, because "go" precedes "mongodb" in the table and occurs in it |
| Content.ScriptTopicsNeverJava | backend/app/agent/nodes/content.py:335-338 | a topic mentioning javascript or typescript is never filed under Java, which comes later in the table |
| Content.SnippetOpensWithContext | backend/app/agent/nodes/content.py:147-153 | the context snippet opens with "..." exactly when the context before is truthy |
| Content.SnippetClosesWithContext | backend/app/agent/nodes/content.py:151-153 | the context snippet ends with "..." exactly when the context after is truthy |
| Content.SnippetMarksSelection | backend/app/agent/nodes/content.py:150-153 | the selection, marked as "**[...]**", sits right after the context-before part of the snippet |
| Content.NeedDescriptionCases | backend/app/agent/nodes/content.py:156-167 | each of the four user needs has its own description, and any other value, a non-string included, gets the generic one |
| Content.PromptChoice | backend/app/agent/nodes/content.py:138-176 | only explain_selection builds the selection prompt, from the comment data, raw message and need; comparison builds the comparison prompt and every other mode the standard one |
| Content.GenerateDocument | backend/app/agent/nodes/content.py:125-248 | generation fails with the stream's exception or GeneratorExit, or with an attribute error for a non-string target, and otherwise returns the new document and its summary |
| Content.GeneratedDocumentShape | backend/app/agent/nodes/content.py:131-248 | a generated document has no id, the decision's target as topic ("新主题" only when the key is absent), the chunks in order as content, its category path, no entities and version 1 |
| Content.NullTargetFailsAfterStream | backend/app/agent/nodes/content.py:131-354 | a decision whose target is None lets the whole stream be read and then fails, since the category path lowers None |
| Content.UpdateDocument | backend/app/agent/nodes/content.py:251-291 | the update streams the rewrite and returns the updated document and the mode's summary, or the stream's exception |
| Content.UpdateKeepsFields | backend/app/agent/nodes/content.py:253-285 | an update keeps every other field of the current document, replaces the content with the streamed text and raises the version by one (to 2 when absent) |
| Content.UpdateSummary | backend/app/agent/nodes/content.py:273-290 | the change summary is the generic "更新了文档" exactly when the mode is not one of the five named modes |
| Content.ContentAgentNode | backend/app/agent/nodes/content.py:80-122 | a non-dict decision raises before the try; update_doc updates and every other action generates; success stores document, empty follow-ups and summary and announces the topic; GeneratorExit records the error and propagates; any other error records it with an apology |
| Content.FailureReported | backend/app/agent/nodes/content.py:115-120 | an ordinary failure sets the error, appends exactly one apology message, leaves every other key alone and does not propagate |
| Content.InterruptPropagates | backend/app/agent/nodes/content.py:103-114 | GeneratorExit records the interruption error, appends no message and propagates |
| Content.SuccessStoresDocument | backend/app/agent/nodes/content.py:88-101 | success stores the helper's document, an empty follow-up list and the change summary, and appends one message naming the document's topic |
| Content.FencedReplyDecodesBody | backend/app/agent/nodes/content.py:294-324 | a reply fenced as a json code block reaches the decoder as exactly the text between the tag and the closing fence |
| Content.ExtractionFailureIsEmpty | backend/app/agent/nodes/content.py:294-324 | entity and follow-up extraction never raise: a failed call or an undecodable reply gives [], and otherwise the decoded value is returned |
| AgentStreamingService.AgentStreamProcessor.constructor | backend/app/services/agent_streaming_service.py:51-57 | the processor serves the state's session and user, keeps the state and database it is given, starts from a fresh stream context and has sent nothing |
| AgentStreamingService.AgentStreamProcessor.Initialize | backend/app/services/agent_streaming_service.py:59-71 | the session is marked running (a failure only logged) and the thinking indicator is sent |
| AgentStreamingService.AgentStreamProcessor.PersistUserInput | backend/app/services/agent_streaming_service.py:73-82 | the raw message is stored as the user's message typed by its input source; a missing key raises |
| AgentStreamingService.AgentStreamProcessor.OnChainStart | backend/app/services/agent_streaming_service.py:115-144 | node_start is sent with the last segment of the event name; the start of content_agent without a placeholder then reads the title, raising after node_start when a truthy routing decision, or without a routing target a truthy intent, is not a dict, and otherwise sends document_start and stores a placeholder card whose id the context keeps |
| AgentStreamingService.AgentStreamProcessor.OnChainEnd | backend/app/services/agent_streaming_service.py:146-167 | node_end is sent; a dict output is merged into the state and the captured result, then content_agent with a document and post_process run their own steps |
| AgentStreamingService.AgentStreamProcessor.OnContentAgentEnd | backend/app/services/agent_streaming_service.py:225-282 | the document is persisted and recorded in the chat with its summary ("" when falsy), the placeholder completed, the card sent with entities [] and the id remembered, then post-processing announced; a summary that is a truthy list or dict makes the record raise, and the persisted document is rolled back with it |
| AgentStreamingService.AgentStreamProcessor.PersistEntities | backend/app/services/agent_streaming_service.py:310-319 | the entity block upserts the names and stores the list on the document in its own transaction; a value that is not a list of strings, and any failure of the upsert, leaves the store as it was and is only logged |
| AgentStreamingService.AgentStreamProcessor.PersistFollowUps | backend/app/services/agent_streaming_service.py:321-327 | the follow-up block stores the questions in its own transaction; a value that is not a list of dicts, or a flush that rejects one of its questions (a None question, a list or dict field), rolls it back and is only logged |
| AgentStreamingService.AgentStreamProcessor.OnPostProcessEnd | backend/app/services/agent_streaming_service.py:284-340 | without a document id nothing happens; a document value that is not a dict raises; otherwise entities and follow-ups are persisted, each when truthy, then the entities payload is sent, raising when the entities have no length, and then the follow-ups payload, raising when they have none |
| AgentStreamingService.AgentStreamProcessor.OnChatModelStart | backend/app/services/agent_streaming_service.py:169-175 | an LLM node_start is sent with the model, except for post_process |
| AgentStreamingService.AgentStreamProcessor.OnChatModelStream | backend/app/services/agent_streaming_service.py:177-189 | a truthy content_agent chunk outside post_process is added to the accumulated text and forwarded as a document token; every other chunk is dropped |
| AgentStreamingService.AgentStreamProcessor.OnChatModelEnd | backend/app/services/agent_streaming_service.py:191-196 | an LLM node_end is sent, except for post_process |
| AgentStreamingService.AgentStreamProcessor.OnToolStart | backend/app/services/agent_streaming_service.py:198-205 | tool_start is sent with the tool's short name and its input as text |
| AgentStreamingService.AgentStreamProcessor.OnToolEnd | backend/app/services/agent_streaming_service.py:207-214 | tool_end is sent with the tool's short name and its output as text |
| AgentStreamingService.AgentStreamProcessor.OnToolError | backend/app/services/agent_streaming_service.py:216-223 | an error naming the tool and its error, "Unknown error" by default, is sent |
| AgentStreamingService.AgentStreamProcessor.HandleEvent | backend/app/services/agent_streaming_service.py:97-113 | the event's kind picks one of the eight handlers, and a kind without one changes nothing |
| AgentStreamingService.AgentStreamProcessor.ProcessEvents | backend/app/services/agent_streaming_service.py:84-113 | the events are handled in the order the graph streams them, until a handler raises |
| AgentStreamingService.AgentStreamProcessor.MergeFallback | backend/app/services/agent_streaming_service.py:357-361 | each value captured while streaming fills a key the saved checkpoint lacks or holds as None |
| AgentStreamingService.AgentStreamProcessor.HandleError | backend/app/services/agent_streaming_service.py:398-407 | the placeholder card, when there is one, is deleted and the error is sent |
| AgentStreamingService.AgentStreamProcessor.HandleRoadmap | backend/app/services/agent_streaming_service.py:368-378 | the roadmap is stored and sent with the new id set on it |
| AgentStreamingService.AgentStreamProcessor.HandleNavigation | backend/app/services/agent_streaming_service.py:409-425 | a target that is not a dict raises; otherwise it is sent, and its message ("" when falsy) is recorded as a navigation message for its document id, the record raising on a truthy list or dict message or a list or dict id |
| AgentStreamingService.AgentStreamProcessor.HandleResponse | backend/app/services/agent_streaming_service.py:427-439 | a reply that is not a dict raises; otherwise its content is sent as it is, a content without a length (None, a boolean, a number) then raises, and the reply is recorded with its content ("" when falsy), its type ("chat" by default) and the turn's intent, the record raising on a truthy list or dict content or a None, list or dict type |
| AgentStreamingService.AgentStreamProcessor.HandleResults | backend/app/services/agent_streaming_service.py:368-386 | the roadmap, navigation and response are handled in that order, each only when its key is truthy |
| AgentStreamingService.AgentStreamProcessor.Conclude | backend/app/services/agent_streaming_service.py:388-396 | the streamed text is sent when there is no document and no response, and then done |
| AgentStreamingService.AgentStreamProcessor.Finalize | backend/app/services/agent_streaming_service.py:342-396 | the saved state is merged with the captured results, a truthy error is reported instead of done, and otherwise the results and the conclusion follow |
| AgentStreamingService.AgentStreamProcessor.Cleanup | backend/app/services/agent_streaming_service.py:441-451 | the session is set back to idle, a failure only logged |
| AgentStreamingService.AgentStreamProcessor.Attempt | backend/app/services/agent_streaming_service.py:458-462 | initialise, store the user's message, process the events and finalise, stopping at the first step that raises |
| AgentStreamingService.AgentStreamProcessor.Stream | backend/app/services/agent_streaming_service.py:453-479 | a raised error is reported to the client as "处理请求时出错: ..." and the session goes back to idle in every case |
| AgentStreamingFacts.LastSegmentFacts | backend/app/services/agent_streaming_service.py:118-202 | the short name is the part of the dotted name after its last '.', with no '.' in it, and the whole name when there is no '.' |
| AgentStreamingFacts.DocumentPersistedKeeps | backend/app/services/agent_streaming_service.py:229-240 | a successful document persist keeps the store invariants and returns the id of a stored document |
| AgentStreamingFacts.EntitiesPersistedKeeps | backend/app/services/agent_streaming_service.py:310-319 | the entity block keeps the store invariants, whether it succeeds or rolls back |
| AgentStreamingFacts.EntitiesPersistedLinks | backend/app/services/agent_streaming_service.py:311-317 | when the entity names are strings and the upsert succeeds, every name has its session entity linked to the document and the list is stored on the document |
| AgentStreamingFacts.FollowUpsPersistedKeeps | backend/app/services/agent_streaming_service.py:321-327 | the follow-up block keeps the store invariants, whether it succeeds or rolls back |
| AgentStreamingFacts.FollowUpsPersistedFacts | backend/app/services/agent_streaming_service.py:321-327 | only the follow-up table changes; when the value is a list of dicts whose every question the flush accepts, one record per question is appended in order, and in every other case the tables stay as they were |
| AgentStreamingFacts.NullQuestionRollsBack | backend/app/services/agent_streaming_service.py:321-327 | `[{"question": None}]` fails with "NOT NULL constraint failed: follow_up_questions.question" and stores nothing |
| AgentStreamingFacts.StatusSetKeeps | backend/app/services/agent_streaming_service.py:59-69 | a status update keeps the store invariants and, for an existing session, leaves it with that status |
| AgentStreamingFacts.ContentAgentEndedExtends | backend/app/services/agent_streaming_service.py:225-282 | the end of content_agent only appends to the outbox and keeps the state, captured result, text and placeholder; when it raises it changes nothing |
| AgentStreamingFacts.PostProcessEndedExtends | backend/app/services/agent_streaming_service.py:284-340 | the end of post_process only appends and leaves the state, the captured result, the text and the placeholder alone, whether or not it raises |
| AgentStreamingFacts.ChainEndedMerges | backend/app/services/agent_streaming_service.py:146-167 | a chain end first sends node_end; a dict output is merged into the state and the captured result, and any other output into neither, raising nothing |
| AgentStreamingFacts.EventHandledSound | backend/app/services/agent_streaming_service.py:97-223 | every handler keeps the store invariants, only appends to the outbox, never sends done, keeps the accumulated text equal to the tokens sent and sets the placeholder only from none to a real id |
| AgentStreamingFacts.EventsHandledSound | backend/app/services/agent_streaming_service.py:84-113 | the whole event loop has the same guarantees, whether or not a handler raised |
| AgentStreamingFacts.UnhandledIgnored | backend/app/services/agent_streaming_service.py:111-113 | an event of a kind without a handler changes nothing and raises nothing |
| AgentStreamingFacts.OnlyContentAgentStartCreates | backend/app/services/agent_streaming_service.py:123 | only the start of content_agent, when there is no placeholder yet, changes the placeholder |
| AgentStreamingFacts.PlaceholderAtMostOnce | backend/app/services/agent_streaming_service.py:84-140 | over a whole event stream the placeholder changes only from none to a real id and only if some event starts content_agent; one already there is never replaced |
| AgentStreamingFacts.ChainStartedPlaceholder | backend/app/services/agent_streaming_service.py:115-140 | the start of content_agent without a placeholder sends node_start and then document_start with the title, and appends one assistant placeholder card in the session whose id the context keeps; when reading the title raises, only node_start is sent and that error is raised; any other start sends only node_start and raises nothing |
| AgentStreamingFacts.DocTitleChoice | backend/app/services/agent_streaming_service.py:125-131 | the title is the routing target if truthy, else the intent target if truthy, else the raw message, and "新文档" without one; reading it raises exactly when a truthy routing decision is not a dict, or when there is no routing target and a truthy intent is not a dict |
| AgentStreamingFacts.EventTokens | backend/app/services/agent_streaming_service.py:177-189 | one event adds to the accumulated text exactly the text of a content_agent chunk outside post_process, and nothing otherwise |
| AgentStreamingFacts.EventsAccumulate | backend/app/services/agent_streaming_service.py:84-189 | when no handler raises, the accumulated text grows by exactly the content_agent chunks of the stream, in order |
| AgentStreamingFacts.ContentAgentEndedFacts | backend/app/services/agent_streaming_service.py:225-282 | it raises exactly when the input source is missing, the persist raises or the chat record rejects a truthy list or dict change summary, and then changes nothing; otherwise it sends the card with the stored id and entities [] and then the progress, and remembers the id |
| AgentStreamingFacts.DocumentRecordedCard | backend/app/services/agent_streaming_service.py:262-280 | the card sent for a persisted document carries its id and entities [], and the post-processing progress follows |
| AgentStreamingFacts.PostProcessEndedFacts | backend/app/services/agent_streaming_service.py:284-340 | without a document id it does nothing; a document value that is not a dict raises, changing nothing; otherwise it keeps the store invariants and sends the entities and then the follow-ups as given, whatever became of persisting them; entities without a length (None, a boolean, a number) raise right after their payload, so no follow-ups are sent, follow-ups without one raise after theirs, and nothing raises exactly when both have a length |
| AgentStreamingFacts.MergedFacts | backend/app/services/agent_streaming_service.py:355-361 | the merge keeps every key of both maps; a checkpoint value other than None wins, and the captured value is used exactly where the saved checkpoint lacks the key or holds None |
| AgentStreamingFacts.ErrorHandledFacts | backend/app/services/agent_streaming_service.py:398-407 | reporting an error deletes the placeholder card if there is one, keeps the store invariants and sends the error and nothing else |
| AgentStreamingFacts.FinalizedOnError | backend/app/services/agent_streaming_service.py:363-366 | a truthy error in the merged state is reported as the only payload, with no done |
| AgentStreamingFacts.RoadmapSentWithId | backend/app/services/agent_streaming_service.py:368-378 | the roadmap sent is the roadmap dict with "id" set to the id of the session's one active roadmap |
| AgentStreamingFacts.RoadmapHandledSound | backend/app/services/agent_streaming_service.py:368-378 | the roadmap step changes only the store and the outbox, soundly, and a failure changes nothing |
| AgentStreamingFacts.NavigationHandledFacts | backend/app/services/agent_streaming_service.py:409-425 | a target that is not a dict raises, changing nothing; otherwise it is sent, and the record raises, changing no table, exactly when the message is a truthy list or dict or the document id is a list or dict; otherwise one navigation message with the message text ("" when falsy), related to that document, is appended |
| AgentStreamingFacts.ResponseHandledFacts | backend/app/services/agent_streaming_service.py:427-439 | a reply that is not a dict raises, changing nothing; otherwise the content is sent as it is, and the step raises, changing no table, exactly when the content has no length, the stored content is a list or dict, or the type is None, a list or a dict; otherwise one message is appended with the content text, the type ("chat" by default) and the turn's intent |
| AgentStreamingFacts.ConcludedFacts | backend/app/services/agent_streaming_service.py:388-396 | a successful turn ends with the streamed text when nothing else answered, then done, last and once |
| AgentStreamingFacts.ResultsOrder | backend/app/services/agent_streaming_service.py:368-396 | the results go out in order: roadmap, navigation, response, each when truthy, then the streamed text when there is no document and no response, then done last and once; a step that raises stops them and no done is sent |
| AgentStreamingFacts.InitializedFacts | backend/app/services/agent_streaming_service.py:59-71 | initialising is sound and sends only the thinking indicator |
| AgentStreamingFacts.UserInputPersistedFacts | backend/app/services/agent_streaming_service.py:73-82 | storing the user's message is sound and sends nothing |
| AgentStreamingFacts.PreparedSound | backend/app/services/agent_streaming_service.py:458-461 | the steps before finalize are sound and their first payload is the thinking indicator |
| AgentStreamingFacts.FinalizedDone | backend/app/services/agent_streaming_service.py:342-396 | finalize keeps the store invariants and only appends; it sends done exactly when it succeeds, as its last payload and once; when it fails without raising, its last payload is the error |
| AgentStreamingFacts.AttemptedFacts | backend/app/services/agent_streaming_service.py:458-462 | the try block starts with the thinking indicator and succeeds exactly when the turn does |
| AgentStreamingFacts.ClosedFacts | backend/app/services/agent_streaming_service.py:463-467 | the error the try block raised is reported as the last payload and the session goes idle |
| AgentStreamingFacts.StreamedFacts | backend/app/services/agent_streaming_service.py:453-467 | after a whole turn the store invariants hold and the session is idle; the first payload is the thinking indicator; done is sent exactly when the turn succeeds, last and once, and otherwise the last payload is an error |
| PersistenceCoordinator.PersistUserMessage | backend/app/services/persistence_coordinator.py:17-36 | the content is stored as a user message of the session with the given type and document link, no intent or routing and no tokens |
| PersistenceCoordinator.PersistAssistantMessage | backend/app/services/persistence_coordinator.py:159-182 | the content is stored as an assistant message with the given type, document link, intent and routing, and no tokens |
| PersistenceCoordinator.CreatePlaceholderMessage | backend/app/services/persistence_coordinator.py:39-60 | one assistant document card with the generating text and no document link is appended and returned |
| PersistenceCoordinator.UpdatePlaceholderMessage | backend/app/services/persistence_coordinator.py:63-102 | the placeholder, when there is one, is completed and linked to the document; otherwise one new completed document card is added |
| PersistenceCoordinator.PlaceholderUpdatedOk | backend/app/services/persistence_coordinator.py:63-102 | with a placeholder id no message is added and only that message gets the completion text and the document link; without one exactly one new card carrying both is appended; the store invariants hold in both cases |
| PersistenceCoordinator.PersistDocument | backend/app/services/persistence_coordinator.py:105-156 | the document is stored and its id and topic returned, or the error is raised and the store rolled back to where it was |
| PersistenceCoordinator.PersistDocumentUpdates | backend/app/services/persistence_coordinator.py:118-127 | a dict with a truthy id and a content succeeds exactly when the id names a stored document, the session exists, the content is not None, a list or a dict and the change summary is not a truthy list or dict; it then bumps the version by one, replaces the content, records the change summary ("更新" when falsy), pins the document as current and reports its id and topic |
| PersistenceCoordinator.PersistDocumentCreateFails | backend/app/services/persistence_coordinator.py:128-150 | the create branch passes roadmap_id and milestone_id, which document creation does not declare, so it always raises a TypeError naming the first and creates nothing |
| PersistenceCoordinator.ValidateRoadmapDataIff | backend/app/services/persistence_coordinator.py:185-208 | validation accepts exactly a dict with a non-empty string goal and a list of milestones (an absent list reads as []), and returns that goal and list |
| PersistenceCoordinator.NormalizeMilestones | backend/app/services/persistence_coordinator.py:211-260 | the loop skips non-dict entries, fills the defaults, and supplies one milestone when none is left; the result is never empty |
| PersistenceCoordinator.KeptFacts | backend/app/services/persistence_coordinator.py:221-249 | each kept milestone comes from a dict entry and carries that entry's index as its id, so ids strictly increase and there are no more milestones than entries |
| PersistenceCoordinator.KeptCoversDicts | backend/app/services/persistence_coordinator.py:221-249 | every dict entry gives a kept milestone carrying its index |
| PersistenceCoordinator.KeptAllDicts | backend/app/services/persistence_coordinator.py:221-249 | when every entry is a dict, the ids are exactly 0, 1, ..., n - 1 |
| PersistenceCoordinator.TopicStringsNonEmpty | backend/app/services/persistence_coordinator.py:242 | the topics kept are only the truthy ones, as non-empty strings |
| PersistenceCoordinator.MilestoneOfFilled | backend/app/services/persistence_coordinator.py:238-243 | every built milestone has a non-empty title ("阶段 i+1" for a falsy one) and only non-empty topics |
| PersistenceCoordinator.NormalizedFacts | backend/app/services/persistence_coordinator.py:252-260 | the normalised list is the kept milestones, or the single default "开始学习" milestone with id 0 exactly when no entry was a dict |
| PersistenceCoordinator.NormalizedTitles | backend/app/services/persistence_coordinator.py:211-260 | every normalised milestone has a non-empty title and only non-empty topics |
| PersistenceCoordinator.PersistRoadmap | backend/app/services/persistence_coordinator.py:263-305 | the roadmap is validated, normalised and created with no parent, and its new id returned; a failure raises and leaves the store as it was |
| PersistenceCoordinator.RoadmapPersistedOk | backend/app/services/persistence_coordinator.py:263-305 | a stored roadmap is version 1 with no parent, becomes the session's only active roadmap and holds the normalised milestones, at least one; it fails exactly when validation fails or mermaid is neither a string nor None |
| RoadmapService.StatusByCount | backend/app/services/roadmap_service.py:19-45 | progress is a quarter per document, capped at 2.0 from eight documents on; a milestone is completed from four documents, active with one to three and locked with none |
| RoadmapService.ProgressMonotone | backend/app/services/roadmap_service.py:19-30 | more documents never lower a milestone's progress |
| RoadmapService.GroupDocuments | backend/app/services/roadmap_service.py:70-80 | one pass splits the roadmap's documents into groups by milestone id, each in document order, and the orphans with no milestone |
| RoadmapService.CoveredTopics | backend/app/services/roadmap_service.py:93-97 | the covered topics are the union of the group's entity sets, and the call fails at the first unhashable entity |
| RoadmapService.MilestoneEntry | backend/app/services/roadmap_service.py:86-111 | one milestone's entry is computed from the groups of the first pass, as if from the documents directly |
| RoadmapService.GetRoadmapProgress | backend/app/services/roadmap_service.py:48-122 | the progress report is computed from the roadmap's documents, or the call raises |
| RoadmapService.EntriesShape | backend/app/services/roadmap_service.py:86-111 | a report has one entry per milestone, in roadmap order, each the entry of that milestone |
| RoadmapService.EntryFacts | backend/app/services/roadmap_service.py:86-111 | an entry repeats its milestone's id and counts exactly the roadmap's documents under that id (none for an id that matches no group), with the progress and status that count gives |
| RoadmapService.ProgressReportFacts | backend/app/services/roadmap_service.py:48-122 | a successful report has one correct entry per milestone, counts the documents with no milestone as orphans, and gives the mean progress, between 0 and 2, with 0.0 when there are no milestones |
| RoadmapService.GroupMembers | backend/app/services/roadmap_service.py:61-80 | every document of a group belongs to the roadmap and carries that milestone id, and every orphan belongs to the roadmap and carries none |
| RoadmapService.CreateRoadmap | backend/app/services/roadmap_service.py:130-191 | the version is worked out, the session's active roadmaps are deactivated and the new one is inserted active with its new id |
| RoadmapService.RoadmapCreatedOk | backend/app/services/roadmap_service.py:151-180 | afterwards the new roadmap is the session's only active one; the other roadmaps of the session keep their fields but are inactive and other sessions' are untouched; the version is the parent's plus one when it exists and 1 otherwise; the user id defaults to 1 |
| RoadmapService.GetActiveRoadmap | backend/app/services/roadmap_service.py:194-213 | no active roadmap gives None, exactly one gives its id, and several raise |
| RoadmapService.ActiveRoadmapUnique | backend/app/services/roadmap_service.py:158-213 | over a valid store no session has two active roadmaps, so looking up the active one never raises |
| RoadmapService.UpdateRoadmap | backend/app/services/roadmap_service.py:251-283 | a missing id gives None and changes nothing; otherwise the given fields are replaced and the row returned |
| RoadmapService.RoadmapUpdatedOk | backend/app/services/roadmap_service.py:268-277 | an update of a missing id gives None; otherwise each given field is replaced and each None field kept, while version, activation and owner stay |
| WebSocketRoute.ConnectionManager.constructor | backend/app/api/routes/websocket.py:24-25 | the registry starts with no connection |
| WebSocketRoute.ConnectionManager.Connect | backend/app/api/routes/websocket.py:27-30 | the socket is accepted and registered for the session, replacing any earlier one |
| WebSocketRoute.ConnectionManager.Disconnect | backend/app/api/routes/websocket.py:32-35 | the session's entry is removed when it has one, and the registry is otherwise unchanged |
| WebSocketRoute.ConnectionManager.SendMessage | backend/app/api/routes/websocket.py:37-39 | only a registered session's socket receives the message, appended to what it was sent |
| WebSocketRoute.BuiltStateTurn | backend/app/api/routes/websocket.py:515-544 | the built state names the connection's session and user 1 |
| WebSocketRoute.OnChainStart | backend/app/api/routes/websocket.py:152-182 | node_start is sent with the short node name; the first content_agent start also sends document_start with the title and stores a placeholder card, whose id it keeps |
| WebSocketRoute.OnEvent | backend/app/api/routes/websocket.py:146-270 | the if/elif chain handles the eight event kinds and skips any other |
| WebSocketRoute.OnEvents | backend/app/api/routes/websocket.py:146-270 | the events are handled in stream order, until one's handling raises |
| WebSocketRoute.WriteDocument | backend/app/api/routes/websocket.py:298-320 | the method leaves the tables and returns the id that the write specification gives: a truthy id updates that document with the dict's content and the result's change summary, anything else creates a document with every argument the call passes; a missing content, an unknown id, or a value its column cannot store (a list or dict, or None in a NOT NULL column) raises and changes nothing |
| WebSocketRoute.FileDocument | backend/app/api/routes/websocket.py:327-367 | the document_ref message is stored with the result's change summary ("" only when the key is absent), then the placeholder is completed and linked, or a completed card is added; a summary that is None, a list or a dict raises and stores nothing |
| WebSocketRoute.OnDocument | backend/app/api/routes/websocket.py:294-383 | the write, the pin to the session and the chat side run as one transaction, rolled back as a whole when any of them raises (a NOT NULL failure of a None change summary included); otherwise the document payload is sent and the id kept for the background tasks |
| WebSocketRoute.OnNavigation | backend/app/api/routes/websocket.py:385-402 | the value is sent as the navigation data, then recorded as a navigation message with its message ("" only when absent); a value that is not a dict, or a message or document id its column cannot store, raises after the send and records nothing |
| WebSocketRoute.OnResponse | backend/app/api/routes/websocket.py:404-421 | a value that is not a dict raises before any send; otherwise the content is sent as it is and recorded in the chat with its type and the result's intent, a content or type that is None, a list or a dict raising after the send and recording nothing |
| WebSocketRoute.OnResult | backend/app/api/routes/websocket.py:275-444 | an error result ends the turn without done; otherwise the document, navigation and response blocks run, each raising as its specification says and stopping the rest, then the conclusion and the background tasks |
| WebSocketRoute.OnErrorResult | backend/app/api/routes/websocket.py:275-292 | the placeholder, when there is one, is deleted and the error value is sent as it is |
| WebSocketRoute.OnConclude | backend/app/api/routes/websocket.py:423-444 | the streamed text is sent when nothing else answered, then done, then the two background tasks start for a stored document |
| WebSocketRoute.OnTurn | backend/app/api/routes/websocket.py:124-444 | thinking, the user's message, the events and the result of the second graph run, up to the first step that raises, which includes the NOT NULL failure of a None change summary, message or content |
| WebSocketRoute.StreamAgentResponse | backend/app/api/routes/websocket.py:97-459 | the session is set running before the try block; a raised error, an IntegrityError of a rejected flush included, is reported as "处理请求时出错: ..." instead of done, and the session is set idle in every case |
| WebSocketRoute.OnText | backend/app/api/routes/websocket.py:468-546 | a text that does not parse is answered with one error and the loop goes on; a request gets its context loaded, its state built and its turn run, with every error of the turn reported as the streaming specification says |
| WebSocketRoute.OnRequest | backend/app/api/routes/websocket.py:546 | a parsed request runs one turn of the connection's session on its built state, as the streaming specification gives it, raised errors included |
| WebSocketRoute.WebSocketEndpoint | backend/app/api/routes/websocket.py:462-552 | the socket is connected, every received text is answered in order as the receive specification gives it, turns that raise included, and the registration is dropped at the end |
| WebSocketRouteFacts.DisconnectedFacts | backend/app/api/routes/websocket.py:32-35 | after a disconnect the session has no socket, every other session keeps its own, nothing is added, and a second disconnect changes nothing |
| WebSocketRouteFacts.ReconnectReplaces | backend/app/api/routes/websocket.py:27-35 | a connect replaces the session's socket, so its disconnect leaves the registry as if the session had never connected |
| WebSocketRouteFacts.MalformedRequestAnswered | backend/app/api/routes/websocket.py:471-479 | a text that does not parse gets exactly one error payload reading "Invalid request format: " and the parser's message, at the top level; the store is untouched and nothing runs |
| WebSocketRouteFacts.ContextFacts | backend/app/api/routes/websocket.py:488-512 | a failed read or a session without documents gives the empty context; otherwise the current document is the session's newest, the recent ids the first ten listed, and the topics those of every listed document in order |
| WebSocketRoute.ContextLoaded | backend/app/api/routes/websocket.py:488-512 | a failed read gives the empty context; a read with session documents gives the first one listed, a document of that session, as the current document and id, the recent ids of the listing and one topic per listed document |
| WebSocketRouteFacts.ReceivedKeeps | backend/app/api/routes/websocket.py:468-546 | one received text keeps every store invariant and the set of sessions, adds at least one payload, only appends background tasks, and leaves the session idle once a request was served |
| WebSocketRouteFacts.ServedKeeps | backend/app/api/routes/websocket.py:466-546 | the receive loop keeps every store invariant and the set of sessions, answers every text with at least one payload, and never takes back a payload or a started task |
| WebSocketRouteFacts.RequestFieldsFacts | backend/app/api/routes/websocket.py:515-530 | the request supplies the raw message, the session and user 1, and no roadmap or document list |
| WebSocketRouteFacts.ContextFieldsFacts | backend/app/api/routes/websocket.py:531-538 | the loaded context supplies the beginner level, the current document dict and id, and none of the message, user, intent, routing, error, roadmap or document-list keys |
| WebSocketRouteFacts.FreshFieldsFacts | backend/app/api/routes/websocket.py:518-543 | the remaining keys start with intent, routing decision and error None, and include no roadmap or document list |
| WebSocketRouteFacts.BuiltStateFacts | backend/app/api/routes/websocket.py:515-544 | the built state has user 1 at beginner level, no intent, routing decision or error, the loaded document, and no roadmap key and no document list |
| WebSocketRouteFacts.BuiltStateHasNoRoadmap | backend/app/api/routes/websocket.py:164-544 | with no roadmap key the router always sees has_roadmap false and the summary "无", and the document title is the raw message |
| WebSocketRouteFacts.NoRoadmapRouted | backend/app/agent/nodes/route.py:231-263 | a state with no roadmap and no intent or routing decision yet gives the router the raw message, no intent, has_roadmap false and the summary "无", and titles the document with the raw message |
| WebSocketRouteFacts.RouteForwardsSameTokens | backend/app/api/routes/websocket.py:210-227 | the route forwards a stream event exactly when the streaming service does, with the same run afterwards |
| WebSocketRouteFacts.RouteChainStartedPlaceholder | backend/app/api/routes/websocket.py:152-182 | a chain start sends node_start; the first content_agent start, when the title can be read, then sends document_start and appends one placeholder card whose id becomes the run's |
| WebSocketRouteFacts.RouteEventSound | backend/app/api/routes/websocket.py:146-270 | every event handler of the route keeps the store invariants, only appends, never sends done and keeps the text equal to the tokens sent |
| WebSocketRouteFacts.RouteEventsSound | backend/app/api/routes/websocket.py:146-270 | the event loop has the same guarantees as a whole, whether or not a handler raised |
| WebSocketRouteFacts.RouteEventTokens | backend/app/api/routes/websocket.py:210-227 | one event adds to the streamed text exactly its content_agent chunk and nothing else |
| WebSocketRouteFacts.RouteEventsAccumulate | backend/app/api/routes/websocket.py:146-227 | when no handler raises, the streamed text grows by exactly the content_agent chunks of the stream, in order |
| WebSocketRouteFacts.RouteOnlyContentAgentStartCreates | backend/app/api/routes/websocket.py:162 | only a content_agent start without a placeholder changes the placeholder |
| WebSocketRouteFacts.RoutePlaceholderAtMostOnce | backend/app/api/routes/websocket.py:146-182 | over the whole stream the placeholder changes only from none to a message id, only if some event starts content_agent, and once set it is never replaced |
| WebSocketRouteFacts.RoutePayloadsDiffer | backend/app/api/routes/websocket.py:203-259 | the route's LLM start always carries "model", even None, and its tool_end sends "" for any falsy output, unlike the message sender |
| WebSocketRouteFacts.CardCompletedKeeps | backend/app/api/routes/websocket.py:341-353 | completing a card in place adds or removes no message; the one with that id gets the text and the document link, and every invariant holds |
| WebSocketRouteFacts.DocumentWrittenFails | backend/app/api/routes/websocket.py:298-305 | an update fails exactly when the dict has no content, an id naming no stored document, a content that is None, a list or a dict, or when the change summary is a list or a dict |
| WebSocketRouteFacts.DocumentWrittenKeeps | backend/app/api/routes/websocket.py:297-320 | a successful write keeps the store invariants and names a stored document |
| WebSocketRouteFacts.DocumentWrittenUpdates | backend/app/api/routes/websocket.py:298-305 | an update bumps that document's version, replaces its content with the dict's text, keeps the rest of it and appends one history row whose summary is "更新" when the key is absent, NULL when it holds None and its text otherwise |
| WebSocketRouteFacts.DocumentWrittenCreates | backend/app/api/routes/websocket.py:306-320 | without a truthy id the write fails exactly when the topic or the content is None, a list or a dict, or the category path is a list or a dict; otherwise a new document is created at version 1 with the dict's topic and content and no parent |
| WebSocketRouteFacts.DocumentFiledKeeps | backend/app/api/routes/websocket.py:327-367 | the chat side fails exactly when the change summary is None, a list or a dict, with the NOT NULL error for None; otherwise it appends the document_ref message with that summary, then completes the placeholder or appends a completed card, changes no document and keeps every invariant |
| WebSocketRouteFacts.DocumentTransactionFacts | backend/app/api/routes/websocket.py:297-367 | the transaction fails exactly when the write fails, the session does not exist or the document_ref message cannot be stored, and then nothing is kept; a None change summary gives the NOT NULL error; otherwise the document is stored and pinned as the session's current one |
| WebSocketRouteFacts.DocumentTransactionKeeps | backend/app/api/routes/websocket.py:297-367 | a successful transaction keeps the store invariants and the set of sessions |
| WebSocketRouteFacts.LoadedDocumentRewritten | backend/app/api/routes/websocket.py:295-538 | a result that hands the loaded current document back unchanged, with a change summary that is a string or absent, rewrites it: same content and topic, version up by one and one more history row |
| WebSocketRouteFacts.LoadedDocumentNullSummaryFails | backend/app/api/routes/websocket.py:295-336 | a result that hands the loaded document back with a None change summary fails the document transaction with the NOT NULL error of messages.content, though the update itself succeeds, so nothing is kept |
| WebSocketRouteFacts.LoadedDocumentTurnFails | backend/app/api/routes/websocket.py:97-544 | a whole turn whose events went through and whose result hands the loaded document back with a None change summary, as the state the route builds starts it, sends after the events only the "处理请求时出错: " error with that NOT NULL message and no done, changes no document, leaves the session idle and starts no background task |
| WebSocketRouteFacts.RouteDocumentHandledFacts | backend/app/api/routes/websocket.py:294-383 | the document block raises exactly when the value is not a dict or the transaction fails, a None change summary included, and then changes nothing; otherwise it sends the document payload and keeps the stored id |
| WebSocketRouteFacts.RouteDocumentHandledSound | backend/app/api/routes/websocket.py:294-383 | the document block is sound and leaves the state and the streamed text alone |
| WebSocketRouteFacts.RouteNavigationHandledFacts | backend/app/api/routes/websocket.py:385-402 | the navigation payload is always sent with the value as its data; the block then raises, recording nothing, exactly when the value is not a dict, its message ("" only when absent) is None, a list or a dict (None with the NOT NULL error) or its document id is a list or a dict; otherwise one navigation message with that text and document is recorded |
| WebSocketRouteFacts.RouteResponseHandledFacts | backend/app/api/routes/websocket.py:404-421 | a value that is not a dict raises, changing nothing; otherwise the content is sent as it is, and the record raises, changing no table, exactly when the content or the type is None, a list or a dict (a None content with the NOT NULL error); otherwise one message with the content text, the type and the result's intent is recorded |
| WebSocketRouteFacts.RouteErrorHandledFacts | backend/app/api/routes/websocket.py:275-292 | on an error result no message with the placeholder's id remains, the error value is sent as it is as the last payload, nothing raises and no done is sent |
| WebSocketRouteFacts.RouteResultsOrder | backend/app/api/routes/websocket.py:294-431 | a result without an error sends the document, navigation and response, each when truthy, then the streamed text when there is no document and no response, then done last and once; a block that raises stops the rest and no done is sent |
| WebSocketRouteFacts.RoutePreparedSound | backend/app/api/routes/websocket.py:124-146 | the steps before the result are sound and their first payload is the thinking message at the top level |
| WebSocketRouteFacts.RouteAttemptedEnds | backend/app/api/routes/websocket.py:124-444 | the try block starts with the thinking payload; done is sent last and once exactly when it succeeds, and otherwise no done is sent and, unless something raised, the last payload is the error |
| WebSocketRouteFacts.RouteClosedFacts | backend/app/api/routes/websocket.py:446-459 | whatever was raised is reported last, and the session goes idle |
| WebSocketRouteFacts.RouteStreamedFacts | backend/app/api/routes/websocket.py:97-459 | the session is running during the turn and idle after it whatever happened, the store invariants hold, the first payload is the thinking indicator, and done is sent exactly when the turn succeeds, last and once; otherwise the last payload is an error |
| WebSocketRouteFacts.RouteLaunchesWhen | backend/app/api/routes/websocket.py:381-444 | the two background tasks start exactly when the turn succeeded with a truthy document id and content, both for that document and content |
| WebSocketRouteFacts.RouteLaunchesAfterDone | backend/app/api/routes/websocket.py:431-444 | the background tasks start only once done has been sent as the last payload |

## Left out

- Prompt text and the LLM provider: every LLM call is a parameter (its reply, or None when the call raised), and prompts are modelled only as far as the values the code puts into them.
- `json.loads`, `re.search` and pydantic validation: decoding is a `Decoder` parameter and request parsing a `RequestParser` parameter; the five strong patterns are literal-substring predicates ("contains A", or "A, then B later on the same line").
- `str()` of lists, dicts and floats: `Json.PyStr` gives them a fixed stand-in text, and only the text of None, booleans, integers and strings is exact.
- Dict key order: dicts are maps, so payload and state key order is not represented.
- `lower()` is ASCII lowering and `strip()` trims the Python whitespace set; no Unicode case folding.
- Clocks: `created_at`, `updated_at`, `timestamp` and `agent_started_at` come from a logical clock in the store, so "newest" is well defined; `time.monotonic` elapsed times are parameters or left out.
- SQLite column affinity and database ids that are not integers: a non-integer id finds no row (`PersistenceCoordinator.DocKey`).
- `update_message_content`, `update_message_document` and `delete_message` are called but not defined in `message_service.py`; they are modelled as store operations with their evident meaning (`MessageService.UpdateMessageContent`, `UpdateMessageDocument`, `DeleteMessage`).
- `update_document_roadmap` (called at `agent_streaming_service.py:297-308`) is not defined in `document_service.py`; that call always fails and is only logged, so the model leaves the tables unchanged there.
- `get_roadmap` and `list_session_roadmaps` are plain reads that no modelled operation calls.
- The LangGraph runtime: `astream_events`, the checkpointer object, `aget_state`, `ainvoke` and the `add_messages` reducer. The event stream is an input sequence, and the saved or re-invoked final state is an input map.
- The graph's unwired nodes: the planner, topic and post_process steps are modelled as standalone operations, though the graph as built never reaches them.
- Concurrency: the two background tasks are recorded as `Launch` values together with the point in the outbox where they start; their bodies and any interleaving are not modelled.
- WebSocket I/O failures and `WebSocketDisconnect` during a send: a send always succeeds, and the endpoint ends when the sequence of received texts ends.
- Whether the context read succeeds is a parameter (`loads`) of the endpoint; the reasons a read can fail are not modelled.
- Text literals that appear garbled by a wrong encoding in `websocket.py` are modelled as the Chinese text they encode.
- The chitchat node, configuration, logging, the auth stub, the REST routes and the database migrations.
- The tests in `backend/tests/test_llm_utils.py` that expect trailing-comma repair, a bracket scan and a "no valid JSON found" message: the code has none of these, and lemmas show that such text reaches the decoder unchanged.
- `AgentStreamingService.AgentStreamProcessor.constructor`, `WebSocketRoute.StreamAgentResponse`: both require the state's "session_id" to be a string and its "user_id" an integer, which the source reads without checking.
- `Planner.ModifyRoadmap`: the error text of a failed modification (`str(e)` of whatever the LLM call raised) is not modelled; only that an error is reported.
- `RoadmapService.ProgressReportFacts`: the overall progress is stated as the sum divided by the count, not as `mean * n == sum`.
- `AgentStreamingService.AgentStreamProcessor.PersistEntities`: an entities value that is a string or a dict is treated like any other value that is not a list of strings, and leaves the store unchanged. In the source, `upsert_entities` iterates over such a value, over its characters or its keys, and then stores it as the document's entity column. The model holds that column as a sequence of values and has no dict order.
- `DocumentService.SaveFollowUps`: when several questions cannot be written, the error is that of the first one; which of them the driver's batched insert reports is not modelled. The error is only logged, so no payload or table depends on it.
- SQL error texts: a NOT NULL failure is reported as "(sqlite3.IntegrityError) NOT NULL constraint failed: " and the column, and a binding failure as one fixed text. The driver's full message and its SQL echo are not modelled.
- Column storage: a number or a boolean in a text column is stored as its `str()` text, and a non-integer document id in a foreign key column is stored as NULL.
- `Classifier.Classify`: its `ensures` ties the method to the specification `ClassifySpec`; what the classification means is stated in `Classifier.ClassifyTiers`.

## Findings

| source | as written | input that shows it | evidently intended | confidence | as-written member | corrected member |
|---|---|---|---|---|---|---|
| backend/app/agent/llm_utils.py:34-37 | the fence body is trimmed before the first line is dropped, so when the opening fence has no language tag the first line of the body is dropped instead | a fence, then `{`, `"a": 1`, `}` on their own lines, then a closing fence: the decoder receives `"a": 1` and `}` | drop only a language tag line and keep every body line of an untagged fence | not executed | LlmUtils.UntaggedFenceDropsFirstLine | LlmUtils.UnfenceIntendedKeepsBody |
