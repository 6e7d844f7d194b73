/**
 * The per-turn agent state: the dict every graph node reads and updates in
 * place.  Messages in it are represented as dicts with a "type" ("human" or
 * "ai") and a "content".
 */
module AgentStateModel {
  import opened Json

  class AgentState {
    var values: map<string, Json>

    constructor (init: map<string, Json>)
      ensures values == init
    {
      values := init;
    }
  }

  function ChatMessage(kind: string, content: string): Json {
    JObj(map["type" := JStr(kind), "content" := JStr(content)])
  }

  /** `HumanMessage(content=...)` */
  function HumanMessage(content: string): Json {
    ChatMessage("human", content)
  }

  /** `AIMessage(content=...)` */
  function AIMessage(content: string): Json {
    ChatMessage("ai", content)
  }

  /** `state.get("messages", [])` must be a list for the nodes' `+ [message]` to succeed. */
  predicate MessagesOk(values: map<string, Json>) {
    "messages" !in values || values["messages"].JArr?
  }

  function MessagesOf(values: map<string, Json>): seq<Json> {
    if "messages" in values && values["messages"].JArr? then values["messages"].items else []
  }

  /** `state["messages"] = state.get("messages", []) + [m]` */
  function AppendMessage(values: map<string, Json>, m: Json): (r: map<string, Json>)
    requires MessagesOk(values)
    ensures MessagesOk(r) && MessagesOf(r) == MessagesOf(values) + [m]
    ensures r.Keys == values.Keys + {"messages"}
    ensures forall k :: k in values && k != "messages" ==> r[k] == values[k]
  {
    values["messages" := JArr(MessagesOf(values) + [m])]
  }

  /** The raw message, when present, is a string (the nodes call string methods on it). */
  predicate RawMessageIsText(values: map<string, Json>) {
    "raw_message" !in values || values["raw_message"].JStr?
  }

  /** `state.get("raw_message", "")` */
  function RawMessage(values: map<string, Json>): string {
    if "raw_message" in values then TextOf(values["raw_message"]) else ""
  }
}
