/**
 * The agent workflow as built by `create_knowzero_graph`: six registered
 * nodes, a fixed entry, two conditional edges driven by the routing
 * functions, and three edges into END. The graph is a transition function
 * over node names; the state each step reads is a parameter.
 */
module Graph {
  import opened Wrappers
  import opened Json
  import Route

  /** The registered nodes, and END. */
  datatype Node =
    | InputNormalizer
    | IntentAgent
    | RouteAgent
    | ContentAgent
    | NavigatorAgent
    | ChitchatAgent
    | End

  /** `set_entry_point("input_normalizer")` */
  const Entry: Node := InputNormalizer

  /** The path map of the conditional edge out of intent_agent. */
  function IntentPathMap(name: string): Option<Node> {
    if name == "chitchat_agent" then Some(ChitchatAgent)
    else if name == "navigator_agent" then Some(NavigatorAgent)
    else if name == "route_agent" then Some(RouteAgent)
    else None
  }

  /** The path map of the conditional edge out of route_agent: "planner_agent" is sent to content_agent. */
  function DecisionPathMap(name: string): Option<Node> {
    if name == "navigator_agent" then Some(NavigatorAgent)
    else if name == "planner_agent" then Some(ContentAgent)
    else if name == "content_agent" then Some(ContentAgent)
    else None
  }

  /** The node that runs after `n`, given the state `n` left behind. */
  function Step(n: Node, values: map<string, Json>): (r: Node)
    requires n != End
  {
    match n
    case InputNormalizer => IntentAgent
    case IntentAgent => IntentPathMap(Route.RouteByIntent(values)).GetOr(End)
    case RouteAgent => DecisionPathMap(Route.RouteByDecision(values)).GetOr(End)
    case ContentAgent => End
    case NavigatorAgent => End
    case ChitchatAgent => End
  }

  /** The possible successors of each node. */
  function Successors(n: Node): set<Node> {
    match n
    case InputNormalizer => {IntentAgent}
    case IntentAgent => {ChitchatAgent, NavigatorAgent, RouteAgent}
    case RouteAgent => {NavigatorAgent, ContentAgent}
    case ContentAgent => {End}
    case NavigatorAgent => {End}
    case ChitchatAgent => {End}
    case End => {}
  }

  /** Every step goes to one of the listed successors: both routing functions' names are in their path maps. */
  lemma StepInSuccessors(n: Node, values: map<string, Json>)
    requires n != End
    ensures Step(n, values) in Successors(n)
  {
    Route.RouteByIntentCases(values);
    Route.RouteByDecisionCases(values);
  }

  /** Each listed successor of intent_agent is taken for some intent. */
  lemma IntentSuccessorsReached()
    ensures Step(IntentAgent, map["intent" := JObj(map["intent_type" := JStr("chitchat")])]) == ChitchatAgent
    ensures Step(IntentAgent, map["intent" := JObj(map["intent_type" := JStr("navigate")])]) == NavigatorAgent
    ensures Step(IntentAgent, map[]) == RouteAgent
  {
  }

  /** Plan decisions run content_agent: no planner node is registered. */
  lemma PlanRunsContentAgent(values: map<string, Json>)
    requires Route.RouteByDecision(values) == "planner_agent"
    ensures Step(RouteAgent, values) == ContentAgent
  {
  }

  /** intent_agent's next node is exactly what `route_by_intent` names. */
  lemma IntentStepFollowsRouteByIntent(values: map<string, Json>)
    ensures Step(IntentAgent, values) == ChitchatAgent <==> Route.RouteByIntent(values) == "chitchat_agent"
    ensures Step(IntentAgent, values) == NavigatorAgent <==> Route.RouteByIntent(values) == "navigator_agent"
    ensures Step(IntentAgent, values) == RouteAgent <==> Route.RouteByIntent(values) == "route_agent"
  {
    Route.RouteByIntentCases(values);
  }

  /** A rank that every step lowers: the graph has no cycle. */
  function Rank(n: Node): nat {
    match n
    case InputNormalizer => 4
    case IntentAgent => 3
    case RouteAgent => 2
    case ContentAgent => 1
    case NavigatorAgent => 1
    case ChitchatAgent => 1
    case End => 0
  }

  lemma StepLowersRank(n: Node, values: map<string, Json>)
    requires n != End
    ensures Rank(Step(n, values)) < Rank(n)
  {
    StepInSuccessors(n, values);
  }

  /**
   * The nodes a run starting at `n` visits before END, where `states[i]` is
   * the state left by the i-th visited node; a run stops early if the states
   * run out.
   */
  function Trace(n: Node, states: seq<map<string, Json>>): seq<Node>
    decreases |states|
  {
    if n == End then []
    else if states == [] then [n]
    else [n] + Trace(Step(n, states[0]), states[1..])
  }

  /** The node a run is at once its states are used up. */
  function Final(n: Node, states: seq<map<string, Json>>): Node
    decreases |states|
  {
    if n == End || states == [] then n
    else Final(Step(n, states[0]), states[1..])
  }

  /** A run visits at most `Rank(n)` nodes and never END itself. */
  lemma {:induction false} TraceBounded(n: Node, states: seq<map<string, Json>>)
    ensures |Trace(n, states)| <= Rank(n)
    ensures End !in Trace(n, states)
    decreases |states|
  {
    if n != End && states != [] {
      StepLowersRank(n, states[0]);
      TraceBounded(Step(n, states[0]), states[1..]);
    }
  }

  /** Given `Rank(n)` steps, every run has reached END. */
  lemma {:induction false} RunTerminates(n: Node, states: seq<map<string, Json>>)
    requires |states| >= Rank(n)
    ensures Final(n, states) == End
    decreases |states|
  {
    if n != End {
      StepLowersRank(n, states[0]);
      RunTerminates(Step(n, states[0]), states[1..]);
    }
  }

  /** Every run of the workflow visits at most four nodes, starting with the normalizer and then intent_agent, and ends. */
  lemma WorkflowRun(states: seq<map<string, Json>>)
    ensures |Trace(Entry, states)| <= 4
    ensures |states| >= 4 ==> Final(Entry, states) == End
    ensures states != [] ==>
      |Trace(Entry, states)| >= 2 && Trace(Entry, states)[0] == InputNormalizer && Trace(Entry, states)[1] == IntentAgent
  {
    TraceBounded(Entry, states);
    if |states| >= 4 {
      RunTerminates(Entry, states);
    }
    if states != [] {
      assert Trace(Entry, states) == [InputNormalizer] + Trace(IntentAgent, states[1..]);
      assert Trace(IntentAgent, states[1..])[0] == IntentAgent;
    }
  }

  /** The compiled graph, identified by the checkpointer object it was compiled with. */
  datatype CompiledGraph = CompiledGraph(checkpointer: nat)

  /** The module globals `_checkpointer` and `_graph`. */
  class GraphCache {
    var checkpointer: Option<nat>
    var graph: Option<CompiledGraph>
    /** The identity the next new checkpointer gets. */
    var nextCheckpointer: nat

    constructor ()
      ensures checkpointer == None && graph == None && nextCheckpointer == 0
    {
      checkpointer := None;
      graph := None;
      nextCheckpointer := 0;
    }

    /** `get_checkpointer` */
    method GetCheckpointer() returns (cp: nat)
      modifies this
      ensures old(checkpointer).Some? ==> cp == old(checkpointer).value && nextCheckpointer == old(nextCheckpointer)
      ensures old(checkpointer).None? ==> cp == old(nextCheckpointer) && nextCheckpointer == old(nextCheckpointer) + 1
      ensures checkpointer == Some(cp) && graph == old(graph)
    {
      if checkpointer.None? {
        checkpointer := Some(nextCheckpointer);
        nextCheckpointer := nextCheckpointer + 1;
      }
      cp := checkpointer.value;
    }

    /** `get_graph`: compiles once, then returns the cached graph. */
    method GetGraph() returns (g: CompiledGraph)
      modifies this
      ensures old(graph).Some? ==> g == old(graph).value && checkpointer == old(checkpointer)
                                   && nextCheckpointer == old(nextCheckpointer)
      ensures old(graph).None? ==> checkpointer.Some? && g == CompiledGraph(checkpointer.value)
      ensures graph == Some(g)
    {
      if graph.None? {
        var cp := GetCheckpointer();
        graph := Some(CompiledGraph(cp));
      }
      g := graph.value;
    }
  }

  /** Two calls give the same compiled graph. */
  method GetGraphTwice(cache: GraphCache) returns (g1: CompiledGraph, g2: CompiledGraph)
    modifies cache
    ensures g1 == g2
  {
    g1 := cache.GetGraph();
    g2 := cache.GetGraph();
  }
}
