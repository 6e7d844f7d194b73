/**
 * The entry node of the agent graph: it fills defaults for missing or falsy
 * input fields and records a chat message as a human message.
 */
module InputNormalizer {
  import opened Json
  import opened AgentStateModel

  /** The five fields the node fills when they are missing or falsy. */
  predicate IsDefaulted(k: string) {
    k == "raw_message" || k == "user_level" || k == "learned_topics" || k == "recent_docs" || k == "metadata"
  }

  /** The value a defaulted field is given. */
  function DefaultFor(k: string): Json {
    if k == "raw_message" then JStr("")
    else if k == "user_level" then JStr("beginner")
    else if k == "metadata" then EmptyObj
    else EmptyArr
  }

  /** `if not state.get(k): state[k] = dflt` */
  function Defaulted(values: map<string, Json>, k: string, dflt: Json): map<string, Json> {
    if Truthy(Lookup(values, k, JNull)) then values else values[k := dflt]
  }

  function FillDefaults(values: map<string, Json>): map<string, Json> {
    var v1 := Defaulted(values, "raw_message", DefaultFor("raw_message"));
    var v2 := Defaulted(v1, "user_level", DefaultFor("user_level"));
    var v3 := Defaulted(v2, "learned_topics", DefaultFor("learned_topics"));
    var v4 := Defaulted(v3, "recent_docs", DefaultFor("recent_docs"));
    Defaulted(v4, "metadata", DefaultFor("metadata"))
  }

  /** `state.get("raw_message") and state.get("input_source") == "chat"` */
  predicate AppendsMessage(values: map<string, Json>) {
    Truthy(Lookup(values, "raw_message", JNull)) && Lookup(values, "input_source", JNull) == JStr("chat")
  }

  /** The state after the node. */
  function Normalized(values: map<string, Json>): map<string, Json>
    requires MessagesOk(values)
  {
    var d := FillDefaults(values);
    if AppendsMessage(d) then AppendMessage(d, HumanMessage(RawMessage(d))) else d
  }

  /** `input_normalizer_node`, updating the state dict in place. */
  method InputNormalizerNode(st: AgentState)
    requires MessagesOk(st.values)
    modifies st
    ensures st.values == Normalized(old(st.values))
  {
    DefaultField(st, "raw_message");
    DefaultField(st, "user_level");
    DefaultField(st, "learned_topics");
    DefaultField(st, "recent_docs");
    DefaultField(st, "metadata");
    if Truthy(Lookup(st.values, "raw_message", JNull)) && Lookup(st.values, "input_source", JNull) == JStr("chat") {
      st.values := AppendMessage(st.values, HumanMessage(RawMessage(st.values)));
    }
  }

  /** One `if not state.get(k): state[k] = default` step. */
  method DefaultField(st: AgentState, k: string)
    modifies st
    ensures st.values == Defaulted(old(st.values), k, DefaultFor(k))
  {
    if !Truthy(Lookup(st.values, k, JNull)) {
      st.values := st.values[k := DefaultFor(k)];
    }
  }

  /**
   * Each defaulted field ends up holding its old value when that was
   * truthy and its default otherwise; every other field is untouched.
   */
  lemma FillDefaultsFields(values: map<string, Json>)
    ensures forall k | IsDefaulted(k) ::
      Lookup(FillDefaults(values), k, JNull) ==
        (if Truthy(Lookup(values, k, JNull)) then values[k] else DefaultFor(k))
    ensures forall k | !IsDefaulted(k) :: Lookup(FillDefaults(values), k, JNull) == Lookup(values, k, JNull)
    ensures FillDefaults(values).Keys == values.Keys + {"raw_message", "user_level", "learned_topics", "recent_docs", "metadata"}
  {
    var v1 := Defaulted(values, "raw_message", DefaultFor("raw_message"));
    var v2 := Defaulted(v1, "user_level", DefaultFor("user_level"));
    var v3 := Defaulted(v2, "learned_topics", DefaultFor("learned_topics"));
    var v4 := Defaulted(v3, "recent_docs", DefaultFor("recent_docs"));
    var v5 := Defaulted(v4, "metadata", DefaultFor("metadata"));
    forall j
      ensures Lookup(v5, j, JNull) ==
        (if IsDefaulted(j) && !Truthy(Lookup(values, j, JNull)) then DefaultFor(j) else Lookup(values, j, JNull))
    {
      DefaultedLookup(values, "raw_message", j);
      DefaultedLookup(v1, "user_level", j);
      DefaultedLookup(v2, "learned_topics", j);
      DefaultedLookup(v3, "recent_docs", j);
      DefaultedLookup(v4, "metadata", j);
    }
  }

  /** One defaulting step changes only its own field, and only when that is falsy. */
  lemma DefaultedLookup(values: map<string, Json>, k: string, j: string)
    ensures Defaulted(values, k, DefaultFor(k)).Keys == values.Keys + {k}
    ensures Lookup(Defaulted(values, k, DefaultFor(k)), j, JNull) ==
      (if j == k && !Truthy(Lookup(values, k, JNull)) then DefaultFor(k) else Lookup(values, j, JNull))
  {
  }

  /** Filling defaults a second time changes nothing. */
  lemma FillDefaultsIdempotent(values: map<string, Json>)
    ensures FillDefaults(FillDefaults(values)) == FillDefaults(values)
  {
    var d := FillDefaults(values);
    FillDefaultsFields(values);
    FillDefaultsFields(d);
    var dd := FillDefaults(d);
    assert dd.Keys == d.Keys;
    forall k | k in d
      ensures dd[k] == d[k]
    {
      assert Lookup(dd, k, JNull) == Lookup(d, k, JNull);
    }
  }

  /** The message is appended exactly when the raw message is non-empty and the source is chat. */
  lemma NormalizedMessages(values: map<string, Json>)
    requires MessagesOk(values)
    ensures MessagesOk(Normalized(values))
    ensures AppendsMessage(values) ==>
      MessagesOf(Normalized(values)) == MessagesOf(values) + [HumanMessage(RawMessage(values))]
    ensures !AppendsMessage(values) ==> MessagesOf(Normalized(values)) == MessagesOf(values)
  {
    var d := FillDefaults(values);
    assert Lookup(d, "input_source", JNull) == Lookup(values, "input_source", JNull);
    assert Truthy(Lookup(d, "raw_message", JNull)) == Truthy(Lookup(values, "raw_message", JNull));
    assert AppendsMessage(values) ==> RawMessage(d) == RawMessage(values);
    assert MessagesOf(d) == MessagesOf(values);
  }

  /** Defaults are idempotent but the append is not: running the node twice records the message twice. */
  lemma NormalizeTwiceAppendsTwice(values: map<string, Json>)
    requires MessagesOk(values)
    requires AppendsMessage(values)
    ensures MessagesOk(Normalized(values))
    ensures MessagesOf(Normalized(Normalized(values))) ==
      MessagesOf(values) + [HumanMessage(RawMessage(values)), HumanMessage(RawMessage(values))]
  {
    NormalizedMessages(values);
    var once := Normalized(values);
    assert Lookup(once, "raw_message", JNull) == Lookup(values, "raw_message", JNull);
    assert Lookup(once, "input_source", JNull) == Lookup(values, "input_source", JNull);
    assert RawMessage(once) == RawMessage(values);
    NormalizedMessages(once);
  }
}
