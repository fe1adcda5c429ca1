/** The chunking configuration: a settings map and the name of the current
    strategy, held as module state in the source and modelled here as an
    immutable `State` that every operation takes and returns. */
module ChunkingConfig {
  import opened Wrappers
  import opened TextUtil

  /** A setting's value: the defaults use integers, one float, a model
      name and flags; updates may store any of these under any key. */
  datatype Value = IntValue(i: int) | RealValue(r: real) | StrValue(s: string) | BoolValue(b: bool)

  type Config = map<string, Value>

  const DefaultConfig: Config := map[
    "chunk_size" := IntValue(512),
    "overlap_size" := IntValue(50),
    "model_name" := StrValue("gpt-3.5-turbo"),
    "max_chunks_per_query" := IntValue(5),
    "min_chunk_score" := RealValue(0.7),
    "embedding_delay" := IntValue(1),
    "include_section_metadata" := BoolValue(true),
    "include_source_metadata" := BoolValue(true),
    "include_chunk_index" := BoolValue(true)
  ]

  /** One entry of the strategy table. Only the sliding window has a class
      behind it; the other two names are placeholders. */
  datatype Strategy = Strategy(className: string, description: string, pros: seq<string>, cons: seq<string>)

  /** The strategy names in the table's insertion order, which is the order
      the error message lists them in. */
  const StrategyNames: seq<string> := ["sliding_window", "semantic_chunking", "hierarchical_chunking"]

  const Strategies: map<string, Strategy> := map[
    "sliding_window" := Strategy(
      "SlidingWindowChunker",
      "Fixed-size chunks with overlapping content",
      ["Maintains context", "Consistent chunk sizes", "Good for most use cases"],
      ["May split sentences", "Fixed size regardless of content"]),
    "semantic_chunking" := Strategy(
      "SemanticChunker",
      "Chunks based on semantic boundaries",
      ["Respects content structure", "Better semantic coherence"],
      ["Variable chunk sizes", "More complex implementation"]),
    "hierarchical_chunking" := Strategy(
      "HierarchicalChunker",
      "Multiple granularity levels",
      ["Flexible retrieval", "Multiple detail levels"],
      ["Complex storage", "More processing overhead"])
  ]

  datatype State = State(config: Config, current: string)

  /** The module state at import time. */
  const Initial: State := State(DefaultConfig, "sliding_window")

  /** The current strategy names an entry of the table. */
  predicate Valid(st: State) {
    st.current in Strategies
  }

  lemma StrategyNamesAreKeys()
    ensures forall n :: n in Strategies <==> n in StrategyNames
  {
    assert StrategyNames[0] == "sliding_window";
    assert StrategyNames[1] == "semantic_chunking";
    assert StrategyNames[2] == "hierarchical_chunking";
  }

  /** The shipped defaults: 512-token chunks, a 50-token overlap and the
      gpt-3.5-turbo tokenizer, with the sliding window selected. */
  lemma Defaults()
    ensures Initial.config["chunk_size"] == IntValue(512)
    ensures Initial.config["overlap_size"] == IntValue(50)
    ensures Initial.config["model_name"] == StrValue("gpt-3.5-turbo")
    ensures Initial.config["overlap_size"].i < Initial.config["chunk_size"].i
    ensures Valid(Initial) && Strategies[Initial.current].className == "SlidingWindowChunker"
  {
  }

  // ---------------------------------------------------------------------
  // Operations.

  /** `get_chunking_config`: a copy of the stored settings. The copy is a
      value, so nothing done to it later can reach the stored map. */
  function GetChunkingConfig(st: State): (c: Config)
    ensures c.Keys == st.config.Keys
    ensures forall k :: k in c ==> c[k] == st.config[k]
  {
    st.config
  }

  /** `update_chunking_config(**kwargs)`: a dictionary merge. */
  function UpdateChunkingConfig(st: State, kwargs: map<string, Value>): (r: State)
    ensures r.current == st.current
    ensures r.config.Keys == st.config.Keys + kwargs.Keys
    ensures forall k :: k in kwargs ==> r.config[k] == kwargs[k]
    ensures forall k :: k in st.config && k !in kwargs ==> r.config[k] == st.config[k]
  {
    st.(config := st.config + kwargs)
  }

  /** Python's `repr` of a list of plain strings: `['a', 'b']`. */
  function ListRepr(xs: seq<string>): (r: string)
    ensures |r| >= 2 && r[0] == '[' && r[|r| - 1] == ']'
  {
    "[" + Join(", ", Quoted(xs)) + "]"
  }

  function Quoted(xs: seq<string>): (r: seq<string>)
    ensures |r| == |xs|
    ensures forall i :: 0 <= i < |xs| ==> r[i] == "'" + xs[i] + "'"
  {
    if |xs| == 0 then [] else ["'" + xs[0] + "'"] + Quoted(xs[1..])
  }

  /** The `ValueError` text for a name outside the table. */
  function UnknownStrategy(name: string): string {
    "Unknown strategy: " + name + ". Available: " + ListRepr(StrategyNames)
  }

  /** `set_chunking_strategy`: a name in the table becomes current, even
      one with no implementation; any other name raises and the state
      stays as it was. */
  function SetChunkingStrategy(st: State, name: string): (r: Result<State, string>)
    ensures r.Success? <==> name in Strategies
    ensures r.Success? ==> r.value.current == name && r.value.config == st.config
    ensures r.Failure? ==> "Unknown strategy: " + name <= r.error
  {
    if name in Strategies then Success(st.(current := name))
    else Failure(UnknownStrategy(name))
  }

  /** The module state after a call to `set_chunking_strategy`, whether or
      not it raised. */
  function AfterSet(st: State, name: string): (r: State)
    ensures name !in Strategies ==> r == st
    ensures name in Strategies ==> r.current == name
    ensures r.config == st.config
  {
    match SetChunkingStrategy(st, name)
    case Success(s) => s
    case Failure(_) => st
  }

  /** `get_current_strategy`: the table entry of the current name; defined
      only on valid states, which are all the reachable ones. */
  function GetCurrentStrategy(st: State): (s: Strategy)
    requires Valid(st)
    ensures s in Strategies.Values
    ensures exists n :: n in StrategyNames && s == Strategies[n]
  {
    StrategyNamesAreKeys();
    Strategies[st.current]
  }

  // ---------------------------------------------------------------------
  // Properties.

  /** The unknown-name error leaves the strategy unchanged, so the lookup
      after it returns what it returned before. */
  lemma FailedSetKeepsStrategy(st: State, name: string)
    requires Valid(st) && name !in Strategies
    ensures SetChunkingStrategy(st, name).Failure?
    ensures Valid(AfterSet(st, name))
    ensures GetCurrentStrategy(AfterSet(st, name)) == GetCurrentStrategy(st)
  {
  }

  /** After a successful switch the lookup returns the chosen entry. */
  lemma SetThenGet(st: State, name: string)
    requires name in Strategies
    ensures Valid(AfterSet(st, name))
    ensures GetCurrentStrategy(AfterSet(st, name)) == Strategies[name]
  {
  }

  /** The placeholder strategies are accepted like the implemented one. */
  lemma PlaceholdersAccepted(st: State)
    ensures SetChunkingStrategy(st, "semantic_chunking").Success?
    ensures SetChunkingStrategy(st, "hierarchical_chunking").Success?
    ensures GetCurrentStrategy(AfterSet(st, "semantic_chunking")).className == "SemanticChunker"
  {
  }

  lemma ListReprOfThree(a: string, b: string, c: string)
    ensures ListRepr([a, b, c]) == "[" + ("'" + a + "'") + ", " + ("'" + b + "'") + ", " + ("'" + c + "'") + "]"
  {
    var q := Quoted([a, b, c]);
    assert q == ["'" + a + "'", "'" + b + "'", "'" + c + "'"];
    assert q[1..] == ["'" + b + "'", "'" + c + "'"];
    assert q[1..][1..] == ["'" + c + "'"];
    assert Join(", ", q[1..]) == q[1] + ", " + q[2];
    assert Join(", ", q) == q[0] + ", " + (q[1] + ", " + q[2]);
  }

  /** The error message names the rejected strategy and lists the three
      known ones in table order. */
  lemma UnknownStrategyMessage(st: State, name: string)
    requires name !in Strategies
    ensures SetChunkingStrategy(st, name)
            == Failure("Unknown strategy: " + name + ". Available: "
                       + ("[" + "'sliding_window'" + ", " + "'semantic_chunking'" + ", " + "'hierarchical_chunking'" + "]"))
  {
    AvailableText();
  }

  lemma AvailableText()
    ensures ListRepr(StrategyNames)
            == "[" + "'sliding_window'" + ", " + "'semantic_chunking'" + ", " + "'hierarchical_chunking'" + "]"
  {
    ListReprOfThree("sliding_window", "semantic_chunking", "hierarchical_chunking");
    assert "'" + "sliding_window" + "'" == "'sliding_window'";
    assert "'" + "semantic_chunking" + "'" == "'semantic_chunking'";
    assert "'" + "hierarchical_chunking" + "'" == "'hierarchical_chunking'";
  }

  /** Updating twice merges both: later keys win. */
  lemma {:induction false} UpdateTwice(st: State, a: map<string, Value>, b: map<string, Value>)
    ensures UpdateChunkingConfig(UpdateChunkingConfig(st, a), b) == UpdateChunkingConfig(st, a + b)
  {
    var lhs := UpdateChunkingConfig(UpdateChunkingConfig(st, a), b);
    var rhs := UpdateChunkingConfig(st, a + b);
    assert lhs.config.Keys == rhs.config.Keys;
    forall k | k in lhs.config ensures lhs.config[k] == rhs.config[k] {
    }
    assert lhs.config == rhs.config;
  }

  /** An update with no keys changes nothing, and repeating an update
      changes nothing more. */
  lemma UpdateIdempotent(st: State, kwargs: map<string, Value>)
    ensures UpdateChunkingConfig(st, map[]) == st
    ensures UpdateChunkingConfig(UpdateChunkingConfig(st, kwargs), kwargs) == UpdateChunkingConfig(st, kwargs)
  {
    assert st.config + map[] == st.config;
    UpdateTwice(st, kwargs, kwargs);
    assert kwargs + kwargs == kwargs;
  }

  /** A configuration call, as a caller of the module issues it. */
  datatype Op = Update(kwargs: map<string, Value>) | SetStrategy(name: string)

  /** The state after a call; a rejected switch leaves it untouched. */
  function Step(st: State, op: Op): (r: State)
    ensures r.current == st.current || (op.SetStrategy? && r.current == op.name && op.name in Strategies)
  {
    match op
    case Update(kwargs) => UpdateChunkingConfig(st, kwargs)
    case SetStrategy(name) => AfterSet(st, name)
  }

  /** The state after a sequence of calls, in order. */
  function Run(st: State, ops: seq<Op>): (r: State)
    decreases |ops|
  {
    if |ops| == 0 then st else Run(Step(st, ops[0]), ops[1..])
  }

  /** Every state reachable from the import-time state names a known
      strategy, so the lookup in `get_current_strategy` never fails. */
  lemma {:induction false} RunKeepsValid(st: State, ops: seq<Op>)
    requires Valid(st)
    ensures Valid(Run(st, ops))
    decreases |ops|
  {
    if |ops| > 0 {
      RunKeepsValid(Step(st, ops[0]), ops[1..]);
    }
  }

  lemma ReachableValid(ops: seq<Op>)
    ensures Valid(Run(Initial, ops))
  {
    RunKeepsValid(Initial, ops);
  }

  /** Settings updates never move the strategy. */
  lemma {:induction false} RunSeparatesConcerns(st: State, ops: seq<Op>)
    requires forall i :: 0 <= i < |ops| ==> ops[i].Update?
    ensures Run(st, ops).current == st.current
    decreases |ops|
  {
    if |ops| > 0 {
      RunSeparatesConcerns(Step(st, ops[0]), ops[1..]);
    }
  }

  /** Strategy switches, accepted or rejected, never touch the settings. */
  lemma {:induction false} SwitchesKeepConfig(st: State, ops: seq<Op>)
    requires forall i :: 0 <= i < |ops| ==> ops[i].SetStrategy?
    ensures Run(st, ops).config == st.config
    decreases |ops|
  {
    if |ops| > 0 {
      SwitchesKeepConfig(Step(st, ops[0]), ops[1..]);
    }
  }
}
