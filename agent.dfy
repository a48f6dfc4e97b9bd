/** The agent front end: the shared agent state record, the four node
    functions (entry, strategy, search, answer) that each return the state
    with `step_count` one higher, the three routing functions with their
    step ceiling, and the graph entry -> strategy -> search -> answer run as
    a state machine. */
module Agent {
  import opened Common
  import opened Text
  import opened QueryRouting
  import opened EmbeddingCache
  import opened Documents

  /** A chat message: only whether it came from the user matters. */
  datatype Message = Human(content: string) | NonHuman(content: string)

  /** `AgentState`; `processing_info` (timing only) is not kept. */
  datatype AgentState = AgentState(
    messages: seq<Message>,
    query: string,
    searchStrategy: string,
    internalResults: seq<IndexRow>,
    externalResults: seq<Doc>,
    finalAnswer: string,
    stepCount: int)

  /** The outside world of the agent: the embedding provider, the minutes
      index, the optional web client, the answer generator (query, context)
      and the date formatter. */
  datatype AgentEnv = AgentEnv(
    embed: string -> Result<Vector, string>,
    index: MinutesIndex,
    web: Option<WebClient>,
    generate: (string, string) -> Result<string, string>,
    dateFormat: string -> string)

  /** The agent state together with the embedding cache of the shared
      search object, which the search node updates. */
  datatype World = World(state: AgentState, cache: CacheState)

  /** The state the driver starts from: one user message, everything else
      empty and `step_count` 0. */
  function InitialState(question: string): (r: AgentState)
    ensures r.messages == [Human(question)] && r.stepCount == 0
    ensures r.query == "" && r.searchStrategy == "" && r.finalAnswer == ""
    ensures r.internalResults == [] && r.externalResults == []
  {
    AgentState([Human(question)], "", "", [], [], "", 0)
  }

  const NoQuestion := "질문이 없습니다."
  const NoValidQuestion := "유효한 질문을 찾을 수 없습니다."
  const NoStrategy := "질문이 없어 전략을 결정할 수 없습니다."
  const MissingSearchInput := "검색에 필요한 정보가 부족합니다."
  const AnswerErrorPrefix := "답변 생성 중 오류가 발생했습니다: "

  // ---------------------------------------------------------------- nodes

  /** `entry_node`: take the query from the last message when the user sent
      it; otherwise say why there is no question. */
  function EntryStep(st: AgentState): (r: AgentState)
    ensures r.stepCount == st.stepCount + 1
    ensures r == st.(query := r.query, finalAnswer := r.finalAnswer, stepCount := r.stepCount)
    ensures st.messages == [] ==> r.finalAnswer == NoQuestion && r.query == st.query
    ensures st.messages != [] && st.messages[|st.messages| - 1].Human? ==>
      r.query == st.messages[|st.messages| - 1].content && r.finalAnswer == st.finalAnswer
    ensures st.messages != [] && !st.messages[|st.messages| - 1].Human? ==>
      r.finalAnswer == NoValidQuestion && r.query == st.query
  {
    if st.messages == [] then st.(finalAnswer := NoQuestion, stepCount := st.stepCount + 1)
    else
      match st.messages[|st.messages| - 1]
      case Human(q) => st.(query := q, stepCount := st.stepCount + 1)
      case NonHuman(_) => st.(finalAnswer := NoValidQuestion, stepCount := st.stepCount + 1)
  }

  /** `strategy_node`: classify a non-empty query with the agent's keyword
      lists. */
  function StrategyStep(st: AgentState): (r: AgentState)
    ensures r.stepCount == st.stepCount + 1
    ensures r == st.(searchStrategy := r.searchStrategy, finalAnswer := r.finalAnswer, stepCount := r.stepCount)
    ensures st.query == "" ==> r.finalAnswer == NoStrategy && r.searchStrategy == st.searchStrategy
    ensures st.query != "" ==>
      r.finalAnswer == st.finalAnswer && r.searchStrategy == StrategyName(Classify(AgentProfile, st.query)) &&
      r.searchStrategy in ["internal_only", "external_priority", "hybrid_balanced", "hybrid_internal_priority"]
  {
    if st.query == "" then st.(finalAnswer := NoStrategy, stepCount := st.stepCount + 1)
    else st.(searchStrategy := StrategyName(Classify(AgentProfile, st.query)), stepCount := st.stepCount + 1)
  }

  /** How many hits `search_node` asks each tool for; `internal_only` does
      not call the web tool. */
  datatype ToolCalls = ToolCalls(internalK: nat, externalK: Option<nat>)

  function SearchSizes(s: Strategy): ToolCalls
  {
    match s
    case InternalOnly => ToolCalls(5, None)
    case ExternalPriority => ToolCalls(2, Some(3))
    case HybridBalanced => ToolCalls(3, Some(2))
    case HybridInternalPriority => ToolCalls(4, Some(1))
  }

  /** `internal_search_tool(query, k)`: the index search through the
      agent's expander and the shared cache. */
  function InternalTool(env: AgentEnv, s: CacheState, maxSize: nat, query: string, k: nat): Retrieved
  {
    SearchIndex(AgentCorrections, s, maxSize, env.embed, env.index, query, k)
  }

  /** `search_node`: with a query and a strategy, call the tools with the
      strategy's sizes and store both lists as they come. */
  function SearchStep(env: AgentEnv, maxSize: nat, w: World): (r: World)
    ensures r.state.stepCount == w.state.stepCount + 1
    ensures r.state == w.state.(internalResults := r.state.internalResults, externalResults := r.state.externalResults,
                                finalAnswer := r.state.finalAnswer, stepCount := r.state.stepCount)
    ensures w.state.query == "" || w.state.searchStrategy == "" ==>
      r.state.finalAnswer == MissingSearchInput && r.cache == w.cache &&
      r.state.internalResults == w.state.internalResults && r.state.externalResults == w.state.externalResults
    ensures WellFormed(w.cache, maxSize) ==> WellFormed(r.cache, maxSize)
  {
    var st := w.state;
    if st.query == "" || st.searchStrategy == "" then
      World(st.(finalAnswer := MissingSearchInput, stepCount := st.stepCount + 1), w.cache)
    else
      var calls := SearchSizes(StrategyOf(st.searchStrategy));
      var hits := InternalTool(env, w.cache, maxSize, st.query, calls.internalK);
      var external := if calls.externalK.Some? then ExternalSearch(env.web, st.query, calls.externalK.value) else [];
      World(st.(internalResults := hits.rows, externalResults := external, stepCount := st.stepCount + 1), hits.cache)
  }

  /** The fixed sizes of each strategy: both lists are stored unmerged and
      untruncated, the web list only when the strategy asks the web. */
  lemma SearchStepSizes(env: AgentEnv, maxSize: nat, w: World)
    requires w.state.query != "" && w.state.searchStrategy != ""
    ensures SearchStep(env, maxSize, w).state.finalAnswer == w.state.finalAnswer
    ensures StrategyOf(w.state.searchStrategy) == InternalOnly ==>
      var r := SearchStep(env, maxSize, w);
      r.state.externalResults == [] && r.state.internalResults == InternalTool(env, w.cache, maxSize, w.state.query, 5).rows
    ensures StrategyOf(w.state.searchStrategy) == ExternalPriority ==>
      var r := SearchStep(env, maxSize, w);
      r.state.externalResults == ExternalSearch(env.web, w.state.query, 3) &&
      r.state.internalResults == InternalTool(env, w.cache, maxSize, w.state.query, 2).rows
    ensures StrategyOf(w.state.searchStrategy) == HybridBalanced ==>
      var r := SearchStep(env, maxSize, w);
      r.state.externalResults == ExternalSearch(env.web, w.state.query, 2) &&
      r.state.internalResults == InternalTool(env, w.cache, maxSize, w.state.query, 3).rows
    ensures StrategyOf(w.state.searchStrategy) == HybridInternalPriority ==>
      var r := SearchStep(env, maxSize, w);
      r.state.externalResults == ExternalSearch(env.web, w.state.query, 1) &&
      r.state.internalResults == InternalTool(env, w.cache, maxSize, w.state.query, 4).rows
  {
  }

  // ---------------------------------------------------------------- answer

  function AgentInternalBlock(format: string -> string, i: nat, row: IndexRow): string
  {
    "\n" + NatToString(i) + "번째 국회 회의록 정보:\n발언자: " + SpeakerInfo(row) + "\n회의일: " +
    SafeDate(format, row.minutesDate) + "\n내용: " + Show(row.content) + "\n"
  }

  /** The `title` of a result, or "제목 없음" for a document without one. */
  function Title(d: Doc): string
  {
    match d
    case Internal(_) => "제목 없음"
    case External(_, _, title, _, _) => title
  }

  function Content(d: Doc): string
  {
    match d
    case Internal(row) => Show(row.content)
    case External(_, content, _, _, _) => content
  }

  function AgentExternalBlock(i: nat, d: Doc): string
  {
    "\n" + NatToString(i) + "번째 웹 정보 (" + SourceName(d) + "):\n제목: " + Title(d) + "\n내용: " + Content(d) + "\n"
  }

  /** The internal block as a renderer for `Numbered`. */
  function InternalRender(format: string -> string): (nat, IndexRow) -> string
  {
    (i: nat, row: IndexRow) => AgentInternalBlock(format, i, row)
  }

  /** The blocks of the context of `answer_node`: one per result, the
      internal results first, numbered `1..n`, then the web results numbered
      `n+1..n+m`, each list in its own order. */
  function AgentBlocks(format: string -> string, internal: seq<IndexRow>, external: seq<Doc>): (r: seq<string>)
    ensures |r| == |internal| + |external|
    ensures forall j :: 0 <= j < |internal| ==> r[j] == AgentInternalBlock(format, j + 1, internal[j])
    ensures forall j :: 0 <= j < |external| ==> r[|internal| + j] == AgentExternalBlock(|internal| + 1 + j, external[j])
  {
    NumberedThenNumbered(internal, external, InternalRender(format), AgentExternalBlock);
    Numbered(internal, 1, InternalRender(format)) + Numbered(external, |internal| + 1, AgentExternalBlock)
  }

  /** The context of `answer_node`: the blocks joined by newlines. */
  function AgentContext(format: string -> string, internal: seq<IndexRow>, external: seq<Doc>): string
  {
    Join("\n", AgentBlocks(format, internal, external))
  }

  /** The two loops of `answer_node` that build the context. */
  method BuildAgentContext(format: string -> string, internal: seq<IndexRow>, external: seq<Doc>) returns (context: string)
    ensures context == AgentContext(format, internal, external)
  {
    var parts := AppendNumbered([], internal, 1, InternalRender(format));
    assert parts == Numbered(internal, 1, InternalRender(format));
    parts := AppendNumbered(parts, external, |internal| + 1, AgentExternalBlock);
    context := Join("\n", parts);
  }

  /** `answer_node`: the generator's answer over the context, or the error
      message when it fails. */
  function AnswerStep(env: AgentEnv, st: AgentState): (r: AgentState)
    ensures r.stepCount == st.stepCount + 1
    ensures r == st.(finalAnswer := r.finalAnswer, stepCount := r.stepCount)
    ensures var g := env.generate(st.query, AgentContext(env.dateFormat, st.internalResults, st.externalResults));
      (g.Success? ==> r.finalAnswer == g.value) && (g.Failure? ==> r.finalAnswer == AnswerErrorPrefix + g.error)
  {
    match env.generate(st.query, AgentContext(env.dateFormat, st.internalResults, st.externalResults))
    case Success(answer) => st.(finalAnswer := answer, stepCount := st.stepCount + 1)
    case Failure(e) => st.(finalAnswer := AnswerErrorPrefix + e, stepCount := st.stepCount + 1)
  }

  // ---------------------------------------------------------------- routing

  datatype Node = EntryNode | StrategyNode | SearchNode | AnswerNode

  /** The guard every routing function applies first. */
  const MaxSteps := 10

  /** `route_after_entry`: to the strategy node when the query is not blank. */
  function RouteAfterEntry(st: AgentState): (r: Option<Node>)
    ensures r.Some? ==> r.value == StrategyNode
    ensures st.stepCount > MaxSteps ==> r.None?
    ensures st.stepCount <= MaxSteps ==> (r.Some? <==> Strip(st.query) != "")
  {
    if st.stepCount > MaxSteps then None
    else if Truthy(st.query) && Truthy(Strip(st.query)) then Some(StrategyNode)
    else None
  }

  /** `route_after_strategy`: to the search node when a strategy is set. */
  function RouteAfterStrategy(st: AgentState): (r: Option<Node>)
    ensures r.Some? ==> r.value == SearchNode
    ensures st.stepCount > MaxSteps ==> r.None?
    ensures st.stepCount <= MaxSteps ==> (r.Some? <==> st.searchStrategy != "")
  {
    if st.stepCount > MaxSteps then None
    else if Truthy(st.searchStrategy) then Some(SearchNode)
    else None
  }

  /** `route_after_search`: to the answer node when either list has hits. */
  function RouteAfterSearch(st: AgentState): (r: Option<Node>)
    ensures r.Some? ==> r.value == AnswerNode
    ensures st.stepCount > MaxSteps ==> r.None?
    ensures st.stepCount <= MaxSteps ==> (r.Some? <==> st.internalResults != [] || st.externalResults != [])
  {
    if st.stepCount > MaxSteps then None
    else if st.internalResults != [] || st.externalResults != [] then Some(AnswerNode)
    else None
  }

  /** The graph's edges: the three conditional edges, and the answer node
      going to the end. */
  function Next(node: Node, st: AgentState): Option<Node>
  {
    match node
    case EntryNode => RouteAfterEntry(st)
    case StrategyNode => RouteAfterStrategy(st)
    case SearchNode => RouteAfterSearch(st)
    case AnswerNode => None
  }

  /** The same edges without the step ceiling. */
  function Wanted(node: Node, st: AgentState): Option<Node>
  {
    match node
    case EntryNode => if Strip(st.query) != "" then Some(StrategyNode) else None
    case StrategyNode => if st.searchStrategy != "" then Some(SearchNode) else None
    case SearchNode => if st.internalResults != [] || st.externalResults != [] then Some(AnswerNode) else None
    case AnswerNode => None
  }

  function Rank(node: Node): nat
  {
    match node
    case EntryNode => 0
    case StrategyNode => 1
    case SearchNode => 2
    case AnswerNode => 3
  }

  /** The nodes in graph order. */
  const Path: seq<Node> := [EntryNode, StrategyNode, SearchNode, AnswerNode]

  /** How the graph applies a node's returned state: `messages` goes
      through the channel's reducer `lambda x, y: x + y`, every other
      channel is replaced by the returned value. */
  function Merged(before: AgentState, update: AgentState): (r: AgentState)
    ensures r.messages == before.messages + update.messages
    ensures r.(messages := update.messages) == update
  {
    update.(messages := before.messages + update.messages)
  }

  /** One node and the graph's merge of what it returns. Every node returns
      `{**state, ...}`, so the message list is appended to itself. */
  function RunNode(env: AgentEnv, maxSize: nat, node: Node, w: World): (r: World)
    ensures r.state.stepCount == w.state.stepCount + 1
    ensures r.state.messages == w.state.messages + w.state.messages
    ensures WellFormed(w.cache, maxSize) ==> WellFormed(r.cache, maxSize)
  {
    var u := match node
      case EntryNode => World(EntryStep(w.state), w.cache)
      case StrategyNode => World(StrategyStep(w.state), w.cache)
      case SearchNode => SearchStep(env, maxSize, w)
      case AnswerNode => World(AnswerStep(env, w.state), w.cache);
    World(Merged(w.state, u.state), u.cache)
  }

  /** The end of a run and the nodes it went through, in order. */
  datatype Trace = Trace(world: World, visited: seq<Node>)

  /** One step of the driver: run `node`, then pick the next node by its
      edge (with the step ceiling when `guarded`, as the graph does). */
  function Step(env: AgentEnv, maxSize: nat, node: Node, w: World, guarded: bool): (r: (World, Option<Node>))
    ensures r.0.state.stepCount == w.state.stepCount + 1
    ensures |r.0.state.messages| == 2 * |w.state.messages|
    ensures forall m :: m in r.0.state.messages <==> m in w.state.messages
    ensures r.1.Some? ==> Rank(r.1.value) == Rank(node) + 1
    ensures WellFormed(w.cache, maxSize) ==> WellFormed(r.0.cache, maxSize)
  {
    var w' := RunNode(env, maxSize, node, w);
    (w', if guarded then Next(node, w'.state) else Wanted(node, w'.state))
  }

  /** Run the graph from `node` until an edge leads to the end. */
  function RunFrom(env: AgentEnv, maxSize: nat, node: Node, w: World, guarded: bool): (r: Trace)
    ensures r.visited != [] && r.visited[0] == node
    decreases 3 - Rank(node)
  {
    var (w', next) := Step(env, maxSize, node, w, guarded);
    match next
    case None => Trace(w', [node])
    case Some(n) =>
      var t := RunFrom(env, maxSize, n, w', guarded);
      Trace(t.world, [node] + t.visited)
  }

  /** What is left of a run when the next node is `next`. */
  function Continue(env: AgentEnv, maxSize: nat, next: Option<Node>, w: World): Trace
  {
    match next
    case None => Trace(w, [])
    case Some(n) => RunFrom(env, maxSize, n, w, true)
  }

  /** Running `node` and continuing from its edge is the run from `node`. */
  lemma {:induction false} ContinueUnfolds(env: AgentEnv, maxSize: nat, node: Node, w: World)
    ensures var w' := RunNode(env, maxSize, node, w);
      var t := Continue(env, maxSize, Next(node, w'.state), w');
      Continue(env, maxSize, Some(node), w) == Trace(t.world, [node] + t.visited)
  {
  }

  /** One turn of the driver's loop keeps "the nodes so far followed by the
      rest of the run are the whole run". */
  lemma {:induction false} DriverStep(env: AgentEnv, maxSize: nat, whole: Trace, visited: seq<Node>, node: Node, w: World, w': World)
    requires w' == RunNode(env, maxSize, node, w)
    requires var t := Continue(env, maxSize, Some(node), w); whole == Trace(t.world, visited + t.visited)
    ensures var t := Continue(env, maxSize, Next(node, w'.state), w');
      whole == Trace(t.world, (visited + [node]) + t.visited)
  {
    ContinueUnfolds(env, maxSize, node, w);
    var t := Continue(env, maxSize, Next(node, w'.state), w');
    assert visited + ([node] + t.visited) == (visited + [node]) + t.visited;
  }

  /** Every edge leads one node further along the graph. */
  lemma NextAdvances(node: Node, st: AgentState)
    ensures Next(node, st).Some? ==> Rank(Next(node, st).value) == Rank(node) + 1
  {
  }

  /** `graph.invoke(state)`. */
  function Invoke(env: AgentEnv, maxSize: nat, w: World): Trace
  {
    RunFrom(env, maxSize, EntryNode, w, true)
  }

  /** Every node of a run adds exactly one step, and a run from `node` visits
      at most the nodes from `node` to the answer node. */
  lemma {:induction false} RunCountsSteps(env: AgentEnv, maxSize: nat, node: Node, w: World, guarded: bool)
    ensures var t := RunFrom(env, maxSize, node, w, guarded);
      Rank(node) + |t.visited| <= 4 && t.world.state.stepCount == w.state.stepCount + |t.visited|
    decreases 3 - Rank(node)
  {
    var (w', next) := Step(env, maxSize, node, w, guarded);
    if next.Some? {
      RunCountsSteps(env, maxSize, next.value, w', guarded);
    }
  }

  /** The nodes of a run follow the graph in order. */
  lemma {:induction false} RunFollowsPath(env: AgentEnv, maxSize: nat, node: Node, w: World, guarded: bool)
    ensures var t := RunFrom(env, maxSize, node, w, guarded);
      forall i :: 0 <= i < |t.visited| ==> Rank(t.visited[i]) == Rank(node) + i
    decreases 3 - Rank(node)
  {
    var (w', next) := Step(env, maxSize, node, w, guarded);
    if next.Some? {
      var n := next.value;
      RunFollowsPath(env, maxSize, n, w', guarded);
      var t := RunFrom(env, maxSize, n, w', guarded);
      assert RunFrom(env, maxSize, node, w, guarded).visited == [node] + t.visited;
    }
  }

  /** `2 ** n`. */
  function Pow2(n: nat): nat
  {
    if n == 0 then 1 else 2 * Pow2(n - 1)
  }

  /** `l` doubled `n` times. */
  function Doubled(n: nat, l: nat): nat
  {
    if n == 0 then l else Doubled(n - 1, 2 * l)
  }

  /** Doubling `n` times multiplies by `2 ** n`. */
  lemma {:induction false} DoubledIsPow2(n: nat, l: nat)
    ensures Doubled(n, l) == Pow2(n) * l
  {
    if n > 0 {
      DoubledIsPow2(n - 1, 2 * l);
      var p := Pow2(n - 1);
      assert Pow2(n) == 2 * p;
      assert p * (2 * l) == (2 * p) * l;
    }
  }

  /** The reducer doubles the message list at every node: a run ends with its
      starting messages doubled once per node visited. */
  lemma {:induction false} RunDoublesMessages(env: AgentEnv, maxSize: nat, node: Node, w: World, guarded: bool)
    ensures var t := RunFrom(env, maxSize, node, w, guarded);
      |t.world.state.messages| == Doubled(|t.visited|, |w.state.messages|)
    decreases 3 - Rank(node)
  {
    var (w', next) := Step(env, maxSize, node, w, guarded);
    var l := |w.state.messages|;
    if next.Some? {
      RunDoublesMessages(env, maxSize, next.value, w', guarded);
      var k := |RunFrom(env, maxSize, next.value, w', guarded).visited|;
      assert |RunFrom(env, maxSize, node, w, guarded).visited| == k + 1;
      assert Doubled(k + 1, l) == Doubled(k, 2 * l);
    } else {
      assert Doubled(1, l) == 2 * l;
    }
  }

  /** The doubled list holds no message the run did not start with. */
  lemma {:induction false} RunKeepsMessages(env: AgentEnv, maxSize: nat, node: Node, w: World, guarded: bool)
    ensures var t := RunFrom(env, maxSize, node, w, guarded);
      forall m :: m in t.world.state.messages <==> m in w.state.messages
    decreases 3 - Rank(node)
  {
    var (w', next) := Step(env, maxSize, node, w, guarded);
    if next.Some? {
      RunKeepsMessages(env, maxSize, next.value, w', guarded);
    }
  }

  /** From the driver's initial state, a run ends with `2 ** n` copies of
      the question for the `n` nodes it visited: sixteen after a full run. */
  lemma InvokeMessages(env: AgentEnv, maxSize: nat, question: string, cache: CacheState)
    ensures var t := Invoke(env, maxSize, World(InitialState(question), cache));
      |t.world.state.messages| == Pow2(|t.visited|) &&
      (forall m :: m in t.world.state.messages ==> m == Human(question)) &&
      (|t.visited| == 4 ==> |t.world.state.messages| == 16)
  {
    var w := World(InitialState(question), cache);
    RunDoublesMessages(env, maxSize, EntryNode, w, true);
    RunKeepsMessages(env, maxSize, EntryNode, w, true);
    DoubledIsPow2(|Invoke(env, maxSize, w).visited|, 1);
  }

  /** The cache stays well formed through a run. */
  lemma {:induction false} RunKeepsCacheWellFormed(env: AgentEnv, maxSize: nat, node: Node, w: World, guarded: bool)
    requires WellFormed(w.cache, maxSize)
    ensures WellFormed(RunFrom(env, maxSize, node, w, guarded).world.cache, maxSize)
    decreases 3 - Rank(node)
  {
    var (w', next) := Step(env, maxSize, node, w, guarded);
    if next.Some? {
      RunKeepsCacheWellFormed(env, maxSize, next.value, w', guarded);
    }
  }

  /** A run of the graph visits a non-empty prefix of entry, strategy,
      search, answer, and ends with `step_count` raised by the number of
      nodes visited. */
  lemma InvokeVisitsPrefix(env: AgentEnv, maxSize: nat, w: World)
    ensures var t := Invoke(env, maxSize, w);
      1 <= |t.visited| <= 4 && t.visited <= Path &&
      t.world.state.stepCount == w.state.stepCount + |t.visited|
  {
    RunCountsSteps(env, maxSize, EntryNode, w, true);
    RunFollowsPath(env, maxSize, EntryNode, w, true);
    RanksFormPrefix(Invoke(env, maxSize, w).visited);
  }

  lemma RankLocatesNode(node: Node)
    ensures Rank(node) < |Path| && Path[Rank(node)] == node
  {
  }

  /** Nodes ranked 0, 1, 2, ... in turn are a prefix of the graph order. */
  lemma RanksFormPrefix(visited: seq<Node>)
    requires |visited| <= |Path|
    requires forall i :: 0 <= i < |visited| ==> Rank(visited[i]) == i
    ensures visited <= Path
  {
    forall i | 0 <= i < |visited| ensures visited[i] == Path[i] {
      RankLocatesNode(visited[i]);
    }
  }

  /** When every routing decision still to come is made at no more than ten
      steps, the guard never changes the run: from the entry node that means
      starting at most seven steps in. */
  lemma {:induction false} CeilingNotReached(env: AgentEnv, maxSize: nat, node: Node, w: World)
    requires w.state.stepCount + 3 - Rank(node) <= MaxSteps
    ensures RunFrom(env, maxSize, node, w, true) == RunFrom(env, maxSize, node, w, false)
    decreases 3 - Rank(node)
  {
    var w' := RunNode(env, maxSize, node, w);
    assert Next(node, w'.state) == Wanted(node, w'.state);
    if Next(node, w'.state).Some? {
      CeilingNotReached(env, maxSize, Next(node, w'.state).value, w');
    }
  }

  /** From the driver's initial state, a run takes at most four steps and
      the ceiling of ten is never what ends it. */
  lemma InitialRunIsShort(env: AgentEnv, maxSize: nat, question: string, cache: CacheState)
    ensures var t := Invoke(env, maxSize, World(InitialState(question), cache));
      t.world.state.stepCount <= 4 &&
      t == RunFrom(env, maxSize, EntryNode, World(InitialState(question), cache), false)
  {
    InvokeVisitsPrefix(env, maxSize, World(InitialState(question), cache));
    CeilingNotReached(env, maxSize, EntryNode, World(InitialState(question), cache));
  }

  /** A blank question ends the run at the entry node, leaving the answer
      empty. */
  lemma BlankQuestionStopsAtEntry(env: AgentEnv, maxSize: nat, question: string, cache: CacheState)
    requires Strip(question) == ""
    ensures var t := Invoke(env, maxSize, World(InitialState(question), cache));
      t.visited == [EntryNode] && t.world.state.finalAnswer == "" && t.world.state.stepCount == 1
  {
  }

  /** The answer node runs only when the search found something: otherwise
      the run ends after the search node. */
  lemma {:induction false} AnswerNeedsResults(env: AgentEnv, maxSize: nat, node: Node, w: World)
    requires node != AnswerNode || w.state.internalResults != [] || w.state.externalResults != []
    ensures var t := RunFrom(env, maxSize, node, w, true);
      AnswerNode in t.visited ==> t.world.state.internalResults != [] || t.world.state.externalResults != []
    decreases 3 - Rank(node)
  {
    var (w', next) := Step(env, maxSize, node, w, true);
    if node == AnswerNode {
      assert next.None?;
      assert w'.state.internalResults == w.state.internalResults && w'.state.externalResults == w.state.externalResults;
    } else if next.Some? {
      var t' := RunFrom(env, maxSize, next.value, w', true);
      assert RunFrom(env, maxSize, node, w, true) == Trace(t'.world, [node] + t'.visited);
      assert next.value == AnswerNode ==> node == SearchNode && RouteAfterSearch(w'.state).Some?;
      AnswerNeedsResults(env, maxSize, next.value, w');
    }
  }

  /** From the search node with the internal-only strategy, the web tool is
      never called and nothing later changes the strategy or the web list. */
  lemma SearchInternalOnly(env: AgentEnv, maxSize: nat, w: World)
    requires w.state.query != "" && w.state.searchStrategy == "internal_only"
    ensures var t := RunFrom(env, maxSize, SearchNode, w, true);
      t.world.state.searchStrategy == "internal_only" && t.world.state.externalResults == []
  {
    StrategyNameRoundTrip(InternalOnly);
    SearchStepSizes(env, maxSize, w);
  }

  /** A strategy node given a question the agent's classifier sends to the
      internal-only strategy goes on to the search node, which searches the
      minutes only. */
  lemma StrategyInternalOnly(env: AgentEnv, maxSize: nat, w: World)
    requires w.state.query != "" && Classify(AgentProfile, w.state.query) == InternalOnly
    requires w.state.stepCount < MaxSteps
    ensures var t := RunFrom(env, maxSize, StrategyNode, w, true);
      |t.visited| >= 2 && t.world.state.searchStrategy == "internal_only" && t.world.state.externalResults == []
  {
    var w' := RunNode(env, maxSize, StrategyNode, w);
    assert w'.state.searchStrategy == "internal_only";
    SearchInternalOnly(env, maxSize, w');
  }

  /** A question naming a member of the assembly (`국회의원`), with no
      surrounding blanks, reaches the search node with the internal-only
      strategy, and the web is never searched. */
  lemma MemberQuestionSearchesInternalOnly(env: AgentEnv, maxSize: nat, question: string, cache: CacheState)
    requires Contains(question, "국회의원") && !IsSpace(question[0]) && !IsSpace(question[|question| - 1])
    ensures var t := Invoke(env, maxSize, World(InitialState(question), cache));
      |t.visited| >= 3 && t.world.state.searchStrategy == "internal_only" && t.world.state.externalResults == []
  {
    MemberQueryIsInternalOnly(question);
    var w0 := World(InitialState(question), cache);
    var w1 := RunNode(env, maxSize, EntryNode, w0);
    EntryTakesQuestion(env, maxSize, question, cache);
    StrategyInternalOnly(env, maxSize, w1);
    var t := RunFrom(env, maxSize, StrategyNode, w1, true);
    assert Invoke(env, maxSize, w0) == Trace(t.world, [EntryNode] + t.visited);
  }

  /** The entry node takes a question without surrounding blanks from the
      initial state and routes it to the strategy node. */
  lemma EntryTakesQuestion(env: AgentEnv, maxSize: nat, question: string, cache: CacheState)
    requires question != [] && !IsSpace(question[0]) && !IsSpace(question[|question| - 1])
    ensures var w1 := RunNode(env, maxSize, EntryNode, World(InitialState(question), cache));
      w1.state.query == question && w1.state.stepCount == 1 && Next(EntryNode, w1.state) == Some(StrategyNode)
  {
    StripUnchanged(question);
  }

  // ---------------------------------------------------------------- the object

  /** The shared search object (its cache) and the graph driver. */
  class SearchAgents {
    const cache: Cache
    const env: AgentEnv

    ghost predicate Valid()
      reads this, cache
    {
      cache.Valid()
    }

    constructor(env: AgentEnv)
      ensures Valid() && fresh(cache) && cache.State() == EmptyCache && cache.maxSize == DefaultMaxSize
      ensures this.env == env
    {
      cache := new Cache(DefaultMaxSize);
      this.env := env;
    }

    /** `search_node`, calling the index through the cache object. */
    method Search(st: AgentState) returns (r: AgentState)
      requires Valid()
      modifies cache
      ensures Valid()
      ensures World(r, cache.State()) == SearchStep(env, cache.maxSize, World(st, old(cache.State())))
    {
      if st.query == "" || st.searchStrategy == "" {
        return st.(finalAnswer := MissingSearchInput, stepCount := st.stepCount + 1);
      }
      var calls := SearchSizes(StrategyOf(st.searchStrategy));
      var rows := SearchMinutes(cache, AgentCorrections, env.embed, env.index, st.query, calls.internalK);
      var external := if calls.externalK.Some? then ExternalSearch(env.web, st.query, calls.externalK.value) else [];
      r := st.(internalResults := rows, externalResults := external, stepCount := st.stepCount + 1);
    }

    /** `answer_node`, building the context with its two loops. */
    method Answer(st: AgentState) returns (r: AgentState)
      ensures r == AnswerStep(env, st)
    {
      var context := BuildAgentContext(env.dateFormat, st.internalResults, st.externalResults);
      var g := env.generate(st.query, context);
      if g.Success? {
        r := st.(finalAnswer := g.value, stepCount := st.stepCount + 1);
      } else {
        r := st.(finalAnswer := AnswerErrorPrefix + g.error, stepCount := st.stepCount + 1);
      }
    }

    /** One node of the graph on the object. */
    method RunOne(node: Node, st: AgentState) returns (r: AgentState)
      requires Valid()
      modifies cache
      ensures Valid()
      ensures World(r, cache.State()) == RunNode(env, cache.maxSize, node, World(st, old(cache.State())))
    {
      match node {
        case EntryNode => r := EntryStep(st);
        case StrategyNode => r := StrategyStep(st);
        case SearchNode => r := Search(st);
        case AnswerNode => r := Answer(st);
      }
      r := Merged(st, r);
    }

    /** The compiled graph's `invoke`: run nodes until a route says end. */
    method Run(init: AgentState) returns (final: AgentState, visited: seq<Node>)
      requires Valid()
      modifies cache
      ensures Valid()
      ensures Trace(World(final, cache.State()), visited) == Invoke(env, cache.maxSize, World(init, old(cache.State())))
    {
      ghost var whole := Invoke(env, cache.maxSize, World(init, cache.State()));
      var st := init;
      var node: Option<Node> := Some(EntryNode);
      visited := [];
      while node.Some?
        invariant Valid()
        invariant var t := Continue(env, cache.maxSize, node, World(st, cache.State()));
          whole == Trace(t.world, visited + t.visited)
        decreases if node.Some? then 4 - Rank(node.value) else 0
      {
        var current := node.value;
        ghost var before := World(st, cache.State());
        st := RunOne(current, st);
        DriverStep(env, cache.maxSize, whole, visited, current, before, World(st, cache.State()));
        NextAdvances(current, st);
        visited := visited + [current];
        node := Next(current, st);
      }
      final := st;
    }
  }
}
