/** The hybrid front end (`HybridInternalExternalRAG`): per-strategy
    retrieval from the minutes index and the web, the four merge policies,
    the numbered context text with its source counts, and the question
    pipeline of `ask`. */
module HybridRag {
  import opened Common
  import opened Text
  import opened QueryRouting
  import opened EmbeddingCache
  import opened Documents
  import opened RoundRobin

  // ---------------------------------------------------------------- strategies

  /** How many documents each source is asked for under a strategy;
      `internal_only` does not ask the web at all. */
  datatype Requests = Requests(internal: nat, external: Option<nat>)

  function RequestSizes(s: Strategy, k: nat): Requests
  {
    match s
    case InternalOnly => Requests(k, None)
    case ExternalPriority => Requests(k / 2, Some(k / 2 + 2))
    case HybridBalanced => Requests(k / 2, Some(k / 2))
    case HybridInternalPriority => Requests(k / 2 + 2, Some(k / 2))
  }

  /** The merge of each strategy. */
  function Merge(s: Strategy, k: nat, internal: seq<Doc>, external: seq<Doc>): seq<Doc>
  {
    match s
    case InternalOnly => internal
    case ExternalPriority => Take(external + internal, k)
    case HybridBalanced => Balanced(internal, external, k)
    case HybridInternalPriority => Take(internal + external, k)
  }

  /** The concatenating strategies keep at most `k` documents: the preferred
      source first, then the other, each in its own order. */
  lemma ConcatMergesTruncate(k: nat, internal: seq<Doc>, external: seq<Doc>)
    ensures var m := Merge(ExternalPriority, k, internal, external);
      |m| <= k && |m| == (if |internal| + |external| <= k then |internal| + |external| else k) &&
      (forall i :: 0 <= i < |m| && i < |external| ==> m[i] == external[i]) &&
      (forall i :: |external| <= i < |m| ==> m[i] == internal[i - |external|])
    ensures var m := Merge(HybridInternalPriority, k, internal, external);
      |m| <= k && |m| == (if |internal| + |external| <= k then |internal| + |external| else k) &&
      (forall i :: 0 <= i < |m| && i < |internal| ==> m[i] == internal[i]) &&
      (forall i :: |internal| <= i < |m| ==> m[i] == external[i - |internal|])
  {
  }

  /** With internal documents from the index and external ones from the web,
      the balanced merge lists a prefix of the internal documents in index
      order and a prefix of the external documents in provider order. */
  lemma BalancedKeepsOrder(rows: seq<IndexRow>, external: seq<Doc>, k: nat)
    requires forall i :: 0 <= i < |external| ==> external[i].External?
    ensures Filter(Balanced(InternalDocs(rows), external, k), IsInternal) <= InternalDocs(rows)
    ensures Filter(Balanced(InternalDocs(rows), external, k), IsExternal) <= external
  {
    var a := InternalDocs(rows);
    forall i | 0 <= i < |a| ensures IsInternal(a[i]) && !IsExternal(a[i]) {
      SourceTypesPartition(a[i]);
    }
    forall i | 0 <= i < |external| ensures !IsInternal(external[i]) && IsExternal(external[i]) {
      SourceTypesPartition(external[i]);
    }
    BalancedKeepsFirstOrder(a, external, k, IsInternal);
    BalancedKeepsSecondOrder(a, external, k, IsExternal);
  }

  // ---------------------------------------------------------------- environment

  /** The outside world of the front end: the embedding provider, the
      minutes index, the optional web client, the answer generator (query,
      context, strategy) and the date formatter. */
  datatype Env = Env(
    embed: string -> Result<Vector, string>,
    index: MinutesIndex,
    web: Option<WebClient>,
    generate: (string, string, string) -> Result<string, string>,
    dateFormat: string -> string)

  /** Documents found and the cache afterwards. */
  datatype Found = Found(docs: seq<Doc>, cache: CacheState)

  /** `hybrid_search(query, k, strategy)`: ask each source for its share
      under the strategy, then merge. */
  function HybridSearch(env: Env, s: CacheState, maxSize: nat, query: string, k: nat, strategy: string): (r: Found)
    ensures WellFormed(s, maxSize) ==> WellFormed(r.cache, maxSize)
  {
    var st := StrategyOf(strategy);
    var req := RequestSizes(st, k);
    var hits := SearchIndex(BaseCorrections, s, maxSize, env.embed, env.index, query, req.internal);
    var external := if req.external.Some? then ExternalSearch(env.web, query, req.external.value) else [];
    Found(Merge(st, k, InternalDocs(hits.rows), external), hits.cache)
  }

  /** `internal_only` returns the internal search unchanged and does not
      depend on the web client at all. */
  lemma InternalOnlyIgnoresWeb(env: Env, s: CacheState, maxSize: nat, query: string, k: nat)
    ensures var r := HybridSearch(env, s, maxSize, query, k, "internal_only");
      r == HybridSearch(env.(web := None), s, maxSize, query, k, "internal_only") &&
      r.docs == InternalDocs(SearchIndex(BaseCorrections, s, maxSize, env.embed, env.index, query, k).rows)
  {
  }

  /** What each strategy asks of each source and how it merges: the web is
      asked for `k//2 + 2` and the index for `k//2` under `external_priority`,
      both for `k//2` under `hybrid_balanced`, and the index for `k//2 + 2`
      and the web for `k//2` by default; the cache is that of the one
      lookup of the expanded query whatever the strategy. */
  lemma HybridSearchRequests(env: Env, s: CacheState, maxSize: nat, query: string, k: nat, strategy: string)
    ensures HybridSearch(env, s, maxSize, query, k, strategy).cache ==
      Lookup(s, maxSize, Expand(BaseCorrections, query), env.embed).state
    ensures StrategyOf(strategy) == ExternalPriority ==>
      HybridSearch(env, s, maxSize, query, k, strategy).docs ==
        Take(ExternalSearch(env.web, query, k / 2 + 2) +
             InternalDocs(SearchIndex(BaseCorrections, s, maxSize, env.embed, env.index, query, k / 2).rows), k)
    ensures StrategyOf(strategy) == HybridBalanced ==>
      HybridSearch(env, s, maxSize, query, k, strategy).docs ==
        Balanced(InternalDocs(SearchIndex(BaseCorrections, s, maxSize, env.embed, env.index, query, k / 2).rows),
                 ExternalSearch(env.web, query, k / 2), k)
    ensures StrategyOf(strategy) == HybridInternalPriority ==>
      HybridSearch(env, s, maxSize, query, k, strategy).docs ==
        Take(InternalDocs(SearchIndex(BaseCorrections, s, maxSize, env.embed, env.index, query, k / 2 + 2).rows) +
             ExternalSearch(env.web, query, k / 2), k)
  {
  }

  /** Only `hybrid_balanced` can return more than `k` documents, and by one
      at most (for `k >= 1`). */
  lemma HybridSearchLength(env: Env, s: CacheState, maxSize: nat, query: string, k: nat, strategy: string)
    requires k >= 1 && StrategyOf(strategy) != InternalOnly
    ensures |HybridSearch(env, s, maxSize, query, k, strategy).docs| <= k + 1
    ensures StrategyOf(strategy) != HybridBalanced ==> |HybridSearch(env, s, maxSize, query, k, strategy).docs| <= k
  {
    var st := StrategyOf(strategy);
    var req := RequestSizes(st, k);
    var hits := SearchIndex(BaseCorrections, s, maxSize, env.embed, env.index, query, req.internal);
    var external := if req.external.Some? then ExternalSearch(env.web, query, req.external.value) else [];
    BalancedLength(InternalDocs(hits.rows), external, k);
  }

  // ---------------------------------------------------------------- context

  function InternalBlock(format: string -> string, i: nat, row: IndexRow): string
  {
    "\n" + NatToString(i) + "번째 정보 - 국회 회의록에서 찾은 내용입니다.\n발언자: " + SpeakerInfo(row) +
    "\n회의일: " + SafeDate(format, row.minutesDate) +
    "\n회의: 제" + Show(row.assemblyNumber) + "대 국회 제" + Show(row.sessionNumber) + "회 " + Show(row.minutesType) +
    "\n내용: " + Show(row.content) + "\n"
  }

  function ExternalBlock(i: nat, d: Doc): string
    requires d.External?
  {
    "\n" + NatToString(i) + "번째 정보 - " + SourceName(d) + "에서 찾은 최신 정보입니다.\n제목: " + d.title +
    "\n내용: " + d.content + "\n"
  }

  /** The block of the `i`-th document, by its source type. */
  function Block(format: string -> string, i: nat, d: Doc): string
  {
    match d
    case Internal(row) => InternalBlock(format, i, row)
    case External(_, _, _, _, _) => ExternalBlock(i, d)
  }

  function SummaryLine(internalCount: nat, externalCount: nat): string
  {
    "\n검색 결과 요약: 국회 회의록 " + NatToString(internalCount) + "개, 최신 웹 정보 " +
    NatToString(externalCount) + "개를 찾았습니다.\n"
  }

  const NoInformation := "관련된 정보를 찾을 수 없습니다."

  /** The block renderer of the context, numbered from the given index. */
  function HybridRender(format: string -> string): (nat, Doc) -> string
  {
    (i: nat, d: Doc) => Block(format, i, d)
  }

  /** The blocks of the documents, numbered from 1, joined by newlines. */
  function HybridBlocks(format: string -> string, docs: seq<Doc>): string
  {
    Join("\n", Numbered(docs, 1, HybridRender(format)))
  }

  /** `parts[j]` is the block of `docs[j]`, numbered `j + 1`. */
  predicate BlocksOf(format: string -> string, docs: seq<Doc>, parts: seq<string>)
  {
    |parts| == |docs| && forall j :: 0 <= j < |docs| ==> parts[j] == Block(format, j + 1, docs[j])
  }

  /** `generate_accessible_context`: the summary line with the two counts,
      then the blocks numbered from 1 in input order, joined by newlines. */
  function HybridContext(format: string -> string, docs: seq<Doc>): (r: string)
    ensures docs == [] ==> r == NoInformation
    ensures docs != [] ==> StartsWith(r, SummaryLine(Count(docs, IsInternal), Count(docs, IsExternal)))
    ensures docs != [] ==>
      exists parts :: BlocksOf(format, docs, parts) &&
        r == SummaryLine(Count(docs, IsInternal), Count(docs, IsExternal)) + Join("\n", parts)
  {
    if docs == [] then NoInformation
    else
      var head := SummaryLine(Count(docs, IsInternal), Count(docs, IsExternal));
      var parts := Numbered(docs, 1, HybridRender(format));
      assert BlocksOf(format, docs, parts);
      StartsWithAppend(head, Join("\n", parts));
      head + Join("\n", parts)
  }

  /** Adding a document adds its block, numbered one past the others, after
      one more newline. */
  lemma HybridBlocksSnoc(format: string -> string, docs: seq<Doc>, d: Doc)
    requires docs != []
    ensures HybridBlocks(format, docs + [d]) == HybridBlocks(format, docs) + "\n" + Block(format, |docs| + 1, d)
  {
    var render := HybridRender(format);
    NumberedSnoc(docs, d, 1, render);
    JoinSnoc("\n", Numbered(docs, 1, render), render(1 + |docs|, d));
  }

  /** Adding a document raises the count of its source type by one and
      appends its block to the context. */
  lemma HybridContextSnoc(format: string -> string, docs: seq<Doc>, d: Doc)
    requires docs != []
    ensures HybridContext(format, docs + [d]) ==
      SummaryLine(Count(docs, IsInternal) + (if IsInternal(d) then 1 else 0),
                  Count(docs, IsExternal) + (if IsExternal(d) then 1 else 0)) +
      (HybridBlocks(format, docs) + "\n" + Block(format, |docs| + 1, d))
  {
    HybridBlocksSnoc(format, docs, d);
    CountSnoc(docs, d, IsInternal);
    CountSnoc(docs, d, IsExternal);
    var all := docs + [d];
    assert HybridContext(format, all) ==
      SummaryLine(Count(all, IsInternal), Count(all, IsExternal)) + HybridBlocks(format, all);
  }

  /** Every document is counted once, as internal or as external. */
  lemma {:induction false} ContextCountsCoverAll(docs: seq<Doc>)
    ensures Count(docs, IsInternal) + Count(docs, IsExternal) == |docs|
    decreases |docs|
  {
    if docs != [] {
      SourceTypesPartition(docs[0]);
      ContextCountsCoverAll(docs[1..]);
    }
  }

  lemma ContextStep(docs: seq<Doc>, i: nat, render: (nat, Doc) -> string)
    requires i < |docs|
    ensures Numbered(docs[..i + 1], 1, render) == Numbered(docs[..i], 1, render) + [render(i + 1, docs[i])]
    ensures Count(docs[..i + 1], IsInternal) == Count(docs[..i], IsInternal) + if IsInternal(docs[i]) then 1 else 0
    ensures Count(docs[..i + 1], IsExternal) == Count(docs[..i], IsExternal) + if IsExternal(docs[i]) then 1 else 0
  {
    assert docs[..i + 1] == docs[..i] + [docs[i]];
    CountAppend(docs[..i], [docs[i]], IsInternal);
    CountAppend(docs[..i], [docs[i]], IsExternal);
    NumberedSnoc(docs[..i], docs[i], 1, render);
  }

  /** The loop of `generate_accessible_context`. */
  method BuildHybridContext(format: string -> string, docs: seq<Doc>) returns (context: string)
    ensures context == HybridContext(format, docs)
  {
    if docs == [] {
      return NoInformation;
    }
    var render := HybridRender(format);
    var parts: seq<string> := [];
    var internalCount, externalCount := 0, 0;
    var i := 0;
    while i < |docs|
      invariant 0 <= i <= |docs|
      invariant parts == Numbered(docs[..i], 1, render)
      invariant internalCount == Count(docs[..i], IsInternal)
      invariant externalCount == Count(docs[..i], IsExternal)
    {
      var d := docs[i];
      ContextStep(docs, i, render);
      if IsInternal(d) {
        internalCount := internalCount + 1;
      } else if IsExternal(d) {
        externalCount := externalCount + 1;
      }
      parts := parts + [render(i + 1, d)];
      i := i + 1;
    }
    assert docs[..i] == docs;
    context := SummaryLine(internalCount, externalCount) + Join("\n", parts);
  }

  // ---------------------------------------------------------------- ask

  const NotFoundApology :=
    "죄송합니다. 질문과 관련된 정보를 찾을 수 없습니다. 다른 방식으로 질문해 주시거나, 더 구체적인 내용으로 다시 질문해 주세요."

  const GenerationApology := "죄송합니다. 답변을 생성하는 중에 문제가 발생했습니다. 다시 질문해 주시기 바랍니다."

  /** What `ask` returns; `generated` records whether the generator was
      asked. */
  datatype Reply = Reply(query: string, answer: string, sources: seq<Doc>, context: string,
                         strategy: string, generated: bool)

  /** A truthy forced strategy wins; otherwise the classifier decides. */
  function ChooseStrategy(force: Option<string>, query: string): (r: string)
    ensures TruthyOpt(force) ==> r == force.value
    ensures !TruthyOpt(force) ==> r == StrategyName(Classify(HybridProfile, query))
  {
    if TruthyOpt(force) then force.value else StrategyName(Classify(HybridProfile, query))
  }

  /** `ask(query, k, force_strategy)`. */
  function Ask(env: Env, s: CacheState, maxSize: nat, query: string, k: nat, force: Option<string>): (r: (Reply, CacheState))
    ensures WellFormed(s, maxSize) ==> WellFormed(r.1, maxSize)
  {
    var strategy := ChooseStrategy(force, query);
    var found := HybridSearch(env, s, maxSize, query, k, strategy);
    if found.docs == [] then
      (Reply(query, NotFoundApology, [], "", strategy, false), found.cache)
    else
      var context := HybridContext(env.dateFormat, found.docs);
      var answer := match env.generate(query, context, strategy)
        case Success(text) => text
        case Failure(_) => GenerationApology;
      (Reply(query, answer, found.docs, context, strategy, true), found.cache)
  }

  /** When nothing is found the reply is the fixed apology with no sources
      and the generator is not asked. Otherwise the sources are the merged
      documents, the context is built from them, and a successful generation
      is the answer. */
  lemma AskPaths(env: Env, s: CacheState, maxSize: nat, query: string, k: nat, force: Option<string>)
    ensures var (reply, _) := Ask(env, s, maxSize, query, k, force);
      var found := HybridSearch(env, s, maxSize, query, k, ChooseStrategy(force, query));
      reply.strategy == ChooseStrategy(force, query) &&
      (found.docs == [] ==>
        reply.answer == NotFoundApology && reply.sources == [] && reply.context == "" && !reply.generated) &&
      (found.docs != [] ==>
        reply.generated && reply.sources == found.docs && reply.context == HybridContext(env.dateFormat, found.docs) &&
        (env.generate(query, reply.context, reply.strategy).Success? ==>
          reply.answer == env.generate(query, reply.context, reply.strategy).value))
  {
  }

  /** The search does not consult the generator. */
  lemma SearchIgnoresGenerator(env: Env, g: (string, string, string) -> Result<string, string>, s: CacheState,
                               maxSize: nat, query: string, k: nat, strategy: string)
    ensures HybridSearch(env.(generate := g), s, maxSize, query, k, strategy) == HybridSearch(env, s, maxSize, query, k, strategy)
  {
    var env' := env.(generate := g);
    assert env'.embed == env.embed && env'.index == env.index && env'.web == env.web;
  }

  /** When nothing is found, the reply is the same whatever the generator
      would have said. */
  lemma NothingFoundIgnoresGenerator(env: Env, g: (string, string, string) -> Result<string, string>, s: CacheState,
                                     maxSize: nat, query: string, k: nat, force: Option<string>)
    requires HybridSearch(env, s, maxSize, query, k, ChooseStrategy(force, query)).docs == []
    ensures Ask(env.(generate := g), s, maxSize, query, k, force) == Ask(env, s, maxSize, query, k, force)
  {
    SearchIgnoresGenerator(env, g, s, maxSize, query, k, ChooseStrategy(force, query));
  }

  /** A forced strategy reaches the search unchanged; the classifier is only
      consulted without one. */
  lemma ForceOverridesClassifier(env: Env, s: CacheState, maxSize: nat, query: string, k: nat, st: Strategy)
    ensures Ask(env, s, maxSize, query, k, Some(StrategyName(st))).0.strategy == StrategyName(st)
    ensures StrategyOf(Ask(env, s, maxSize, query, k, Some(StrategyName(st))).0.strategy) == st
  {
    StrategyNameRoundTrip(st);
  }

  // ---------------------------------------------------------------- the object

  /** The front-end object: its cache and its outside world. */
  class Rag {
    const cache: Cache
    const env: Env

    ghost predicate Valid()
      reads this, cache
    {
      cache.Valid()
    }

    constructor(env: Env)
      ensures Valid() && fresh(cache) && cache.State() == EmptyCache && cache.maxSize == DefaultMaxSize
      ensures this.env == env
    {
      cache := new Cache(DefaultMaxSize);
      this.env := env;
    }

    /** `hybrid_search`, calling the index through the cache object and
        merging with the balanced loop where the strategy asks for it. */
    method HybridSearchDocs(query: string, k: nat, strategy: string) returns (docs: seq<Doc>)
      requires Valid()
      modifies cache
      ensures Valid()
      ensures Found(docs, cache.State()) == HybridSearch(env, old(cache.State()), cache.maxSize, query, k, strategy)
    {
      var st := StrategyOf(strategy);
      var req := RequestSizes(st, k);
      var rows := SearchMinutes(cache, BaseCorrections, env.embed, env.index, query, req.internal);
      var internal := InternalDocs(rows);
      var external := if req.external.Some? then ExternalSearch(env.web, query, req.external.value) else [];
      if st == HybridBalanced {
        docs := BalancedInterleave(internal, external, k);
      } else {
        docs := Merge(st, k, internal, external);
      }
    }

    /** `ask`: choose the strategy, search, and answer only when something
        was found. */
    method AskQuestion(query: string, k: nat, force: Option<string>) returns (reply: Reply)
      requires Valid()
      modifies cache
      ensures Valid()
      ensures (reply, cache.State()) == Ask(env, old(cache.State()), cache.maxSize, query, k, force)
    {
      var strategy := ChooseStrategy(force, query);
      var docs := HybridSearchDocs(query, k, strategy);
      if docs == [] {
        reply := Reply(query, NotFoundApology, [], "", strategy, false);
        return;
      }
      var context := BuildHybridContext(env.dateFormat, docs);
      var generated := env.generate(query, context, strategy);
      var answer := if generated.Success? then generated.value else GenerationApology;
      reply := Reply(query, answer, docs, context, strategy, true);
    }
  }
}
