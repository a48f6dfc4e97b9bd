/** The documents the front ends retrieve and what they share: a hit of the
    minutes index, the external (Tavily) documents with the summary first,
    the speaker and date phrases of the context texts, and the index search
    through the query expander and the embedding cache. */
module Documents {
  import opened Common
  import opened Text
  import opened EmbeddingCache
  import opened QueryRouting

  /** The selected fields of one hit of the minutes index; any of them may be
      absent (`None`). `score` is carried, never compared. */
  datatype IndexRow = IndexRow(
    documentId: Option<string>,
    speakerName: Option<string>,
    position: Option<string>,
    minutesDate: Option<string>,
    content: Option<string>,
    assemblyNumber: Option<string>,
    sessionNumber: Option<string>,
    minutesType: Option<string>,
    score: real)

  /** `external_summary` (the provider's own answer) or `external` (one web
      result). */
  datatype ExternalKind = Summary | Web

  /** A retrieved document, tagged by where it comes from. */
  datatype Doc =
    | Internal(row: IndexRow)
    | External(kind: ExternalKind, content: string, title: string, url: string, score: real)

  /** The `source_type` field. */
  function SourceType(d: Doc): (r: string)
    ensures r == "internal" <==> d.Internal?
    ensures StartsWith(r, "external") <==> d.External?
  {
    match d
    case Internal(_) => assert "internal"[0] != "external"[0]; "internal"
    case External(Summary, _, _, _, _) => "external_summary"
    case External(Web, _, _, _, _) => "external"
  }

  /** The `source_name` field. */
  function SourceName(d: Doc): string
  {
    match d
    case Internal(_) => "국회 회의록"
    case External(Summary, _, _, _, _) => "Tavily 요약"
    case External(Web, _, _, _, _) => "웹 검색"
  }

  predicate IsInternal(d: Doc)
  {
    SourceType(d) == "internal"
  }

  predicate IsExternal(d: Doc)
  {
    StartsWith(SourceType(d), "external")
  }

  /** Each document is internal or external, never both. */
  lemma SourceTypesPartition(d: Doc)
    ensures IsInternal(d) != IsExternal(d)
  {
  }

  // ---------------------------------------------------------------- phrases

  /** `f"{speaker_name} {position}" if position else speaker_name`. */
  function SpeakerInfo(row: IndexRow): string
  {
    if TruthyOpt(row.position) then Show(row.speakerName) + " " + row.position.value
    else Show(row.speakerName)
  }

  /** `_safe_date_format(date)`: a missing or empty date is read as
      "no date information"; any other value goes to the date formatter. */
  function SafeDate(format: string -> string, date: Option<string>): (r: string)
    ensures !TruthyOpt(date) ==> r == "날짜 정보 없음"
    ensures TruthyOpt(date) ==> r == format(date.value)
  {
    if TruthyOpt(date) then format(date.value) else "날짜 정보 없음"
  }

  // ---------------------------------------------------------------- external

  /** One item of the provider's `results` list. */
  datatype WebResult = WebResult(content: string, title: string, url: string, score: real)

  /** The provider's response: its optional `answer` and its `results`. */
  datatype SearchResponse = SearchResponse(answer: Option<string>, results: seq<WebResult>)

  /** A web-search client: query and `max_results` to a response or an
      error. */
  type WebClient = (string, nat) -> Result<SearchResponse, string>

  function WebDoc(w: WebResult): Doc
  {
    External(Web, w.content, w.title, w.url, w.score)
  }

  function SummaryDoc(query: string, answer: string): Doc
  {
    External(Summary, answer, query + "에 대한 요약 답변", "tavily_summary", 1.0)
  }

  /** `external_search` / `external_search_tool`: nothing without a client
      or on an error; otherwise the summary document (when the answer is
      non-empty) followed by one web document per result, in order. */
  function ExternalSearch(client: Option<WebClient>, query: string, k: nat): (r: seq<Doc>)
    ensures client.None? ==> r == []
    ensures client.Some? && client.value(query, k).Failure? ==> r == []
    ensures forall i :: 0 <= i < |r| ==> r[i].External?
    ensures forall i :: 0 < i < |r| ==> r[i].kind == Web
    ensures client.Some? && client.value(query, k).Success? ==>
      var resp := client.value(query, k).value;
      var lead := if TruthyOpt(resp.answer) then 1 else 0;
      |r| == lead + |resp.results| &&
      (lead == 1 ==> r[0] == SummaryDoc(query, resp.answer.value)) &&
      (forall j :: 0 <= j < |resp.results| ==> r[lead + j] == WebDoc(resp.results[j]))
  {
    match client
    case None => []
    case Some(search) =>
      match search(query, k)
      case Failure(_) => []
      case Success(resp) =>
        (if TruthyOpt(resp.answer) then [SummaryDoc(query, resp.answer.value)] else []) +
        seq(|resp.results|, j requires 0 <= j < |resp.results| => WebDoc(resp.results[j]))
  }

  /** The summary document, when present, is the first one and the only one. */
  lemma SummaryComesFirst(client: Option<WebClient>, query: string, k: nat)
    ensures var r := ExternalSearch(client, query, k);
      (exists i :: 0 <= i < |r| && r[i].kind == Summary) ==>
        r[0].kind == Summary && r[0].url == "tavily_summary" && r[0].score == 1.0 &&
        forall i :: 0 < i < |r| ==> r[i].kind != Summary
  {
    var r := ExternalSearch(client, query, k);
    if client.Some? && client.value(query, k).Success? {
      var resp := client.value(query, k).value;
      if !TruthyOpt(resp.answer) {
        assert forall i :: 0 <= i < |r| ==> r[i] == WebDoc(resp.results[i]);
      }
    }
  }

  // ---------------------------------------------------------------- internal

  /** A vector index: query vector and neighbour count to hits or an error. */
  type MinutesIndex = (Vector, nat) -> Result<seq<IndexRow>, string>

  /** The hits of one index search and the cache afterwards. */
  datatype Retrieved = Retrieved(rows: seq<IndexRow>, cache: CacheState)

  /** The index search of the front ends: expand the query, fetch its
      embedding through the cache and ask the index for `neighbours` hits.
      Any failure gives no hits; the cache keeps whatever the lookup did to
      it. */
  function SearchIndex(table: seq<Correction>, s: CacheState, maxSize: nat, embed: string -> Result<Vector, string>,
                       index: MinutesIndex, query: string, neighbours: nat): (r: Retrieved)
    ensures r.cache == Lookup(s, maxSize, Expand(table, query), embed).state
    ensures WellFormed(s, maxSize) ==> WellFormed(r.cache, maxSize)
    ensures r.rows != [] ==>
      exists v :: Lookup(s, maxSize, Expand(table, query), embed).result == Success(v) &&
        index(v, neighbours) == Success(r.rows)
    ensures var o := Lookup(s, maxSize, Expand(table, query), embed);
      o.result.Success? && index(o.result.value, neighbours).Success? ==>
        r.rows == index(o.result.value, neighbours).value
  {
    var o := Lookup(s, maxSize, Expand(table, query), embed);
    match o.result
    case Failure(_) => Retrieved([], o.state)
    case Success(v) =>
      match index(v, neighbours)
      case Success(rows) => Retrieved(rows, o.state)
      case Failure(_) => Retrieved([], o.state)
  }

  /** The same search on the cache object. */
  method SearchMinutes(cache: Cache, table: seq<Correction>, embed: string -> Result<Vector, string>,
                       index: MinutesIndex, query: string, neighbours: nat) returns (rows: seq<IndexRow>)
    requires cache.Valid()
    modifies cache
    ensures cache.Valid()
    ensures Retrieved(rows, cache.State()) ==
      SearchIndex(table, old(cache.State()), cache.maxSize, embed, index, query, neighbours)
  {
    var expanded := ExpandQuery(table, query);
    var vector, _ := cache.Get(expanded, embed);
    rows := [];
    if vector.Success? {
      var hits := index(vector.value, neighbours);
      if hits.Success? {
        rows := hits.value;
      }
    }
  }

  /** The internal documents made from hits, in order. */
  function InternalDocs(rows: seq<IndexRow>): (r: seq<Doc>)
    ensures |r| == |rows| && forall i :: 0 <= i < |r| ==> r[i] == Internal(rows[i])
  {
    seq(|rows|, i requires 0 <= i < |rows| => Internal(rows[i]))
  }
}
