/** The semantic-only front end (`AccessibleAssemblyMinutesRAG`): the
    top-k index search with a doubled candidate request, the spoken-style
    context text, the spoken summary of a result list and the question
    pipeline of `ask`. */
module NaiveRag {
  import opened Common
  import opened Text
  import opened QueryRouting
  import opened EmbeddingCache
  import opened Documents

  /** The outside world of this front end: the embedding provider, the
      minutes index, the answer generator (query, context) and the date
      formatter. */
  datatype NaiveEnv = NaiveEnv(
    embed: string -> Result<Vector, string>,
    index: MinutesIndex,
    generate: (string, string) -> Result<string, string>,
    dateFormat: string -> string)

  // ---------------------------------------------------------------- search

  /** `semantic_search_documents(query, k)`: ask the index for `2 * k`
      neighbours of the expanded query and keep the first `k` hits. */
  function SemanticSearch(env: NaiveEnv, s: CacheState, maxSize: nat, query: string, k: nat): (r: Retrieved)
    ensures var hits := SearchIndex(BaseCorrections, s, maxSize, env.embed, env.index, query, 2 * k);
      r.cache == hits.cache && r.rows <= hits.rows &&
      |r.rows| == (if |hits.rows| <= k then |hits.rows| else k)
    ensures WellFormed(s, maxSize) ==> WellFormed(r.cache, maxSize)
  {
    var hits := SearchIndex(BaseCorrections, s, maxSize, env.embed, env.index, query, 2 * k);
    Retrieved(Take(hits.rows, k), hits.cache)
  }

  /** Any failure on the way (the embedding provider, the eviction from an
      empty cache, the index) gives no hits at all. */
  lemma SemanticSearchFailures(env: NaiveEnv, s: CacheState, maxSize: nat, query: string, k: nat)
    ensures var o := Lookup(s, maxSize, Expand(BaseCorrections, query), env.embed);
      o.result.Failure? ==> SemanticSearch(env, s, maxSize, query, k).rows == []
    ensures var o := Lookup(s, maxSize, Expand(BaseCorrections, query), env.embed);
      o.result.Success? && env.index(o.result.value, 2 * k).Failure? ==> SemanticSearch(env, s, maxSize, query, k).rows == []
  {
  }

  // ---------------------------------------------------------------- context

  const NoMinutes := "관련된 회의록을 찾을 수 없습니다."

  /** The spoken block of the `i`-th hit. */
  function NaiveBlock(format: string -> string, i: nat, row: IndexRow): string
  {
    "\n" + NatToString(i) + "번째 관련 발언입니다.\n발언자는 " + SpeakerInfo(row) + "이고, " +
    SafeDate(format, row.minutesDate) + "에 열린 제" + Show(row.assemblyNumber) + "대 국회 제" +
    Show(row.sessionNumber) + "회 " + Show(row.minutesType) + "에서의 발언입니다.\n발언 내용: " +
    Show(row.content) + "\n"
  }

  /** The blocks of the hits, numbered by position. */
  function NaiveRender(format: string -> string): (nat, IndexRow) -> string
  {
    (i: nat, row: IndexRow) => NaiveBlock(format, i, row)
  }

  /** `generate_accessible_context`: a fixed sentence for no hits, otherwise
      one block per hit, numbered from 1 in order, joined by newlines. */
  function NaiveContext(format: string -> string, rows: seq<IndexRow>): (r: string)
    ensures rows == [] ==> r == NoMinutes
    ensures |rows| == 1 ==> r == NaiveBlock(format, 1, rows[0])
    ensures |rows| >= 1 ==> StartsWith(r, NaiveBlock(format, 1, rows[0]))
  {
    if rows == [] then NoMinutes
    else
      var blocks := Numbered(rows, 1, NaiveRender(format));
      JoinStartsWithFirst("\n", blocks);
      Join("\n", blocks)
  }

  /** The loop of `generate_accessible_context`. */
  method BuildNaiveContext(format: string -> string, rows: seq<IndexRow>) returns (context: string)
    ensures context == NaiveContext(format, rows)
  {
    if rows == [] {
      return NoMinutes;
    }
    var parts := AppendNumbered([], rows, 1, NaiveRender(format));
    assert parts == Numbered(rows, 1, NaiveRender(format));
    context := Join("\n", parts);
  }

  /** Adding a hit adds its block, numbered one past the others, after one
      more newline. */
  lemma NaiveContextSnoc(format: string -> string, rows: seq<IndexRow>, row: IndexRow)
    requires rows != []
    ensures NaiveContext(format, rows + [row]) ==
      NaiveContext(format, rows) + "\n" + NaiveBlock(format, |rows| + 1, row)
  {
    var render := NaiveRender(format);
    NumberedSnoc(rows, row, 1, render);
    JoinSnoc("\n", Numbered(rows, 1, render), render(1 + |rows|, row));
  }

  // ---------------------------------------------------------------- spoken summary

  const NoResults := "검색 결과가 없습니다."

  /** The distinct truthy speaker names of the hits. */
  function SpeakerSet(rows: seq<IndexRow>): (r: set<string>)
    ensures forall i :: 0 <= i < |rows| && TruthyOpt(rows[i].speakerName) ==> rows[i].speakerName.value in r
    decreases |rows|
  {
    if rows == [] then {}
    else
      var last := rows[|rows| - 1];
      SpeakerSet(rows[..|rows| - 1]) + (if TruthyOpt(last.speakerName) then {last.speakerName.value} else {})
  }

  /** The formatted truthy dates of the hits, in hit order. */
  function DateList(format: string -> string, rows: seq<IndexRow>): (r: seq<string>)
    ensures forall i :: 0 <= i < |rows| && TruthyOpt(rows[i].minutesDate) ==> format(rows[i].minutesDate.value) in r
    decreases |rows|
  {
    if rows == [] then []
    else
      var last := rows[|rows| - 1];
      DateList(format, rows[..|rows| - 1]) + (if TruthyOpt(last.minutesDate) then [format(last.minutesDate.value)] else [])
  }

  function Elements(xs: seq<string>): set<string>
  {
    set x | x in xs
  }

  function CountSentence(n: nat): string
  {
    "총 " + NatToString(n) + "개의 관련 발언을 찾았습니다."
  }

  /** The speaker sentence over `list(speakers)`, naming its first three
      names. */
  function SpeakerSentence(order: seq<string>): string
  {
    if |order| > 3 then "주요 발언자는 " + Join(", ", Take(order, 3)) + " 등입니다."
    else "발언자는 " + Join(", ", Take(order, 3)) + "입니다."
  }

  /** The date sentence over the distinct dates; `sorted(dates)` is only
      read at its two ends. */
  function DateSentence(dates: seq<string>): string
    requires dates != []
  {
    if |Elements(dates)| > 1 then "회의 기간은 " + LexMin(dates) + "부터 " + LexMax(dates) + "까지입니다."
    else "회의일은 " + dates[0] + "입니다."
  }

  /** `voice_friendly_summary(documents)`, for the iteration order `order`
      of the speaker set. */
  function VoiceSummary(format: string -> string, rows: seq<IndexRow>, order: seq<string>): (r: string)
    requires Enumerates(order, SpeakerSet(rows))
    ensures rows == [] ==> r == NoResults
    ensures rows != [] ==> StartsWith(r, CountSentence(|rows|))
  {
    if rows == [] then NoResults
    else
      var dates := DateList(format, rows);
      var parts := [CountSentence(|rows|)] +
        (if SpeakerSet(rows) == {} then [] else [SpeakerSentence(order)]) +
        (if dates == [] then [] else [DateSentence(dates)]);
      JoinStartsWithFirst(" ", parts);
      Join(" ", parts)
  }

  /** The summary has one sentence per kind of information present: the
      count, then the speakers when some hit names one, then the dates when
      some hit carries one. */
  lemma VoiceSummaryParts(format: string -> string, rows: seq<IndexRow>, order: seq<string>)
    requires rows != [] && Enumerates(order, SpeakerSet(rows))
    ensures var count, dates, r := CountSentence(|rows|), DateList(format, rows), VoiceSummary(format, rows, order);
      (SpeakerSet(rows) != {} && dates != [] ==> r == count + (" " + SpeakerSentence(order)) + (" " + DateSentence(dates))) &&
      (SpeakerSet(rows) != {} && dates == [] ==> r == count + (" " + SpeakerSentence(order))) &&
      (SpeakerSet(rows) == {} && dates != [] ==> r == count + (" " + DateSentence(dates))) &&
      (SpeakerSet(rows) == {} && dates == [] ==> r == count)
  {
    var count, dates := CountSentence(|rows|), DateList(format, rows);
    var second: seq<string> := if SpeakerSet(rows) == {} then [] else [SpeakerSentence(order)];
    var third: seq<string> := if dates == [] then [] else [DateSentence(dates)];
    JoinParts(" ", count, second, third);
  }

  /** More than three distinct speakers: three of them, all different, are
      named with "등"; otherwise every speaker is named. */
  lemma SpeakerSentenceNames(rows: seq<IndexRow>, order: seq<string>)
    requires Enumerates(order, SpeakerSet(rows)) && SpeakerSet(rows) != {}
    ensures |SpeakerSet(rows)| > 3 ==>
      exists named :: |named| == 3 && NoDup(named) && (forall i :: 0 <= i < 3 ==> named[i] in SpeakerSet(rows)) &&
        SpeakerSentence(order) == "주요 발언자는 " + Join(", ", named) + " 등입니다."
    ensures |SpeakerSet(rows)| <= 3 ==>
      exists named :: Enumerates(named, SpeakerSet(rows)) &&
        SpeakerSentence(order) == "발언자는 " + Join(", ", named) + "입니다."
  {
    if |SpeakerSet(rows)| > 3 {
      var named := order[..3];
      assert Take(order, 3) == named;
      assert NoDup(named) by {
        forall i, j | 0 <= i < j < 3 ensures named[i] != named[j] {
          assert named[i] == order[i] && named[j] == order[j];
        }
      }
      forall i | 0 <= i < 3 ensures named[i] in SpeakerSet(rows) {
        assert named[i] == order[i];
      }
      assert |named| == 3 && SpeakerSentence(order) == "주요 발언자는 " + Join(", ", named) + " 등입니다.";
    } else {
      assert Take(order, 3) == order;
    }
  }

  /** Several distinct dates are reported by the earliest and the latest in
      string order; a single one by itself. */
  lemma DateSentenceEnds(dates: seq<string>)
    requires dates != []
    ensures |Elements(dates)| > 1 ==> exists first, last ::
      first in dates && last in dates &&
      (forall d :: d in dates ==> LexLe(first, d) && LexLe(d, last)) &&
      DateSentence(dates) == "회의 기간은 " + first + "부터 " + last + "까지입니다."
    ensures |Elements(dates)| <= 1 ==> Elements(dates) == {dates[0]} && DateSentence(dates) == "회의일은 " + dates[0] + "입니다."
  {
    LexMinIsLeast(dates);
    LexMaxIsGreatest(dates);
    if |Elements(dates)| <= 1 {
      SingleElement(dates);
    }
  }

  /** A list whose set of elements has at most one member repeats its
      first element. */
  lemma SingleElement(xs: seq<string>)
    requires xs != [] && |Elements(xs)| <= 1
    ensures Elements(xs) == {xs[0]}
  {
    var e := Elements(xs);
    var rest := e - {xs[0]};
    assert xs[0] in e;
    assert e == rest + {xs[0]} && rest * {xs[0]} == {};
    assert |rest| == 0;
  }

  /** Two different entries make two elements. */
  lemma TwoElements(xs: seq<string>, i: nat, j: nat)
    requires i < |xs| && j < |xs| && xs[i] != xs[j]
    ensures |Elements(xs)| > 1
  {
    var e := Elements(xs);
    var rest := e - {xs[i]};
    assert xs[i] in e && xs[j] in rest;
    assert e == rest + {xs[i]} && rest * {xs[i]} == {};
  }

  lemma ElementsEmpty(xs: seq<string>)
    ensures Elements(xs) == {} <==> xs == []
  {
    if xs != [] {
      assert xs[0] in Elements(xs);
    }
  }

  /** One more hit adds its speaker and its date, when it has them. */
  lemma SummarySetsStep(format: string -> string, rows: seq<IndexRow>, i: nat)
    requires i < |rows|
    ensures SpeakerSet(rows[..i + 1]) == SpeakerSet(rows[..i]) +
      (if TruthyOpt(rows[i].speakerName) then {rows[i].speakerName.value} else {})
    ensures Elements(DateList(format, rows[..i + 1])) == Elements(DateList(format, rows[..i])) +
      (if TruthyOpt(rows[i].minutesDate) then {SafeDate(format, rows[i].minutesDate)} else {})
  {
    assert rows[..i + 1][..i] == rows[..i];
  }

  /** The assembly numbers the summary loop collects are never used: the
      summary does not depend on them. */
  lemma VoiceSummaryIgnoresAssembly(format: string -> string, rows: seq<IndexRow>, other: seq<IndexRow>, order: seq<string>)
    requires |other| == |rows|
    requires forall i :: 0 <= i < |rows| ==> other[i] == rows[i].(assemblyNumber := other[i].assemblyNumber)
    requires Enumerates(order, SpeakerSet(rows))
    ensures SpeakerSet(other) == SpeakerSet(rows) && DateList(format, other) == DateList(format, rows)
    ensures VoiceSummary(format, other, order) == VoiceSummary(format, rows, order)
  {
    SameSpeakersAndDates(format, rows, other);
  }

  lemma {:induction false} SameSpeakersAndDates(format: string -> string, rows: seq<IndexRow>, other: seq<IndexRow>)
    requires |other| == |rows|
    requires forall i :: 0 <= i < |rows| ==> other[i] == rows[i].(assemblyNumber := other[i].assemblyNumber)
    ensures SpeakerSet(other) == SpeakerSet(rows) && DateList(format, other) == DateList(format, rows)
    decreases |rows|
  {
    if rows != [] {
      var n := |rows| - 1;
      assert other[n].speakerName == rows[n].speakerName && other[n].minutesDate == rows[n].minutesDate by {
        assert other[n] == rows[n].(assemblyNumber := other[n].assemblyNumber);
      }
      SameSpeakersAndDates(format, rows[..n], other[..n]);
    }
  }

  // ---------------------------------------------------------------- ask

  const NaiveApology :=
    "죄송합니다. 질문과 관련된 국회 회의록을 찾을 수 없습니다. 다른 방식으로 질문해 주시거나, 더 구체적인 내용으로 다시 질문해 주세요."

  /** What `ask` returns; `generated` records whether the generator was
      asked. */
  datatype NaiveReply = NaiveReply(query: string, answer: string, sources: seq<IndexRow>, context: string,
                                   searchMethod: string, generated: bool)

  /** `ask(query, k)`. */
  function NaiveAsk(env: NaiveEnv, s: CacheState, maxSize: nat, query: string, k: nat): (r: (NaiveReply, CacheState))
    ensures WellFormed(s, maxSize) ==> WellFormed(r.1, maxSize)
    ensures r.0.sources == [] <==> !r.0.generated
    ensures |r.0.sources| <= k
  {
    var found := SemanticSearch(env, s, maxSize, query, k);
    if found.rows == [] then
      (NaiveReply(query, NaiveApology, [], "", "semantic", false), found.cache)
    else
      var context := NaiveContext(env.dateFormat, found.rows);
      var answer := match env.generate(query, context)
        case Success(text) => text
        case Failure(_) => GenerationApologyText;
      (NaiveReply(query, answer, found.rows, context, "semantic_contextual", true), found.cache)
  }

  const GenerationApologyText := "죄송합니다. 답변을 생성하는 중에 문제가 발생했습니다. 다시 질문해 주시기 바랍니다."

  /** No hits: the fixed apology with no sources and no context, whatever the
      generator would say. Hits: the generator's answer (or the apology
      when it fails) over the context of exactly those hits. */
  lemma NaiveAskPaths(env: NaiveEnv, s: CacheState, maxSize: nat, query: string, k: nat)
    ensures var (reply, _) := NaiveAsk(env, s, maxSize, query, k);
      var found := SemanticSearch(env, s, maxSize, query, k);
      (found.rows == [] ==>
        reply.answer == NaiveApology && reply.sources == [] && reply.context == "" && reply.searchMethod == "semantic" &&
        forall g :: NaiveAsk(env.(generate := g), s, maxSize, query, k).0 == reply) &&
      (found.rows != [] ==>
        reply.sources == found.rows && reply.context == NaiveContext(env.dateFormat, found.rows) &&
        reply.searchMethod == "semantic_contextual" &&
        reply.answer == (if env.generate(query, reply.context).Success? then env.generate(query, reply.context).value
                         else GenerationApologyText))
  {
  }

  // ---------------------------------------------------------------- the object

  /** The front-end object: its cache and its outside world. */
  class NaiveRag {
    const cache: Cache
    const env: NaiveEnv

    ghost predicate Valid()
      reads this, cache
    {
      cache.Valid()
    }

    constructor(env: NaiveEnv)
      ensures Valid() && fresh(cache) && cache.State() == EmptyCache && cache.maxSize == DefaultMaxSize
      ensures this.env == env
    {
      cache := new Cache(DefaultMaxSize);
      this.env := env;
    }

    /** `semantic_search_documents`. */
    method SemanticSearchDocuments(query: string, k: nat) returns (rows: seq<IndexRow>)
      requires Valid()
      modifies cache
      ensures Valid()
      ensures Retrieved(rows, cache.State()) == SemanticSearch(env, old(cache.State()), cache.maxSize, query, k)
    {
      var hits := SearchMinutes(cache, BaseCorrections, env.embed, env.index, query, 2 * k);
      rows := Take(hits, k);
    }

    /** `voice_friendly_summary`: collect the speaker, date and assembly sets
        in one pass, then say how many hits, who spoke and when. */
    method VoiceFriendlySummary(rows: seq<IndexRow>) returns (summary: string)
      ensures exists order :: Enumerates(order, SpeakerSet(rows)) && summary == VoiceSummary(env.dateFormat, rows, order)
    {
      if rows == [] {
        summary := NoResults;
        assert Enumerates([], SpeakerSet(rows));
        return;
      }
      var speakers: set<string> := {};
      var dates: set<string> := {};
      var assemblies: set<string> := {};
      var i := 0;
      while i < |rows|
        invariant 0 <= i <= |rows|
        invariant speakers == SpeakerSet(rows[..i])
        invariant dates == Elements(DateList(env.dateFormat, rows[..i]))
      {
        var row := rows[i];
        SummarySetsStep(env.dateFormat, rows, i);
        if TruthyOpt(row.speakerName) {
          speakers := speakers + {row.speakerName.value};
        }
        if TruthyOpt(row.minutesDate) {
          dates := dates + {SafeDate(env.dateFormat, row.minutesDate)};
        }
        if TruthyOpt(row.assemblyNumber) {
          assemblies := assemblies + {row.assemblyNumber.value};
        }
        i := i + 1;
      }
      assert rows[..i] == rows;
      ghost var dateList := DateList(env.dateFormat, rows);
      var order := Enumerate(speakers);
      var speakerPart: seq<string> := [];
      if speakers != {} {
        speakerPart := [SpeakerSentence(order)];
      }
      ElementsEmpty(dateList);
      var datePart: seq<string> := [];
      if dates != {} {
        var dateOrder := Enumerate(dates);
        var sentence := DateSentence(dateOrder);
        DateSentenceAgrees(dateOrder, dateList);
        datePart := [sentence];
      }
      summary := Join(" ", [CountSentence(|rows|)] + speakerPart + datePart);
    }
  }

  /** Two lists of the same distinct dates give the same sentence. */
  lemma DateSentenceAgrees(dateOrder: seq<string>, dates: seq<string>)
    requires dateOrder != [] && Enumerates(dateOrder, Elements(dates))
    ensures dates != [] && DateSentence(dateOrder) == DateSentence(dates)
  {
    assert dateOrder[0] in dates;
    assert Elements(dateOrder) == Elements(dates);
    LexMinIsLeast(dateOrder);
    LexMinIsLeast(dates);
    LexMaxIsGreatest(dateOrder);
    LexMaxIsGreatest(dates);
    LexLeAntisym(LexMin(dateOrder), LexMin(dates));
    LexLeAntisym(LexMax(dateOrder), LexMax(dates));
    if |Elements(dates)| <= 1 {
      DateSentenceEnds(dates);
      DateSentenceEnds(dateOrder);
    }
  }
}
