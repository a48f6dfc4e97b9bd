/** Query preprocessing shared by the three question-answering front ends:
    the first-match synonym expander, the keyword-scoring strategy classifier
    with its strict priority order, the strategy names, and the command
    prefixes of the interactive hybrid loop. */
module QueryRouting {
  import opened Common
  import opened Text

  // ---------------------------------------------------------------- expander

  /** One row of a `query_corrections` table. */
  datatype Correction = Correction(key: string, expansion: string)

  /** The ten-row table of the hybrid and the naive front ends, in
      dictionary (insertion) order. */
  const BaseCorrections: seq<Correction> := [
    Correction("저출산", "저출생"),
    Correction("저출생", "저출생 저출산 출생률"),
    Correction("기후변화", "기후변화 환경 탄소중립"),
    Correction("부동산", "부동산 주택 임대료"),
    Correction("교육", "교육 학교 대학 학생"),
    Correction("의료", "의료 병원 건강보험"),
    Correction("복지", "복지 사회보장 연금"),
    Correction("경제", "경제 일자리 고용"),
    Correction("국정감사", "국정감사 국감"),
    Correction("예산", "예산 재정 세금")
  ]

  /** The two rows the agent adds after the ten shared ones. */
  const AgentExtraCorrections: seq<Correction> := [
    Correction("환경", "환경 기후변화 탄소중립 친환경"),
    Correction("발의안", "발의안 법안 의안")
  ]

  /** The agent's twelve-row table. */
  const AgentCorrections: seq<Correction> := BaseCorrections + AgentExtraCorrections

  /** `_preprocess_query_for_context`: the query, extended by the expansion
      of the first table key (in table order) that occurs in it. At most one
      expansion is ever applied. */
  function Expand(table: seq<Correction>, query: string): (r: string)
    ensures (forall i :: 0 <= i < |table| ==> !Contains(query, table[i].key)) ==> r == query
    ensures (exists i :: 0 <= i < |table| && Contains(query, table[i].key)) ==>
      exists i :: 0 <= i < |table| && Contains(query, table[i].key) &&
        (forall j :: 0 <= j < i ==> !Contains(query, table[j].key)) &&
        r == query + " " + table[i].expansion
  {
    match FirstIndex(table, (c: Correction) => Contains(query, c.key))
    case None => query
    case Some(i) => query + " " + table[i].expansion
  }

  /** The loop of `_preprocess_query_for_context`: scan the table and stop at
      the first key found. */
  method ExpandQuery(table: seq<Correction>, query: string) returns (expanded: string)
    ensures expanded == Expand(table, query)
  {
    expanded := query;
    var i := 0;
    while i < |table|
      invariant 0 <= i <= |table|
      invariant expanded == query
      invariant forall j :: 0 <= j < i ==> !Contains(query, table[j].key)
    {
      if Contains(query, table[i].key) {
        expanded := query + " " + table[i].expansion;
        assert FirstIndex(table, (c: Correction) => Contains(query, c.key)) == Some(i);
        return;
      }
      i := i + 1;
    }
  }

  /** The expansion of a key is applied whenever no earlier key occurs, in
      particular regardless of any later key that also occurs. */
  lemma ExpandFirstKeyWins(table: seq<Correction>, query: string, i: nat)
    requires i < |table| && Contains(query, table[i].key)
    requires forall j :: 0 <= j < i ==> !Contains(query, table[j].key)
    ensures Expand(table, query) == query + " " + table[i].expansion
  {
    var f := FirstIndex(table, (c: Correction) => Contains(query, c.key));
    assert f.Some?;
    assert f.value <= i;
  }

  /** In the agent's table `기후변화` is listed before `환경`: a query holding
      both (and no earlier key) gets the climate expansion. */
  lemma AgentClimateBeforeEnvironment(query: string)
    requires Contains(query, "기후변화") && Contains(query, "환경")
    requires !Contains(query, "저출산") && !Contains(query, "저출생")
    ensures Expand(AgentCorrections, query) == query + " " + "기후변화 환경 탄소중립"
  {
    BaseCorrectionsHead();
    ExpandKeepsEarlyMatch(BaseCorrections, AgentExtraCorrections, query, 2);
  }

  lemma BaseCorrectionsHead()
    ensures |BaseCorrections| == 10
    ensures BaseCorrections[0].key == "저출산" && BaseCorrections[1].key == "저출생"
    ensures BaseCorrections[2] == Correction("기후변화", "기후변화 환경 탄소중립")
  {
  }

  /** A key found before the end of the first rows decides the expansion,
      whatever rows follow. */
  lemma ExpandKeepsEarlyMatch(first: seq<Correction>, rest: seq<Correction>, query: string, i: nat)
    requires i < |first| && Contains(query, first[i].key)
    requires forall j :: 0 <= j < i ==> !Contains(query, first[j].key)
    ensures Expand(first + rest, query) == query + " " + first[i].expansion
  {
    var t := first + rest;
    assert t[i] == first[i];
    forall j | 0 <= j < i ensures !Contains(query, t[j].key) {
      assert t[j] == first[j];
    }
    ExpandFirstKeyWins(t, query, i);
  }

  /** Keys of the agent's table that the base table lacks leave a query alone
      in the base front ends. */
  lemma EnvironmentOnlyExpandedByAgent(query: string)
    requires Contains(query, "환경")
    requires forall i :: 0 <= i < |BaseCorrections| ==> !Contains(query, BaseCorrections[i].key)
    ensures Expand(BaseCorrections, query) == query
    ensures Expand(AgentCorrections, query) == query + " 환경 기후변화 탄소중립 친환경"
  {
    ExpandEnvironmentRow(query);
    ExpandSkipsAbsentKeys(BaseCorrections, AgentExtraCorrections, query);
  }

  lemma ExpandEnvironmentRow(query: string)
    requires Contains(query, "환경")
    ensures Expand(AgentExtraCorrections, query) == query + " 환경 기후변화 탄소중립 친환경"
  {
    ExpandFirstKeyWins(AgentExtraCorrections, query, 0);
  }

  /** Rows whose keys are absent from the query do not affect the result. */
  lemma ExpandSkipsAbsentKeys(first: seq<Correction>, rest: seq<Correction>, query: string)
    requires forall i :: 0 <= i < |first| ==> !Contains(query, first[i].key)
    ensures Expand(first + rest, query) == Expand(rest, query)
  {
    var t := first + rest;
    var p := (c: Correction) => Contains(query, c.key);
    var f := FirstIndex(rest, p);
    if f.Some? {
      assert t[|first| + f.value] == rest[f.value];
      forall j | 0 <= j < |first| + f.value ensures !p(t[j]) {
        if j >= |first| { assert t[j] == rest[j - |first|]; }
      }
      ExpandFirstKeyWins(t, query, |first| + f.value);
    } else {
      forall j | 0 <= j < |t| ensures !p(t[j]) {
        if j >= |first| { assert t[j] == rest[j - |first|]; }
      }
    }
  }

  // ---------------------------------------------------------------- strategies

  /** The four retrieval strategies. */
  datatype Strategy = InternalOnly | ExternalPriority | HybridBalanced | HybridInternalPriority

  /** The strategy string passed between the components. */
  function StrategyName(s: Strategy): (r: string)
    ensures r != ""
  {
    match s
    case InternalOnly => "internal_only"
    case ExternalPriority => "external_priority"
    case HybridBalanced => "hybrid_balanced"
    case HybridInternalPriority => "hybrid_internal_priority"
  }

  /** How `hybrid_search` and `search_node` read a strategy string: the
      three named tests in turn, anything else being the internal-priority
      default branch. */
  function StrategyOf(name: string): (r: Strategy)
    ensures name == StrategyName(r) || r == HybridInternalPriority
  {
    if name == "internal_only" then InternalOnly
    else if name == "external_priority" then ExternalPriority
    else if name == "hybrid_balanced" then HybridBalanced
    else HybridInternalPriority
  }

  /** Every strategy name is read back as the strategy it names. */
  lemma StrategyNameRoundTrip(s: Strategy)
    ensures StrategyOf(StrategyName(s)) == s
  {
  }

  /** Distinct strategies have distinct names. */
  lemma StrategyNameInjective(s: Strategy, t: Strategy)
    ensures StrategyName(s) == StrategyName(t) <==> s == t
  {
    StrategyNameRoundTrip(s);
    StrategyNameRoundTrip(t);
  }

  // ---------------------------------------------------------------- classifier

  /** The three keyword lists of a classifier. */
  datatype KeywordProfile = KeywordProfile(assembly: seq<string>, current: seq<string>, general: seq<string>)

  const BaseAssemblyKeywords: seq<string> := [
    "국회", "의원", "국정감사", "국감", "회의록", "본회의", "위원회",
    "법안", "예산", "정부", "장관", "대통령", "의장", "국회의원"
  ]

  const CurrentKeywords: seq<string> := [
    "최근", "현재", "지금", "오늘", "이번", "올해", "2024", "2025",
    "최신", "동향", "트렌드", "뉴스", "소식"
  ]

  const GeneralKeywords: seq<string> := [
    "설명", "정의", "의미", "개념", "역사", "배경", "원인", "이유"
  ]

  /** `_determine_search_strategy` of the hybrid front end. */
  const HybridProfile := KeywordProfile(BaseAssemblyKeywords, CurrentKeywords, GeneralKeywords)

  /** `strategy_analyzer_tool` of the agent: one more assembly keyword. */
  const AgentProfile := KeywordProfile(AgentAssemblyKeywords, CurrentKeywords, GeneralKeywords)

  const AgentAssemblyKeywords: seq<string> := BaseAssemblyKeywords + ["발의안"]

  /** `sum(1 for keyword in keywords if keyword in text)`. */
  function Score(keywords: seq<string>, text: string): nat
  {
    Count(keywords, (k: string) => Contains(text, k))
  }

  /** The if-chain on the three scores, computed on `query.lower()`. */
  function Classify(profile: KeywordProfile, query: string): (r: Strategy)
    ensures r == InternalOnly <==> Score(profile.assembly, Lower(query)) >= 2
    ensures r == ExternalPriority <==>
      Score(profile.assembly, Lower(query)) < 2 && Score(profile.current, Lower(query)) >= 1
    ensures r == HybridBalanced <==>
      Score(profile.assembly, Lower(query)) < 2 && Score(profile.current, Lower(query)) == 0 &&
      Score(profile.general, Lower(query)) >= 1
  {
    var text := Lower(query);
    if Score(profile.assembly, text) >= 2 then InternalOnly
    else if Score(profile.current, text) >= 1 then ExternalPriority
    else if Score(profile.general, text) >= 1 then HybridBalanced
    else HybridInternalPriority
  }

  /** Each score counts the distinct keywords present, so repeating a
      keyword in the query adds nothing: it is the size of the set of
      keywords that occur. */
  lemma {:induction false} ScoreIsDistinctCount(keywords: seq<string>, text: string)
    requires NoDup(keywords)
    ensures Score(keywords, text) == |set k | k in keywords && Contains(text, k)|
    decreases |keywords|
  {
    if keywords != [] {
      var tail := keywords[1..];
      assert NoDup(tail) by {
        forall i, j | 0 <= i < j < |tail| ensures tail[i] != tail[j] {
          assert tail[i] == keywords[i + 1] && tail[j] == keywords[j + 1];
        }
      }
      ScoreIsDistinctCount(tail, text);
      var all := set k | k in keywords && Contains(text, k);
      var rest := set k | k in tail && Contains(text, k);
      assert keywords[0] !in tail by {
        forall j | 0 <= j < |tail| ensures tail[j] != keywords[0] {
          assert tail[j] == keywords[j + 1];
        }
      }
      if Contains(text, keywords[0]) {
        assert all == rest + {keywords[0]};
      } else {
        assert all == rest;
      }
    }
  }

  /** The keyword lists of the two classifiers. */
  datatype KeywordList = AssemblyList | AgentAssemblyList | CurrentList | GeneralList

  function KeywordsOf(l: KeywordList): seq<string>
  {
    match l
    case AssemblyList => BaseAssemblyKeywords
    case AgentAssemblyList => AgentAssemblyKeywords
    case CurrentList => CurrentKeywords
    case GeneralList => GeneralKeywords
  }

  /** What each classifier score of the two front ends counts: the number
      of distinct keywords of its list that occur in the query as typed. */
  lemma ClassifierScoreCountsDistinctKeywords(l: KeywordList, query: string)
    ensures Score(KeywordsOf(l), Lower(query)) == |set k | k in KeywordsOf(l) && Contains(query, k)|
  {
    var keywords := KeywordsOf(l);
    ClassifierListWellFormed(l);
    ScoreIgnoresCase(keywords, query);
    ScoreIsDistinctCount(keywords, query);
  }

  lemma ClassifierListWellFormed(l: KeywordList)
    ensures NoDup(KeywordsOf(l)) && LetterFree(KeywordsOf(l))
  {
    match l
    case AssemblyList => BaseAssemblyListWellFormed();
    case AgentAssemblyList => AgentAssemblyListWellFormed();
    case CurrentList => CurrentListWellFormed();
    case GeneralList => GeneralListWellFormed();
  }

  /** One more keyword, new and free of letters, keeps a list well formed. */
  lemma AppendWellFormed(xs: seq<string>, w: string)
    requires NoDup(xs) && LetterFree(xs) && LetterFree([w])
    requires forall i :: 0 <= i < |xs| ==> xs[i] != w
    ensures NoDup(xs + [w]) && LetterFree(xs + [w])
  {
    var ys := xs + [w];
    forall i, t | 0 <= i < |ys| && 0 <= t < |ys[i]| ensures !IsAsciiLetter(ys[i][t]) {
      if i == |xs| {
        assert ys[i] == [w][0];
      }
    }
  }

  lemma BaseAssemblyListWellFormed()
    ensures NoDup(BaseAssemblyKeywords) && LetterFree(BaseAssemblyKeywords)
  {
  }

  lemma AgentAssemblyListWellFormed()
    ensures NoDup(AgentAssemblyKeywords) && LetterFree(AgentAssemblyKeywords)
  {
    BaseAssemblyListWellFormed();
    AppendWellFormed(BaseAssemblyKeywords, "발의안");
  }

  lemma CurrentListWellFormed()
    ensures NoDup(CurrentKeywords) && LetterFree(CurrentKeywords)
  {
  }

  lemma GeneralListWellFormed()
    ensures NoDup(GeneralKeywords) && LetterFree(GeneralKeywords)
  {
  }

  lemma {:induction false} CountTwo<T>(xs: seq<T>, p: T -> bool, i: nat, j: nat)
    requires i < j < |xs| && p(xs[i]) && p(xs[j])
    ensures Count(xs, p) >= 2
  {
    assert xs == xs[..j] + xs[j..];
    CountAppend(xs[..j], xs[j..], p);
    assert xs[..j] == xs[..i] + xs[i..j];
    CountAppend(xs[..i], xs[i..j], p);
  }

  /** Neither classifier keyword list holds an ASCII letter. */
  predicate LetterFree(keywords: seq<string>)
  {
    forall i, t :: 0 <= i < |keywords| && 0 <= t < |keywords[i]| ==> !IsAsciiLetter(keywords[i][t])
  }

  /** Lower-casing does not change a score: the keywords are Hangul and
      digits only. */
  lemma ScoreIgnoresCase(keywords: seq<string>, query: string)
    requires LetterFree(keywords)
    ensures Score(keywords, Lower(query)) == Score(keywords, query)
  {
    var p := (k: string) => Contains(Lower(query), k);
    var q := (k: string) => Contains(query, k);
    forall i | 0 <= i < |keywords| ensures p(keywords[i]) == q(keywords[i]) {
      LowerKeepsLetterFreeOccurrences(query, keywords[i]);
    }
    CountSame(keywords, p, q);
  }

  lemma {:induction false} CountSame<T>(xs: seq<T>, p: T -> bool, q: T -> bool)
    requires forall i :: 0 <= i < |xs| ==> p(xs[i]) == q(xs[i])
    ensures Count(xs, p) == Count(xs, q)
    decreases |xs|
  {
    if xs != [] {
      CountSame(xs[1..], p, q);
    }
  }

  /** A query naming `국회의원` also contains `국회` and `의원`, so it scores at
      least two assembly keywords and goes to the internal-only strategy. */
  lemma MemberQueryIsInternalOnly(query: string)
    requires Contains(query, "국회의원")
    ensures Classify(HybridProfile, query) == InternalOnly
    ensures Classify(AgentProfile, query) == InternalOnly
  {
    LowerKeepsLetterFreeOccurrences(query, "국회의원");
    MemberScores(Lower(query));
    InternalOnlyByScore(HybridProfile, query);
    InternalOnlyByScore(AgentProfile, query);
  }

  lemma InternalOnlyByScore(profile: KeywordProfile, query: string)
    requires Score(profile.assembly, Lower(query)) >= 2
    ensures Classify(profile, query) == InternalOnly
  {
  }

  lemma MemberScores(text: string)
    requires Contains(text, "국회의원")
    ensures Score(BaseAssemblyKeywords, text) >= 2 && Score(AgentAssemblyKeywords, text) >= 2
  {
    MemberWordParts();
    ContainsTransitive(text, "국회의원", "국회");
    ContainsTransitive(text, "국회의원", "의원");
    AssemblyScoreTwo(BaseAssemblyKeywords, text);
    CountAppend(BaseAssemblyKeywords, ["발의안"], (k: string) => Contains(text, k));
  }

  lemma MemberWordParts()
    ensures OccursAt("국회의원", "국회", 0) && OccursAt("국회의원", "의원", 2)
  {
    assert "국회의원"[..2] == "국회";
    assert "국회의원"[2..][..2] == "의원";
  }

  lemma AssemblyScoreTwo(keywords: seq<string>, text: string)
    requires |keywords| >= 2 && keywords[0] == "국회" && keywords[1] == "의원"
    requires Contains(text, "국회") && Contains(text, "의원")
    ensures Score(keywords, text) >= 2
  {
    CountTwo(keywords, (k: string) => Contains(text, k), 0, 1);
  }

  /** The agent's assembly list extends the hybrid one, so whatever the
      hybrid classifier sends to the internal-only strategy the agent does
      too. */
  lemma AgentKeepsInternalOnly(query: string)
    requires Classify(HybridProfile, query) == InternalOnly
    ensures Classify(AgentProfile, query) == InternalOnly
  {
    var p := (k: string) => Contains(Lower(query), k);
    CountAppend(BaseAssemblyKeywords, ["발의안"], p);
  }

  // ---------------------------------------------------------------- commands

  /** What one line typed at the hybrid prompt does. */
  datatype Command =
    | Quit
    | EmptyPrompt
    | AskQuery(query: string, force: Option<Strategy>)

  const QuitWords: seq<string> := ["종료", "그만", "quit", "exit", "q"]

  /** One iteration of the prompt loop of `interactive_hybrid_rag`: strip the
      line, test the quit words on its lower-cased form, reject an empty
      line, then read the strategy prefixes. */
  function ParseCommand(line: string): (r: Command)
    ensures r == Quit <==> Lower(Strip(line)) in QuitWords
    ensures r == EmptyPrompt <==> Strip(line) == "" && Lower(Strip(line)) !in QuitWords
    ensures r.AskQuery? && r.force.None? ==> r.query == Strip(line)
    ensures r.AskQuery? && r.force.Some? ==> Truthy(r.query)
  {
    var query := Strip(line);
    if Lower(query) in QuitWords then Quit
    else if query == "" then EmptyPrompt
    else ParsePrefix(query)
  }

  /** The four prefix tests, in order; a recognised prefix is removed by
      slicing off its command word (`[3:]` or `[5:]`) and stripping again.
      The query is already stripped, so it ends in a non-space character
      and the remaining question is never empty. */
  function ParsePrefix(query: string): (r: Command)
    requires query != "" && !IsSpace(query[|query| - 1])
    ensures r.AskQuery?
    ensures r.force.None? ==> r.query == query
    ensures r.force.Some? ==> Truthy(r.query)
  {
    if StartsWith(query, "/국회 ") then AskQuery(ForcedQuery(query, "/국회 ", 3), Some(InternalOnly))
    else if StartsWith(query, "/최신 ") then AskQuery(ForcedQuery(query, "/최신 ", 3), Some(ExternalPriority))
    else if StartsWith(query, "/균형 ") then AskQuery(ForcedQuery(query, "/균형 ", 3), Some(HybridBalanced))
    else if StartsWith(query, "/국회우선 ") then AskQuery(ForcedQuery(query, "/국회우선 ", 5), Some(HybridInternalPriority))
    else AskQuery(query, None)
  }

  /** `query[cut:].strip()` where `cut` is the position of the space that
      ends the command prefix. */
  function ForcedQuery(query: string, prefix: string, cut: nat): (r: string)
    requires StartsWith(query, prefix) && cut < |prefix| && prefix[cut] == ' '
    requires !IsSpace(query[|query| - 1])
    ensures Truthy(r)
  {
    assert query[cut] == query[..|prefix|][cut];
    var rest := query[cut..];
    StripEmptyIff(rest);
    assert !IsSpace(rest[|rest| - 1]);
    Strip(rest)
  }

  /** `/국회우선 ` is not mistaken for `/국회 ` (their fourth characters
      differ), so the internal-priority command is recognised and the rest
      of the line is the question. */
  lemma InternalPriorityCommand(q: string)
    requires q != [] && !IsSpace(q[0]) && !IsSpace(q[|q| - 1])
    ensures ParsePrefix("/국회우선 " + q) == AskQuery(q, Some(HybridInternalPriority))
  {
    var line := "/국회우선 " + q;
    OnlyInternalPriorityPrefix(line);
    assert line[5..] == " " + q;
    assert LStrip(" " + q) == q by {
      assert (" " + q)[1..] == q;
    }
    StripUnchanged(q);
  }

  lemma OnlyInternalPriorityPrefix(line: string)
    requires |line| >= 6 && line[..6] == "/국회우선 "
    ensures StartsWith(line, "/국회우선 ")
    ensures !StartsWith(line, "/국회 ") && !StartsWith(line, "/최신 ") && !StartsWith(line, "/균형 ")
  {
    assert line[3] == "/국회우선 "[3];
    assert line[1] == "/국회우선 "[1];
  }
}
