/** The statements of one plenary transcript: the content type, bill names
    and vote counts of a statement, the statement records built from the
    transcript's entries, and the batched embedding requests made for them. */
module Statements {
  import opened Common
  import opened Text
  import opened EmbeddingCache
  import opened Transcript
  import opened Speakers

  // ---------------------------------------------------------------- content type

  const BillWords: seq<string> := ["법률안", "개정안", "의결"]
  const BallotWords: seq<string> := ["투표", "찬성", "반대", "기권"]
  const QuestionWords: seq<string> := ["질문", "답변"]

  /** The seven content types. */
  const ContentLabels: seq<string> := ["법안심의", "투표결과", "예산심의", "질의응답", "자유발언", "보고사항", "일반발언"]

  /** The keyword rules of the content classifier, tried in order. */
  function ContentType(content: string): (r: string)
    ensures r in ContentLabels
  {
    if ContainsAny(content, BillWords) then "법안심의"
    else if ContainsAny(content, BallotWords) then "투표결과"
    else if Contains(content, "예산") then "예산심의"
    else if ContainsAny(content, QuestionWords) then "질의응답"
    else if Contains(content, "5분자유발언") then "자유발언"
    else if Contains(content, "보고") then "보고사항"
    else "일반발언"
  }

  /** One rule: any of `words` in the content gives `contentType`. */
  datatype Rule = Rule(words: seq<string>, contentType: string)

  /** The same rules as a table. */
  const ContentRules: seq<Rule> := [
    Rule(BillWords, "법안심의"), Rule(BallotWords, "투표결과"), Rule(["예산"], "예산심의"),
    Rule(QuestionWords, "질의응답"), Rule(["5분자유발언"], "자유발언"), Rule(["보고"], "보고사항")]

  const Fallback := "일반발언"

  /** The label of the first rule of `rules` that fires, or the fallback. */
  function FirstRule(rules: seq<Rule>, content: string): string
  {
    match FirstIndex(rules, (rule: Rule) => ContainsAny(content, rule.words))
    case None => Fallback
    case Some(k) => rules[k].contentType
  }

  lemma OneWord(content: string, w: string)
    ensures ContainsAny(content, [w]) <==> Contains(content, w)
  {
    if Contains(content, w) {
      assert [w][0] == w;
    }
  }

  /** The classifier is the first-rule-wins reading of the rule table. */
  lemma ContentTypeIsFirstRule(content: string)
    ensures ContentType(content) == FirstRule(ContentRules, content)
  {
    OneWord(content, "예산");
    OneWord(content, "5분자유발언");
    OneWord(content, "보고");
    var fires := (rule: Rule) => ContainsAny(content, rule.words);
    var r := FirstIndex(ContentRules, fires);
    assert fires(ContentRules[0]) == ContainsAny(content, BillWords);
    assert fires(ContentRules[1]) == ContainsAny(content, BallotWords);
    assert fires(ContentRules[2]) == Contains(content, "예산");
    assert fires(ContentRules[3]) == ContainsAny(content, QuestionWords);
    assert fires(ContentRules[4]) == Contains(content, "5분자유발언");
    assert fires(ContentRules[5]) == Contains(content, "보고");
  }

  /** A bill word decides whatever else the content holds: content with both
      `의결` and `예산` is a bill debate. */
  lemma BillWordsFirst(content: string)
    requires Contains(content, "의결")
    ensures ContentType(content) == "법안심의"
  {
    assert BillWords[2] == "의결";
  }

  // ---------------------------------------------------------------- bill names

  /** `re.findall` for the bill-name pattern. */
  type BillFinder = string -> seq<string>

  /** The distinct bill names matched in `content`. */
  function BillSet(findBills: BillFinder, content: string): set<string>
  {
    set b | b in findBills(content)
  }

  /** The matched bill names, each once, in an order the model leaves open. */
  method ExtractBillNames(findBills: BillFinder, content: string) returns (bills: seq<string>)
    ensures Enumerates(bills, BillSet(findBills, content))
  {
    var found: set<string> := {};
    var matches := findBills(content);
    var i := 0;
    while i < |matches|
      invariant i <= |matches|
      invariant found == set b | b in matches[..i]
    {
      assert matches[..i + 1] == matches[..i] + [matches[i]];
      found := found + {matches[i]};
      i := i + 1;
    }
    assert matches[..i] == matches;
    bills := Enumerate(found);
  }

  // ---------------------------------------------------------------- vote counts

  /** `word\s*(\d+)인` at index `i`: the count and the index just past `인`.
      Spaces, digits and `인` are disjoint, so the greedy runs decide. */
  function CountAt(s: string, word: string, i: nat): (r: Option<(nat, nat)>)
    ensures r.Some? ==> OccursAt(s, word, i) && r.value.1 <= |s|
  {
    if !OccursAt(s, word, i) then None
    else
      var j := i + |word|;
      var n := Run(s, j, IsSpace);
      var m := Run(s, j + n, IsDigit);
      if m >= 1 && OccursAt(s, "인", j + n + m)
      then Some((DigitsValue(s[j + n..j + n + m]), j + n + m + 1))
      else None
  }

  /** `.*?기권\s*(\d+)인` from index `j`: the lazy gap may not cross a line
      break. */
  function AbstainFrom(s: string, j: nat): (r: Option<(nat, nat)>)
    requires j <= |s|
    decreases |s| - j
  {
    match CountAt(s, "기권", j)
    case Some(c) => Some(c)
    case None => if j < |s| && s[j] != '\n' then AbstainFrom(s, j + 1) else None
  }

  /** `찬성\s*(\d+)인.*?기권\s*(\d+)인` at index `i`: the two counts. */
  function YesAbstainAt(s: string, i: nat): (r: Option<(nat, nat)>)
    ensures r.Some? ==> OccursAt(s, "찬성", i)
  {
    match CountAt(s, "찬성", i)
    case None => None
    case Some((yes, next)) =>
      match AbstainFrom(s, next)
      case None => None
      case Some((abstain, _)) => Some((yes, abstain))
  }

  function NoAt(s: string, i: nat): (r: Option<(nat, nat)>)
    ensures r.Some? ==> OccursAt(s, "반대", i)
  {
    CountAt(s, "반대", i)
  }

  /** The vote counts of a statement: yes and abstain together from the first
      match of the combined pattern, no from the first match of its own. */
  function VoteInfo(content: string): (r: map<string, nat>)
    ensures r.Keys <= {"찬성", "기권", "반대"}
    ensures "찬성" in r <==> "기권" in r
    ensures "찬성" in r <==> exists i :: 0 <= i <= |content| && YesAbstainAt(content, i).Some?
    ensures "반대" in r <==> exists i :: 0 <= i <= |content| && NoAt(content, i).Some?
    ensures "찬성" in r ==>
      exists i :: (0 <= i <= |content| && YesAbstainAt(content, i) == Some((r["찬성"], r["기권"])) &&
        (forall j :: 0 <= j < i ==> YesAbstainAt(content, j).None?))
    ensures "반대" in r ==>
      exists i :: (0 <= i <= |content| && NoAt(content, i).Some? && NoAt(content, i).value.0 == r["반대"] &&
        (forall j :: 0 <= j < i ==> NoAt(content, j).None?))
  {
    LeftmostNoneIff(content, YesAbstainAt);
    LeftmostNoneIff(content, NoAt);
    var both, no := Leftmost(content, 0, YesAbstainAt), Leftmost(content, 0, NoAt);
    var r := VoteRecord(both, no);
    assert both.Some? ==> YesAbstainAt(content, both.value.0) == Some((r["찬성"], r["기권"]));
    assert no.Some? ==> NoAt(content, no.value.0).value.0 == r["반대"];
    r
  }

  /** The record of the two searches: yes and abstain from the first, no
      from the second. */
  function VoteRecord(both: Option<(nat, (nat, nat))>, no: Option<(nat, (nat, nat))>): (r: map<string, nat>)
    ensures r.Keys <= {"찬성", "기권", "반대"}
    ensures ("찬성" in r <==> both.Some?) && ("기권" in r <==> both.Some?) && ("반대" in r <==> no.Some?)
    ensures both.Some? ==> r["찬성"] == both.value.1.0 && r["기권"] == both.value.1.1
    ensures no.Some? ==> r["반대"] == no.value.1.0
  {
    var r := if both.Some? then map["찬성" := both.value.1.0, "기권" := both.value.1.1] else map[];
    if no.Some? then r["반대" := no.value.1.0] else r
  }

  /** Without the word `찬성` there are no yes or abstain counts, and without
      `반대` no no-count: no match gives the empty record. */
  lemma VoteWordsNeeded(content: string)
    ensures !Contains(content, "찬성") ==> "찬성" !in VoteInfo(content) && "기권" !in VoteInfo(content)
    ensures !Contains(content, "반대") ==> "반대" !in VoteInfo(content)
  {
    if "찬성" in VoteInfo(content) {
      var i :| 0 <= i <= |content| && YesAbstainAt(content, i).Some?;
      OccursAtContains(content, "찬성", i);
    }
    if "반대" in VoteInfo(content) {
      var i :| 0 <= i <= |content| && NoAt(content, i).Some?;
      OccursAtContains(content, "반대", i);
    }
  }

  // ---------------------------------------------------------------- statements

  /** One entry of a transcript file: its summary and speaker fields, when
      present. */
  datatype RawEntry = RawEntry(summary: Option<string>, speaker: Option<string>)

  /** A statement record. */
  datatype Statement = Statement(
    statementId: string, speakerName: string, speakerType: string, speakerPosition: string,
    committee: string, party: string, content: string, statementSummary: string,
    assemblyNumber: nat, sessionNumber: nat, meetingNumber: nat, meetingDate: Date,
    statementOrder: nat, contentType: string, relatedBills: seq<string>, voteResult: map<string, nat>)

  /** The stripped summary field, empty when missing. */
  function ContentOf(e: RawEntry): string
  {
    Strip(OrEmpty(e.summary))
  }

  /** `f"{session_id}_{i:03d}"`. */
  function StatementId(sessionId: string, i: nat): (r: string)
    ensures |r| >= |sessionId| + 4 && r[..|sessionId| + 1] == sessionId + "_"
  {
    sessionId + "_" + ZeroPad(i, 3)
  }

  /** The index is read back from the part after the session id, so two
      entries of one transcript never share an id. */
  lemma StatementIdReadsBack(sessionId: string, i: nat)
    ensures DigitsValue(StatementId(sessionId, i)[|sessionId| + 1..]) == i
  {
    assert StatementId(sessionId, i)[|sessionId| + 1..] == ZeroPad(i, 3);
  }

  lemma StatementIdInjective(sessionId: string, i: nat, j: nat)
    requires StatementId(sessionId, i) == StatementId(sessionId, j)
    ensures i == j
  {
    StatementIdReadsBack(sessionId, i);
    StatementIdReadsBack(sessionId, j);
  }

  /** The summary: the first 200 characters and an ellipsis when the content
      is longer, the content itself otherwise. */
  function Summary(content: string): (r: string)
    ensures |content| <= 200 ==> r == content
    ensures |content| > 200 ==> |r| == 203 && r[..200] == content[..200] && r[200..] == "..."
  {
    if |content| > 200 then content[..200] + "..." else content
  }

  /** The record built for entry `i`, its bill list given. */
  function StatementOf(info: FileInfo, matcher: Matcher, i: nat, e: RawEntry, bills: seq<string>): (r: Statement)
    ensures r.relatedBills == bills && r.content == ContentOf(e)
    ensures r.statementOrder == i && r.statementId == StatementId(info.sessionId, i)
  {
    var content := ContentOf(e);
    var sp := PipelineSpeaker(matcher, OrEmpty(e.speaker));
    Statement(StatementId(info.sessionId, i), sp.name, sp.speakerType, sp.position, sp.committee, sp.party,
              content, Summary(content), info.assemblyNumber, info.sessionNumber, info.meetingNumber,
              info.meetingDate, i, ContentType(content), bills, VoteInfo(content))
  }

  /** An entry whose stripped summary is not empty is kept. */
  predicate Kept(e: RawEntry)
  {
    ContentOf(e) != ""
  }

  /** The record of entry `i` before its bill names are filled in. */
  function RecordOf(info: FileInfo, matcher: Matcher): (nat, RawEntry) -> Statement
  {
    (i: nat, e: RawEntry) => StatementOf(info, matcher, i, e, [])
  }

  /** `statements` are the records `record` makes of the kept entries of
      `raw`, in order, each with the bill names of its content filled in. */
  predicate Built(statements: seq<Statement>, record: (nat, RawEntry) -> Statement, findBills: BillFinder, raw: seq<RawEntry>)
  {
    var records := KeepMap(raw, Kept, record);
    |statements| == |records| &&
    forall k :: 0 <= k < |statements| ==>
      statements[k] == records[k].(relatedBills := statements[k].relatedBills) &&
      Enumerates(statements[k].relatedBills, BillSet(findBills, records[k].content))
  }

  /** An entry with no content adds nothing. */
  lemma BuiltSkip(statements: seq<Statement>, record: (nat, RawEntry) -> Statement, findBills: BillFinder,
                  raw: seq<RawEntry>, i: nat)
    requires i < |raw| && !Kept(raw[i])
    requires Built(statements, record, findBills, raw[..i])
    ensures Built(statements, record, findBills, raw[..i + 1])
  {
    KeepMapStep(raw, i, Kept, record);
  }

  /** An entry with content adds its record, with the bill names of its
      content filled in. */
  lemma BuiltKeep(statements: seq<Statement>, record: (nat, RawEntry) -> Statement, findBills: BillFinder,
                  raw: seq<RawEntry>, i: nat, bills: seq<string>)
    requires i < |raw| && Kept(raw[i])
    requires Built(statements, record, findBills, raw[..i])
    requires Enumerates(bills, BillSet(findBills, record(i, raw[i]).content))
    ensures Built(statements + [record(i, raw[i]).(relatedBills := bills)], record, findBills, raw[..i + 1])
  {
    KeepMapStep(raw, i, Kept, record);
    var rec := record(i, raw[i]);
    var records := KeepMap(raw[..i], Kept, record);
    var records' := KeepMap(raw[..i + 1], Kept, record);
    var statements' := statements + [rec.(relatedBills := bills)];
    assert records' == records + [rec];
    forall k | 0 <= k < |statements'|
      ensures statements'[k] == records'[k].(relatedBills := statements'[k].relatedBills)
      ensures Enumerates(statements'[k].relatedBills, BillSet(findBills, records'[k].content))
    {
      if k < |statements| {
        assert statements'[k] == statements[k] && records'[k] == records[k];
      } else {
        assert statements'[k] == rec.(relatedBills := bills) && records'[k] == rec;
      }
    }
  }

  /** The statements of one transcript: the records of its kept entries. */
  predicate BuiltFrom(statements: seq<Statement>, info: FileInfo, matcher: Matcher, findBills: BillFinder, raw: seq<RawEntry>)
  {
    Built(statements, RecordOf(info, matcher), findBills, raw)
  }

  /** What reading a transcript gives: no statements when the file name does
      not match, an error when its date is not a calendar date, and the
      statements of the kept entries otherwise. */
  method ParseParliamentJson(filename: string, raw: seq<RawEntry>, matcher: Matcher, findBills: BillFinder)
    returns (r: Result<seq<Statement>, string>)
    ensures ParseFilename(filename).NoMatch? ==> r == Success([])
    ensures ParseFilename(filename).InvalidDate? ==> r == Failure(ParseFilename(filename).dateString)
    ensures ParseFilename(filename).Parsed? ==>
      r.Success? && BuiltFrom(r.value, ParseFilename(filename).record.info, matcher, findBills, raw)
  {
    var parsed := ParseFilename(filename);
    if parsed.NoMatch? {
      return Success([]);
    }
    if parsed.InvalidDate? {
      return Failure(parsed.dateString);
    }
    var statements := BuildStatements(RecordOf(parsed.record.info, matcher), raw, findBills);
    r := Success(statements);
  }

  /** The loop over the entries: an entry whose content is empty is
      skipped, any other becomes its record with the bill names of its
      content. */
  method BuildStatements(record: (nat, RawEntry) -> Statement, raw: seq<RawEntry>, findBills: BillFinder)
    returns (statements: seq<Statement>)
    ensures Built(statements, record, findBills, raw)
  {
    statements := [];
    var i := 0;
    while i < |raw|
      invariant i <= |raw|
      invariant Built(statements, record, findBills, raw[..i])
    {
      if ContentOf(raw[i]) != "" {
        var rec := record(i, raw[i]);
        var bills := ExtractBillNames(findBills, rec.content);
        BuiltKeep(statements, record, findBills, raw, i, bills);
        statements := statements + [rec.(relatedBills := bills)];
      } else {
        BuiltSkip(statements, record, findBills, raw, i);
      }
      i := i + 1;
    }
    assert raw[..i] == raw;
  }

  /** Statement ids are distinct and orders strictly increase. */
  lemma BuiltIdsDistinct(statements: seq<Statement>, info: FileInfo, matcher: Matcher, findBills: BillFinder, raw: seq<RawEntry>)
    requires BuiltFrom(statements, info, matcher, findBills, raw)
    ensures forall k, l :: 0 <= k < l < |statements| ==> statements[k].statementOrder < statements[l].statementOrder
    ensures forall k, l :: 0 <= k < l < |statements| ==> statements[k].statementId != statements[l].statementId
  {
    var kept := Positions(raw, Kept);
    PositionsSound(raw, Kept);
    KeepMapPositions(raw, Kept, RecordOf(info, matcher));
    forall k, l | 0 <= k < l < |statements| ensures statements[k].statementId != statements[l].statementId {
      if statements[k].statementId == statements[l].statementId {
        StatementIdInjective(info.sessionId, kept[k], kept[l]);
      }
    }
  }

  // ---------------------------------------------------------------- embedding requests

  /** `str(date)`: the ISO form `YYYY-MM-DD`. */
  function IsoDate(d: Date): string
  {
    ZeroPad(d.year, 4) + "-" + ZeroPad(d.month, 2) + "-" + ZeroPad(d.day, 2)
  }

  /** The fields of an ISO date string. */
  function ReadIsoDate(s: string): Date
    requires |s| == 10
  {
    Date(DigitsValue(s[..4]), DigitsValue(s[5..7]), DigitsValue(s[8..]))
  }

  /** A calendar date is written in ten characters and read back unchanged. */
  lemma IsoDateReadsBack(d: Date)
    requires ValidDate(d) && d.year < 10000
    ensures |IsoDate(d)| == 10 && ReadIsoDate(IsoDate(d)) == d
  {
    NatToStringLength(d.year, 4);
    NatToStringLength(d.month, 2);
    NatToStringLength(d.day, 2);
    IsoFields(ZeroPad(d.year, 4), ZeroPad(d.month, 2), ZeroPad(d.day, 2));
  }

  lemma IsoFields(y: string, m: string, d: string)
    requires |y| == 4 && |m| == 2 && |d| == 2
    ensures var s := y + "-" + m + "-" + d;
      |s| == 10 && s[..4] == y && s[5..7] == m && s[8..] == d
  {
    var s := y + "-" + m + "-" + d;
    assert s[..4] == y;
    assert s[5..7] == m;
    assert s[8..] == d;
  }

  /** The text sent for a statement: date, speaker, content type, content. */
  function FormatText(st: Statement): string
  {
    IsoDate(st.meetingDate) + " | " + st.speakerName + " " + st.speakerPosition + " | " + st.contentType + " | " + st.content
  }

  /** The date is read back from the first ten characters, and the text ends
      with the statement's content. */
  lemma FormatTextShape(st: Statement)
    requires ValidDate(st.meetingDate) && st.meetingDate.year < 10000
    ensures |FormatText(st)| >= 10 && ReadIsoDate(FormatText(st)[..10]) == st.meetingDate
    ensures EndsWith(FormatText(st), st.content)
  {
    IsoDateReadsBack(st.meetingDate);
    var head := IsoDate(st.meetingDate);
    var rest := " | " + st.speakerName + " " + st.speakerPosition + " | " + st.contentType + " | ";
    assert FormatText(st) == head + rest + st.content;
    PrefixAndSuffix(head, rest, st.content);
  }

  lemma PrefixAndSuffix(head: string, middle: string, tail: string)
    ensures (head + middle + tail)[..|head|] == head
    ensures EndsWith(head + middle + tail, tail)
  {
    var t := head + middle + tail;
    assert t[|t| - |tail|..] == tail;
  }

  /** The texts of a batch, one per item, in order. */
  function Texts<T>(render: T -> string, items: seq<T>): (r: seq<string>)
    ensures |r| == |items| && forall k :: 0 <= k < |r| ==> r[k] == render(items[k])
  {
    seq(|items|, k requires 0 <= k < |items| => render(items[k]))
  }

  /** The embedding service: one vector per item of the response, or no
      response when the request raises. */
  type Embedder = seq<string> -> Option<seq<Vector>>

  /** The batch size the pipeline passes by default. */
  const EmbedBatchSize := 20

  /** What one request adds: the vectors of the response, or one missing
      vector per text when the request fails. */
  function BatchVectors(embedder: Embedder, texts: seq<string>): (r: seq<Option<Vector>>)
    ensures embedder(texts).None? ==> |r| == |texts| && forall k :: 0 <= k < |r| ==> r[k].None?
    ensures embedder(texts).Some? ==>
      |r| == |embedder(texts).value| && forall k :: 0 <= k < |r| ==> r[k] == Some(embedder(texts).value[k])
  {
    match embedder(texts)
    case None => seq(|texts|, _ => None)
    case Some(vs) => seq(|vs|, k requires 0 <= k < |vs| => Some(vs[k]))
  }

  /** The vectors of all batches, in batch order. */
  function EmbedBatches<T>(embedder: Embedder, render: T -> string, batches: seq<seq<T>>): seq<Option<Vector>>
    decreases |batches|
  {
    if batches == [] then []
    else BatchVectors(embedder, Texts(render, batches[0])) + EmbedBatches(embedder, render, batches[1..])
  }

  lemma EmbedBatchesFirst<T>(embedder: Embedder, render: T -> string, s: seq<T>, size: nat)
    requires size >= 1 && s != []
    ensures EmbedBatches(embedder, render, Batches(s, size)) ==
      BatchVectors(embedder, Texts(render, Take(s, size))) + EmbedBatches(embedder, render, Batches(s[|Take(s, size)|..], size))
  {
    assert Batches(s, size)[1..] == Batches(s[|Take(s, size)|..], size);
  }

  lemma ConcatShift<T>(a: seq<T>, b: seq<T>, c: seq<T>)
    ensures a + (b + c) == (a + b) + c
  {
  }

  /** Embeds the items batch by batch, sending the text `render` gives each
      one; a failed request is recorded as missing vectors and the next
      batch is still sent. */
  method Embed<T>(embedder: Embedder, render: T -> string, statements: seq<T>, batchSize: nat)
    returns (vectors: seq<Option<Vector>>)
    requires batchSize >= 1
    ensures vectors == EmbedBatches(embedder, render, Batches(statements, batchSize))
  {
    vectors := [];
    var i := 0;
    while i < |statements|
      invariant i <= |statements|
      invariant vectors + EmbedBatches(embedder, render, Batches(statements[i..], batchSize)) ==
        EmbedBatches(embedder, render, Batches(statements, batchSize))
    {
      var batch := Take(statements[i..], batchSize);
      var end := i + |batch|;
      EmbedBatchesFirst(embedder, render, statements[i..], batchSize);
      assert statements[i..][|batch|..] == statements[end..];
      var texts := Texts(render, batch);
      var response := embedder(texts);
      var added: seq<Option<Vector>>;
      if response.Some? {
        added := seq(|response.value|, k requires 0 <= k < |response.value| => Some(response.value[k]));
      } else {
        added := seq(|texts|, _ => None);
      }
      assert added == BatchVectors(embedder, texts);
      ConcatShift(vectors, added, EmbedBatches(embedder, render, Batches(statements[end..], batchSize)));
      vectors := vectors + added;
      i := end;
    }
  }

  /** The service answers every successful request with one vector per text. */
  ghost predicate OnePerInput(embedder: Embedder)
  {
    forall texts :: embedder(texts).Some? ==> |embedder(texts).value| == |texts|
  }

  lemma {:induction false} EmbedBatchesLength<T>(embedder: Embedder, render: T -> string, batches: seq<seq<T>>)
    requires OnePerInput(embedder)
    ensures |EmbedBatches(embedder, render, batches)| == |Flatten(batches)|
    decreases |batches|
  {
    if batches != [] {
      EmbedBatchesLength(embedder, render, batches[1..]);
    }
  }

  /** With such a service there is exactly one entry per item, failed
      batches included. */
  lemma EmbedLength<T>(embedder: Embedder, render: T -> string, statements: seq<T>, batchSize: nat)
    requires batchSize >= 1 && OnePerInput(embedder)
    ensures |EmbedBatches(embedder, render, Batches(statements, batchSize))| == |statements|
  {
    EmbedBatchesLength(embedder, render, Batches(statements, batchSize));
    BatchesPartition(statements, batchSize);
  }

  /** A service that always fails yields one missing vector per item. */
  lemma {:induction false} EmbedAllFailed<T>(embedder: Embedder, render: T -> string, batches: seq<seq<T>>)
    requires forall texts :: embedder(texts).None?
    ensures |EmbedBatches(embedder, render, batches)| == |Flatten(batches)|
    ensures forall k :: 0 <= k < |EmbedBatches(embedder, render, batches)| ==> EmbedBatches(embedder, render, batches)[k].None?
    decreases |batches|
  {
    if batches != [] {
      EmbedAllFailed(embedder, render, batches[1..]);
    }
  }
}
