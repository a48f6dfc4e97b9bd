/** The texts and documents prepared for the vector index: the contextual
    text of a statement and its batched embedding, a speaker's profile text,
    the contextual text of a minutes row in the two index builders, the
    documents built from each embedding response, the row filter of the
    loader, and the batched upload of the documents. */
module EmbeddingDocs {
  import opened Common
  import opened Text
  import opened EmbeddingCache
  import opened Transcript
  import opened Speakers
  import opened Statements

  /** What follows the joined parts in every contextual text. */
  const ContentLabel := "\n\n발언내용: "

  // ---------------------------------------------------------------- statements

  /** `제{assembly}대 국회 제{session}회 {meeting}차 본회의`. */
  function MeetingPart(st: Statement): string
  {
    "제" + NatToString(st.assemblyNumber) + "대 국회 제" + NatToString(st.sessionNumber) + "회 " +
    NatToString(st.meetingNumber) + "차 본회의"
  }

  /** The speaker segment: the name, then the position after a space, the
      committee in parentheses and the party in brackets, each only when it
      is non-empty, in that order. */
  function SpeakerSegment(st: Statement): (r: string)
    ensures StartsWith(r, st.speakerName)
    ensures st.party != "" ==> EndsWith(r, " [" + st.party + "]")
    ensures st.party == "" && st.committee != "" ==> EndsWith(r, " (" + st.committee + ")")
    ensures st.party == "" && st.committee == "" && st.speakerPosition != "" ==> EndsWith(r, " " + st.speakerPosition)
    ensures st.party == "" && st.committee == "" && st.speakerPosition == "" ==> r == st.speakerName
  {
    var withPosition := if Truthy(st.speakerPosition) then st.speakerName + (" " + st.speakerPosition) else st.speakerName;
    var withCommittee := if Truthy(st.committee) then withPosition + (" (" + st.committee + ")") else withPosition;
    var r := if Truthy(st.party) then withCommittee + (" [" + st.party + "]") else withCommittee;
    assert StartsWith(st.speakerName, st.speakerName) by { assert st.speakerName[..|st.speakerName|] == st.speakerName; }
    Extend(st.speakerName, " " + st.speakerPosition, st.speakerName);
    Extend(withPosition, " (" + st.committee + ")", st.speakerName);
    Extend(withCommittee, " [" + st.party + "]", st.speakerName);
    r
  }

  /** Appending keeps a prefix and ends with what was appended. */
  lemma Extend(a: string, b: string, p: string)
    requires StartsWith(a, p)
    ensures StartsWith(a + b, p) && EndsWith(a + b, b)
  {
    assert (a + b)[..|p|] == a[..|p|];
    assert (a + b)[|a + b| - |b|..] == b;
  }

  /** The parts of the contextual text: meeting, date, speaker, then the
      content type and the related bills, each only when present. */
  function StatementParts(formatDate: Date -> string, st: Statement): (r: seq<string>)
    ensures |r| == 3 + (if st.contentType != "" then 1 else 0) + (if st.relatedBills != [] then 1 else 0)
    ensures r[0] == MeetingPart(st) && r[1] == formatDate(st.meetingDate) && r[2] == SpeakerSegment(st)
    ensures st.contentType != "" ==> r[3] == "내용구분: " + st.contentType
    ensures st.relatedBills != [] ==> r[|r| - 1] == "관련법안: " + Join(", ", st.relatedBills)
  {
    var base := [MeetingPart(st), formatDate(st.meetingDate), SpeakerSegment(st)];
    var typed := if Truthy(st.contentType) then base + ["내용구분: " + st.contentType] else base;
    if st.relatedBills != [] then typed + ["관련법안: " + Join(", ", st.relatedBills)] else typed
  }

  /** `create_contextual_text` of the statement strategy. */
  function StatementText(formatDate: Date -> string, st: Statement): string
  {
    Join(" | ", StatementParts(formatDate, st)) + ContentLabel + st.content
  }

  /** The text opens with the meeting part and closes with the statement's
      content, after the label. */
  lemma StatementTextShape(formatDate: Date -> string, st: Statement)
    ensures StartsWith(StatementText(formatDate, st), MeetingPart(st))
    ensures EndsWith(StatementText(formatDate, st), ContentLabel + st.content)
  {
    var parts := StatementParts(formatDate, st);
    JoinStartsWithFirst(" | ", parts);
    SplitAt(Join(" | ", parts), ContentLabel, st.content, MeetingPart(st));
  }

  /** A text that starts with `p` keeps it as a prefix when more is appended,
      and the appended text ends it. */
  lemma SplitAt(head: string, mid: string, tail: string, p: string)
    requires StartsWith(head, p)
    ensures StartsWith(head + mid + tail, p) && EndsWith(head + mid + tail, mid + tail)
  {
    var s := head + mid + tail;
    assert s == head + (mid + tail);
    assert s[..|p|] == head[..|p|];
    assert s[|s| - |mid + tail|..] == mid + tail;
  }

  function StatementRender(formatDate: Date -> string): Statement -> string
  {
    st => StatementText(formatDate, st)
  }

  /** The batch size of the statement strategy. */
  const StatementBatchSize := 50

  /** `create_embeddings_batch` of the statement strategy: consecutive
      batches of contextual texts, a failed request padded with one missing
      vector per statement. */
  method CreateStatementEmbeddings(embedder: Embedder, formatDate: Date -> string, statements: seq<Statement>, batchSize: nat)
    returns (vectors: seq<Option<Vector>>)
    requires batchSize >= 1
    ensures vectors == EmbedBatches(embedder, StatementRender(formatDate), Batches(statements, batchSize))
    ensures OnePerInput(embedder) ==> |vectors| == |statements|
  {
    vectors := Embed(embedder, StatementRender(formatDate), statements, batchSize);
    if OnePerInput(embedder) {
      EmbedLength(embedder, StatementRender(formatDate), statements, batchSize);
    }
  }

  // ---------------------------------------------------------------- speaker profile

  function Elements(xs: seq<string>): (r: set<string>)
    ensures forall x :: x in r <==> x in xs
  {
    set x | x in xs
  }

  /** The bills named by the statements, as the set `bill_mentions`. */
  function BillMentions(statements: seq<Statement>): set<string>
    decreases |statements|
  {
    if statements == [] then {}
    else BillMentions(statements[..|statements| - 1]) + Elements(statements[|statements| - 1].relatedBills)
  }

  /** The content types of the statements, as the set `content_types`. */
  function ContentTypes(statements: seq<Statement>): set<string>
    decreases |statements|
  {
    if statements == [] then {}
    else ContentTypes(statements[..|statements| - 1]) + {statements[|statements| - 1].contentType}
  }

  /** The first 200 characters of each statement, in order. */
  function Summaries(statements: seq<Statement>): (r: seq<string>)
    ensures |r| == |statements|
  {
    seq(|statements|, k requires 0 <= k < |statements| => Take(statements[k].content, 200))
  }

  /** A bill is mentioned exactly when some statement relates to it. */
  lemma {:induction false} BillMentionsIff(statements: seq<Statement>, b: string)
    ensures b in BillMentions(statements) <==> exists k :: 0 <= k < |statements| && b in statements[k].relatedBills
    decreases |statements|
  {
    if statements != [] {
      var init := statements[..|statements| - 1];
      BillMentionsIff(init, b);
      if exists k :: 0 <= k < |statements| && b in statements[k].relatedBills {
        var k :| 0 <= k < |statements| && b in statements[k].relatedBills;
        if k < |init| {
          assert b in init[k].relatedBills;
        }
      }
    }
  }

  /** A content type is listed exactly when some statement has it. */
  lemma {:induction false} ContentTypesIff(statements: seq<Statement>, t: string)
    ensures t in ContentTypes(statements) <==> exists k :: 0 <= k < |statements| && statements[k].contentType == t
    decreases |statements|
  {
    if statements != [] {
      var init := statements[..|statements| - 1];
      ContentTypesIff(init, t);
      if exists k :: 0 <= k < |statements| && statements[k].contentType == t {
        var k :| 0 <= k < |statements| && statements[k].contentType == t;
        if k < |init| {
          assert init[k].contentType == t;
        }
      }
    }
  }

  /** The loop over a speaker's statements: the cut contents in order, and
      the sets of bills and content types. */
  method ProfileParts(statements: seq<Statement>) returns (summaries: seq<string>, bills: set<string>, types: set<string>)
    ensures summaries == Summaries(statements)
    ensures bills == BillMentions(statements) && types == ContentTypes(statements)
  {
    summaries, bills, types := [], {}, {};
    var i := 0;
    while i < |statements|
      invariant i <= |statements|
      invariant summaries == Summaries(statements[..i])
      invariant bills == BillMentions(statements[..i]) && types == ContentTypes(statements[..i])
    {
      assert statements[..i + 1][..i] == statements[..i];
      summaries := summaries + [Take(statements[i].content, 200)];
      bills := bills + Elements(statements[i].relatedBills);
      types := types + {statements[i].contentType};
      i := i + 1;
    }
    assert statements[..i] == statements;
  }

  /** The profile template. The `# 최대 …` remarks sit inside the
      triple-quoted text, so they are part of what is embedded. */
  function ProfileText(name: string, total: nat, types: seq<string>, bills: seq<string>, summaries: seq<string>): string
  {
    "\n        의원명: " + name + "\n        총 발언수: " + NatToString(total) + "회\n        주요 활동분야: " +
    Join(", ", types) + "\n        관련 법안: " + Join(", ", Take(bills, 10)) +
    "  # 최대 10개\n        \n        주요 발언내용:\n        " + Join(" ", Take(summaries, 5)) +
    "  # 최대 5개 발언 요약\n        "
  }

  /** The profile uses at most five statements, each cut to its first 200
      characters, and at most ten bills. */
  lemma ProfileBounds(statements: seq<Statement>, bills: seq<string>)
    ensures var used := Take(Summaries(statements), 5);
      |used| <= 5 && |used| <= |statements| &&
      forall k :: 0 <= k < |used| ==> |used[k]| <= 200 && used[k] <= statements[k].content
    ensures |Take(bills, 10)| <= 10 && Take(bills, 10) <= bills
  {
  }

  /** The vector of a single-text response: its first item, or none when the
      request raised or the response was empty (`data[0]` raising inside
      the `try`). */
  function FirstVector(response: Option<seq<Vector>>): (r: Option<Vector>)
    ensures r.Some? <==> response.Some? && response.value != []
    ensures r.Some? ==> r.value == response.value[0]
  {
    match response
    case None => None
    case Some(vs) => if vs == [] then None else Some(vs[0])
  }

  /** `create_speaker_profile_embedding`: the profile text, with the two
      sets listed in some iteration order, and its vector. */
  method SpeakerProfile(embedder: Embedder, statements: seq<Statement>) returns (text: string, vector: Option<Vector>)
    requires statements != []
    ensures exists types, bills ::
              Enumerates(types, ContentTypes(statements)) && Enumerates(bills, BillMentions(statements)) &&
              text == ProfileText(statements[0].speakerName, |statements|, types, bills, Summaries(statements))
    ensures vector == FirstVector(embedder([text]))
  {
    var summaries, billSet, typeSet := ProfileParts(statements);
    var types := Enumerate(typeSet);
    var bills := Enumerate(billSet);
    text := ProfileText(statements[0].speakerName, |statements|, types, bills, summaries);
    vector := FirstVector(embedder([text]));
  }

  // ---------------------------------------------------------------- minutes rows

  /** A row of the minutes table. */
  datatype Minute = Minute(
    minutesId: string, minutesType: string, minutesDate: Date, assemblyNumber: string, sessionNumber: string,
    subSession: string, speechOrder: int, position: Option<string>, speakerName: Option<string>,
    speechSummary: Option<string>)

  /** The three parts every contextual text of a row starts with. */
  function HeadParts(formatDate: Date -> string, m: Minute): seq<string>
  {
    [m.assemblyNumber + " " + m.sessionNumber + " " + m.subSession, formatDate(m.minutesDate), "회의유형: " + m.minutesType]
  }

  /** The parts of `create_contextual_text` in 2_embedding_index.py: the
      speaker only when named, with the position in parentheses only when
      present, and the speech order only when non-zero. */
  function IndexParts(formatDate: Date -> string, m: Minute): (r: seq<string>)
    ensures |r| == 3 + (if TruthyOpt(m.speakerName) then 1 else 0) + (if m.speechOrder != 0 then 1 else 0)
    ensures r[..3] == HeadParts(formatDate, m)
    ensures TruthyOpt(m.speakerName) ==>
      r[3] == "발언자: " + m.speakerName.value + (if TruthyOpt(m.position) then " (" + m.position.value + ")" else "")
    ensures m.speechOrder != 0 ==> r[|r| - 1] == "발언순서: " + IntToString(m.speechOrder)
  {
    var speaker :=
      if !TruthyOpt(m.speakerName) then []
      else if TruthyOpt(m.position) then ["발언자: " + m.speakerName.value + " (" + m.position.value + ")"]
      else ["발언자: " + m.speakerName.value];
    var order := if m.speechOrder != 0 then ["발언순서: " + IntToString(m.speechOrder)] else [];
    HeadParts(formatDate, m) + speaker + order
  }

  /** The label of the speaker part. */
  const SpeakerLabel := "발언자: "

  /** The speaker part of embedding_index_create_JH.py before `strip()`. */
  function RawSpeaker(m: Minute): string
    requires TruthyOpt(m.speakerName)
  {
    SpeakerLabel + m.speakerName.value + " (" + OrEmpty(m.position) + ")"
  }

  /** The speaker part of embedding_index_create_JH.py. */
  function BuilderSpeaker(m: Minute): string
    requires TruthyOpt(m.speakerName)
  {
    Strip(RawSpeaker(m))
  }

  /** The strip changes nothing, so the parentheses are written even when
      the position is missing. */
  lemma BuilderSpeakerKeepsParentheses(m: Minute)
    requires TruthyOpt(m.speakerName)
    ensures BuilderSpeaker(m) == SpeakerLabel + m.speakerName.value + " (" + OrEmpty(m.position) + ")"
    ensures !TruthyOpt(m.position) ==> EndsWith(BuilderSpeaker(m), " ()")
  {
    var tail := m.speakerName.value + " (" + OrEmpty(m.position) + ")";
    var raw := RawSpeaker(m);
    assert raw == SpeakerLabel + tail;
    assert raw[0] == SpeakerLabel[0];
    assert raw[|raw| - 1] == tail[|tail| - 1] == ')';
    StripUnchanged(raw);
    if !TruthyOpt(m.position) {
      assert OrEmpty(m.position) == "";
      assert raw[|raw| - 3..] == tail[|tail| - 3..];
    }
  }

  /** The parts of `create_contextual_text` in embedding_index_create_JH.py. */
  function BuilderParts(formatDate: Date -> string, m: Minute): (r: seq<string>)
    ensures |r| == 3 + (if TruthyOpt(m.speakerName) then 1 else 0) + (if m.speechOrder != 0 then 1 else 0)
    ensures r[..3] == HeadParts(formatDate, m)
    ensures TruthyOpt(m.speakerName) ==> r[3] == BuilderSpeaker(m)
    ensures m.speechOrder != 0 ==> r[|r| - 1] == "발언순서: " + IntToString(m.speechOrder)
  {
    var speaker := if TruthyOpt(m.speakerName) then [BuilderSpeaker(m)] else [];
    var order := if m.speechOrder != 0 then ["발언순서: " + IntToString(m.speechOrder)] else [];
    HeadParts(formatDate, m) + speaker + order
  }

  /** The parts joined by " | ", then the label and the summary as an
      f-string prints it. */
  function RowText(parts: seq<string>, m: Minute): string
  {
    Join(" | ", parts) + ContentLabel + Show(m.speechSummary)
  }

  function IndexText(formatDate: Date -> string): Minute -> string
  {
    m => RowText(IndexParts(formatDate, m), m)
  }

  function BuilderText(formatDate: Date -> string): Minute -> string
  {
    m => RowText(BuilderParts(formatDate, m), m)
  }

  lemma RowTextEnds(parts: seq<string>, m: Minute)
    requires parts != []
    ensures StartsWith(RowText(parts, m), parts[0])
    ensures EndsWith(RowText(parts, m), ContentLabel + Show(m.speechSummary))
  {
    JoinStartsWithFirst(" | ", parts);
    SplitAt(Join(" | ", parts), ContentLabel, Show(m.speechSummary), parts[0]);
  }

  /** Both texts open with the row's numbers and end with its summary. */
  lemma RowTextShape(formatDate: Date -> string, m: Minute)
    ensures StartsWith(IndexText(formatDate)(m), HeadParts(formatDate, m)[0])
    ensures StartsWith(BuilderText(formatDate)(m), HeadParts(formatDate, m)[0])
    ensures EndsWith(IndexText(formatDate)(m), ContentLabel + Show(m.speechSummary))
    ensures EndsWith(BuilderText(formatDate)(m), ContentLabel + Show(m.speechSummary))
  {
    var ip := IndexParts(formatDate, m);
    var bp := BuilderParts(formatDate, m);
    assert ip[0] == ip[..3][0];
    assert bp[0] == bp[..3][0];
    RowTextEnds(ip, m);
    RowTextEnds(bp, m);
  }

  // ---------------------------------------------------------------- documents

  /** A search document: the row's fields (the summary itself excluded), the
      contextual text and the vector. The date is kept as the builder
      stores it. */
  datatype IndexDocument<D> = IndexDocument(
    documentId: string, minutesId: string, minutesType: string, minutesDate: D, assemblyNumber: string,
    sessionNumber: string, subSession: string, speechOrder: int, position: Option<string>, speakerName: Option<string>,
    content: string, embedding: Vector)

  /** `f"{minutes_id}_{speech_order}"`. */
  function DocumentId(m: Minute): string
  {
    m.minutesId + "_" + IntToString(m.speechOrder)
  }

  function MakeDocument<D>(m: Minute, dateField: Date -> D, content: string, v: Vector): (d: IndexDocument<D>)
    ensures d.documentId == DocumentId(m) && d.minutesId == m.minutesId && d.content == content && d.embedding == v
  {
    IndexDocument(DocumentId(m), m.minutesId, m.minutesType, dateField(m.minutesDate), m.assemblyNumber, m.sessionNumber,
                  m.subSession, m.speechOrder, m.position, m.speakerName, content, v)
  }

  /** The documents one response yields: none when the request raised;
      otherwise one per row of the batch while the response still has a
      vector for it (a short response raises at `data[j]` after the earlier
      documents were appended). */
  function ResponseDocuments<D>(render: Minute -> string, dateField: Date -> D, batch: seq<Minute>, response: Option<seq<Vector>>)
    : (r: seq<IndexDocument<D>>)
    ensures response.None? ==> r == []
    ensures response.Some? ==> |r| == if |batch| <= |response.value| then |batch| else |response.value|
    ensures forall j :: 0 <= j < |r| ==> r[j] == MakeDocument(batch[j], dateField, render(batch[j]), response.value[j])
  {
    match response
    case None => []
    case Some(vs) =>
      var n := if |batch| <= |vs| then |batch| else |vs|;
      seq(n, j requires 0 <= j < n => MakeDocument(batch[j], dateField, render(batch[j]), vs[j]))
  }

  function BatchDocuments<D>(embedder: Embedder, render: Minute -> string, dateField: Date -> D, batch: seq<Minute>)
    : seq<IndexDocument<D>>
  {
    ResponseDocuments(render, dateField, batch, embedder(Texts(render, batch)))
  }

  /** The documents of all batches, in batch order. */
  function IndexDocuments<D>(embedder: Embedder, render: Minute -> string, dateField: Date -> D, batches: seq<seq<Minute>>)
    : seq<IndexDocument<D>>
    decreases |batches|
  {
    if batches == [] then []
    else BatchDocuments(embedder, render, dateField, batches[0]) + IndexDocuments(embedder, render, dateField, batches[1..])
  }

  lemma IndexDocumentsFirst<D>(embedder: Embedder, render: Minute -> string, dateField: Date -> D, s: seq<Minute>, size: nat)
    requires size >= 1 && s != []
    ensures IndexDocuments(embedder, render, dateField, Batches(s, size)) ==
      BatchDocuments(embedder, render, dateField, Take(s, size)) +
      IndexDocuments(embedder, render, dateField, Batches(s[|Take(s, size)|..], size))
  {
    assert Batches(s, size)[1..] == Batches(s[|Take(s, size)|..], size);
  }

  /** The inner loop: one document per row while the response lasts. */
  method ResponseLoop<D>(render: Minute -> string, dateField: Date -> D, batch: seq<Minute>, texts: seq<string>, vectors: seq<Vector>)
    returns (added: seq<IndexDocument<D>>)
    requires texts == Texts(render, batch)
    ensures added == ResponseDocuments(render, dateField, batch, Some(vectors))
  {
    added := [];
    var j := 0;
    while j < |batch| && j < |vectors|
      invariant j <= |batch| && j <= |vectors|
      invariant |added| == j
      invariant forall t :: 0 <= t < j ==> added[t] == MakeDocument(batch[t], dateField, render(batch[t]), vectors[t])
    {
      added := added + [MakeDocument(batch[j], dateField, texts[j], vectors[j])];
      j := j + 1;
    }
  }

  /** `create_embeddings_batch` of both index builders: for each batch of
      rows, one request with their texts, then one document per row of the
      response; a failed request skips the batch. */
  method CreateDocuments<D>(embedder: Embedder, render: Minute -> string, dateField: Date -> D, minutes: seq<Minute>, batchSize: nat)
    returns (documents: seq<IndexDocument<D>>)
    requires batchSize >= 1
    ensures documents == IndexDocuments(embedder, render, dateField, Batches(minutes, batchSize))
  {
    documents := [];
    var i := 0;
    while i < |minutes|
      invariant i <= |minutes|
      invariant documents + IndexDocuments(embedder, render, dateField, Batches(minutes[i..], batchSize)) ==
        IndexDocuments(embedder, render, dateField, Batches(minutes, batchSize))
    {
      var batch := Take(minutes[i..], batchSize);
      var end := i + |batch|;
      IndexDocumentsFirst(embedder, render, dateField, minutes[i..], batchSize);
      assert minutes[i..][|batch|..] == minutes[end..];
      var texts := Texts(render, batch);
      var response := embedder(texts);
      var added := [];
      if response.Some? {
        added := ResponseLoop(render, dateField, batch, texts, response.value);
      }
      assert added == BatchDocuments(embedder, render, dateField, batch);
      ConcatShift(documents, added, IndexDocuments(embedder, render, dateField, Batches(minutes[end..], batchSize)));
      documents := documents + added;
      i := end;
    }
  }

  lemma {:induction false} IndexDocumentsAppend<D>(embedder: Embedder, render: Minute -> string, dateField: Date -> D,
                                                   b1: seq<seq<Minute>>, b2: seq<seq<Minute>>)
    ensures IndexDocuments(embedder, render, dateField, b1 + b2) ==
      IndexDocuments(embedder, render, dateField, b1) + IndexDocuments(embedder, render, dateField, b2)
    decreases |b1|
  {
    if b1 != [] {
      var head := BatchDocuments(embedder, render, dateField, b1[0]);
      assert (b1 + b2)[0] == b1[0];
      assert (b1 + b2)[1..] == b1[1..] + b2;
      assert IndexDocuments(embedder, render, dateField, b1 + b2) ==
        head + IndexDocuments(embedder, render, dateField, b1[1..] + b2);
      IndexDocumentsAppend(embedder, render, dateField, b1[1..], b2);
      ConcatShift(head, IndexDocuments(embedder, render, dateField, b1[1..]), IndexDocuments(embedder, render, dateField, b2));
    } else {
      assert b1 + b2 == b2;
    }
  }

  lemma SplitAround<T>(s: seq<T>, i: nat)
    requires i < |s|
    ensures s == s[..i] + ([s[i]] + s[i + 1..])
  {
    assert s == s[..i] + s[i..];
  }

  /** A batch whose request fails contributes nothing, and the batches on
      either side of it are kept in order. */
  lemma FailedBatchSkipped<D>(embedder: Embedder, render: Minute -> string, dateField: Date -> D, batches: seq<seq<Minute>>, i: nat)
    requires i < |batches| && embedder(Texts(render, batches[i])).None?
    ensures IndexDocuments(embedder, render, dateField, batches) ==
      IndexDocuments(embedder, render, dateField, batches[..i]) + IndexDocuments(embedder, render, dateField, batches[i + 1..])
  {
    var tail := [batches[i]] + batches[i + 1..];
    SplitAround(batches, i);
    IndexDocumentsAppend(embedder, render, dateField, batches[..i], tail);
    assert tail[0] == batches[i] && tail[1..] == batches[i + 1..];
    assert BatchDocuments(embedder, render, dateField, batches[i]) == [];
    assert IndexDocuments(embedder, render, dateField, tail) == IndexDocuments(embedder, render, dateField, batches[i + 1..]);
  }

  /** The document carries the row's id and the row's text. */
  predicate BuiltFrom<D>(d: IndexDocument<D>, render: Minute -> string, m: Minute)
  {
    d.documentId == DocumentId(m) && d.content == render(m)
  }

  /** The documents of a batch are built from its first rows, in order. */
  predicate PrefixOfRows<D>(docs: seq<IndexDocument<D>>, render: Minute -> string, rows: seq<Minute>)
  {
    |docs| <= |rows| &&
    forall k :: 0 <= k < |docs| ==> BuiltFrom(docs[k], render, rows[k])
  }

  lemma BatchDocumentsFromBatch<D>(embedder: Embedder, render: Minute -> string, dateField: Date -> D, batch: seq<Minute>)
    ensures PrefixOfRows(BatchDocuments(embedder, render, dateField, batch), render, batch)
  {
  }

  /** The document is built from one of the rows. */
  predicate HasOrigin<D>(d: IndexDocument<D>, render: Minute -> string, rows: seq<Minute>)
  {
    exists i :: 0 <= i < |rows| && BuiltFrom(d, render, rows[i])
  }

  /** Every document is built from one of the rows. */
  predicate FromRows<D>(docs: seq<IndexDocument<D>>, render: Minute -> string, rows: seq<Minute>)
  {
    forall k :: 0 <= k < |docs| ==> HasOrigin(docs[k], render, rows)
  }

  lemma FromRowsAppend<D>(first: seq<IndexDocument<D>>, rest: seq<IndexDocument<D>>, render: Minute -> string,
                          batch: seq<Minute>, later: seq<Minute>)
    requires PrefixOfRows(first, render, batch) && FromRows(rest, render, later)
    ensures FromRows(first + rest, render, batch + later)
  {
    var docs := first + rest;
    var rows := batch + later;
    forall k | 0 <= k < |docs|
      ensures HasOrigin(docs[k], render, rows)
    {
      if k < |first| {
        assert docs[k] == first[k] && rows[k] == batch[k];
        assert 0 <= k < |rows| && BuiltFrom(docs[k], render, rows[k]);
      } else {
        var d := rest[k - |first|];
        var i :| 0 <= i < |later| && BuiltFrom(d, render, later[i]);
        var j := |batch| + i;
        assert docs[k] == d && rows[j] == later[i];
        assert 0 <= j < |rows| && BuiltFrom(docs[k], render, rows[j]);
      }
    }
  }

  /** There are never more documents than rows, and every document is built
      from one of the rows: its id and its content are that row's. */
  lemma {:induction false} IndexDocumentsFromRows<D>(embedder: Embedder, render: Minute -> string, dateField: Date -> D,
                                                     batches: seq<seq<Minute>>)
    ensures |IndexDocuments(embedder, render, dateField, batches)| <= |Flatten(batches)|
    ensures FromRows(IndexDocuments(embedder, render, dateField, batches), render, Flatten(batches))
    decreases |batches|
  {
    if batches != [] {
      IndexDocumentsFromRows(embedder, render, dateField, batches[1..]);
      BatchDocumentsFromBatch(embedder, render, dateField, batches[0]);
      FromRowsAppend(BatchDocuments(embedder, render, dateField, batches[0]), IndexDocuments(embedder, render, dateField, batches[1..]),
                     render, batches[0], Flatten(batches[1..]));
    }
  }

  /** The service answers every request with one vector per text. */
  ghost predicate AlwaysAnswers(embedder: Embedder)
  {
    forall texts :: embedder(texts).Some? && |embedder(texts).value| == |texts|
  }

  /** The documents are those of the rows, one each, in order. */
  predicate OnePerRow<D>(docs: seq<IndexDocument<D>>, render: Minute -> string, rows: seq<Minute>)
  {
    |docs| == |rows| &&
    forall k :: 0 <= k < |docs| ==> BuiltFrom(docs[k], render, rows[k])
  }

  /** With such a service there is one document per row, in row order. */
  lemma {:induction false} IndexDocumentsComplete<D>(embedder: Embedder, render: Minute -> string, dateField: Date -> D,
                                                     batches: seq<seq<Minute>>)
    requires AlwaysAnswers(embedder)
    ensures OnePerRow(IndexDocuments(embedder, render, dateField, batches), render, Flatten(batches))
    decreases |batches|
  {
    if batches != [] {
      IndexDocumentsComplete(embedder, render, dateField, batches[1..]);
      BatchDocumentsFromBatch(embedder, render, dateField, batches[0]);
      assert |Texts(render, batches[0])| == |batches[0]|;
      OnePerRowAppend(BatchDocuments(embedder, render, dateField, batches[0]), IndexDocuments(embedder, render, dateField, batches[1..]),
                      render, batches[0], Flatten(batches[1..]));
    }
  }

  lemma OnePerRowAppend<D>(first: seq<IndexDocument<D>>, rest: seq<IndexDocument<D>>, render: Minute -> string,
                           batch: seq<Minute>, later: seq<Minute>)
    requires PrefixOfRows(first, render, batch) && |first| == |batch| && OnePerRow(rest, render, later)
    ensures OnePerRow(first + rest, render, batch + later)
  {
    var docs := first + rest;
    var rows := batch + later;
    forall k | 0 <= k < |docs|
      ensures BuiltFrom(docs[k], render, rows[k])
    {
      if k < |first| {
        assert docs[k] == first[k] && rows[k] == batch[k];
      } else {
        assert docs[k] == rest[k - |first|] && rows[k] == later[k - |first|];
      }
    }
  }

  /** The documents built from a table, batch by batch: at most one per
      row, each from a row, and exactly the rows in order when the service
      always answers in full. */
  lemma RowsDocuments<D>(embedder: Embedder, render: Minute -> string, dateField: Date -> D, minutes: seq<Minute>, batchSize: nat)
    requires batchSize >= 1
    ensures |IndexDocuments(embedder, render, dateField, Batches(minutes, batchSize))| <= |minutes|
    ensures FromRows(IndexDocuments(embedder, render, dateField, Batches(minutes, batchSize)), render, minutes)
    ensures AlwaysAnswers(embedder) ==> OnePerRow(IndexDocuments(embedder, render, dateField, Batches(minutes, batchSize)), render, minutes)
  {
    BatchesPartition(minutes, batchSize);
    IndexDocumentsFromRows(embedder, render, dateField, Batches(minutes, batchSize));
    if AlwaysAnswers(embedder) {
      IndexDocumentsComplete(embedder, render, dateField, Batches(minutes, batchSize));
    }
  }

  // ---------------------------------------------------------------- loading

  /** The fields of the row record of embedding_index_create_JH.py. */
  const MinuteFields: set<string> := {
    "minutes_id", "minutes_type", "minutes_date", "assembly_number", "session_number", "sub_session",
    "speech_order", "position", "speaker_name", "speech_summary", "speech_summary_vector"
  }

  /** The row dictionary cut down to the record's fields. */
  function FilterRow<V>(row: map<string, V>): (r: map<string, V>)
    ensures r.Keys == row.Keys * MinuteFields
    ensures forall k :: k in r ==> r[k] == row[k]
  {
    map k | k in row && k in MinuteFields :: row[k]
  }

  /** Filtering keeps a row made of record fields as it is, and filtering
      twice is filtering once. */
  lemma FilterRowFixes<V>(row: map<string, V>)
    ensures row.Keys <= MinuteFields ==> FilterRow(row) == row
    ensures FilterRow(FilterRow(row)) == FilterRow(row)
  {
  }

  // ---------------------------------------------------------------- upload

  /** One upload request: a success flag per document, or an exception. */
  type Uploader<-T> = seq<T> -> Option<seq<bool>>

  /** What is reported for one batch. */
  datatype BatchReport = Uploaded(succeeded: nat, size: nat) | UploadFailed(size: nat)

  function IsTrue(b: bool): bool
  {
    b
  }

  function ReportOf<T>(upload: Uploader<T>, batch: seq<T>): (r: BatchReport)
    ensures r.size == |batch|
    ensures upload(batch).None? <==> r.UploadFailed?
    ensures r.Uploaded? ==> r.succeeded == Count(upload(batch).value, IsTrue)
  {
    match upload(batch)
    case None => UploadFailed(|batch|)
    case Some(results) => Uploaded(Count(results, IsTrue), |batch|)
  }

  const IndexUploadBatchSize := 1000
  const BuilderUploadBatchSize := 500

  lemma ReportsFirst<T>(upload: Uploader<T>, s: seq<T>, size: nat)
    requires size >= 1 && s != []
    ensures Batches(s, size) == [Take(s, size)] + Batches(s[|Take(s, size)|..], size)
  {
  }

  /** `upload_documents`: consecutive batches, each sent whether or not the
      one before it failed. Returns the batches sent and their reports. */
  method UploadDocuments<T>(upload: Uploader<T>, documents: seq<T>, batchSize: nat) returns (sent: seq<seq<T>>, reports: seq<BatchReport>)
    requires batchSize >= 1
    ensures sent == Batches(documents, batchSize)
    ensures |reports| == |sent| && forall k :: 0 <= k < |sent| ==> reports[k] == ReportOf(upload, sent[k])
  {
    sent, reports := [], [];
    var i := 0;
    while i < |documents|
      invariant i <= |documents|
      invariant sent + Batches(documents[i..], batchSize) == Batches(documents, batchSize)
      invariant |reports| == |sent| && forall k :: 0 <= k < |sent| ==> reports[k] == ReportOf(upload, sent[k])
    {
      var batch := Take(documents[i..], batchSize);
      var end := i + |batch|;
      ReportsFirst(upload, documents[i..], batchSize);
      assert documents[i..][|batch|..] == documents[end..];
      var report := ReportOf(upload, batch);
      ConcatShift(sent, [batch], Batches(documents[end..], batchSize));
      sent, reports := sent + [batch], reports + [report];
      i := end;
    }
  }

  lemma {:induction false} CountAtMost<T>(xs: seq<T>, p: T -> bool)
    ensures Count(xs, p) <= |xs|
    decreases |xs|
  {
    if xs != [] {
      CountAtMost(xs[1..], p);
    }
  }

  /** The batches sent cover the documents in order, none larger than the
      batch size; a report never counts more successes than results, nor
      more than the batch when the service answers once per document. */
  lemma UploadCoversDocuments<T>(upload: Uploader<T>, documents: seq<T>, batchSize: nat)
    requires batchSize >= 1
    ensures Flatten(Batches(documents, batchSize)) == documents
    ensures forall k :: 0 <= k < |Batches(documents, batchSize)| ==> |Batches(documents, batchSize)[k]| <= batchSize
    ensures forall k :: 0 <= k < |Batches(documents, batchSize)| ==>
      var batch := Batches(documents, batchSize)[k];
      upload(batch).Some? ==>
        ReportOf(upload, batch).succeeded <= |upload(batch).value| &&
        (|upload(batch).value| == |batch| ==> ReportOf(upload, batch).succeeded <= |batch|)
  {
    BatchesPartition(documents, batchSize);
    forall k | 0 <= k < |Batches(documents, batchSize)|
      ensures var batch := Batches(documents, batchSize)[k];
        upload(batch).Some? ==> ReportOf(upload, batch).succeeded <= |upload(batch).value|
    {
      var batch := Batches(documents, batchSize)[k];
      if upload(batch).Some? {
        CountAtMost(upload(batch).value, IsTrue);
      }
    }
  }
}
