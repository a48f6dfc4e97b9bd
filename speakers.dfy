/** The speaker field of a transcript entry: the parser tries its speaker
    patterns in table order, and the first one that matches decides the
    speaker's type and the name, position, committee and party it records.
    The two chair-title patterns, the vote-word alternation and the party
    alternation are written out here. The committee-chair, committee-member,
    member and minister patterns depend on regular-expression backtracking;
    a matcher given as a parameter answers them. */
module Speakers {
  import opened Common
  import opened Text
  import opened Transcript

  /** The keys of the speaker-pattern table, in table order. */
  datatype SpeakerPattern = Chair | ViceChair | CommitteeChair | CommitteeMember | Member | Minister | VoteResult

  const Other := "기타"

  /** The table key, which becomes `speaker_type`. */
  function TypeName(p: SpeakerPattern): (r: string)
    ensures r != Other && r != ""
  {
    match p
    case Chair => "의장"
    case ViceChair => "부의장"
    case CommitteeChair => "위원장"
    case CommitteeMember => "위원"
    case Member => "의원"
    case Minister => "국무위원"
    case VoteResult => "투표결과"
  }

  lemma TypeNameInjective(p: SpeakerPattern, q: SpeakerPattern)
    ensures TypeName(p) == TypeName(q) ==> p == q
  {
  }

  /** The table of the statement pipeline: six patterns. */
  const PipelinePatterns: seq<SpeakerPattern> := [Chair, ViceChair, CommitteeChair, CommitteeMember, Member, Minister]

  /** The table of the stand-alone parser: the same six, then the vote words. */
  const StandalonePatterns: seq<SpeakerPattern> := [Chair, ViceChair, CommitteeChair, CommitteeMember, Member, Minister, VoteResult]

  /** What a match yields: the optional committee group of the two committee
      patterns, and the group holding the speaker's name. */
  datatype Hit = Hit(committee: Option<string>, name: string)

  /** `re.search` for the patterns not written out here. */
  type Matcher = (SpeakerPattern, string) -> Option<Hit>

  // ---------------------------------------------------------------- titles

  /** `title\s+([가-힣]+)` at index `i`. Spaces and syllables are disjoint
      classes, so both greedy runs are the only way to match. */
  function TitleNameAt(title: string, s: string, i: nat): (r: Option<Hit>)
    ensures r.Some? ==> OccursAt(s, title, i) && r.value.committee.None? && r.value.name != []
    ensures r.Some? ==> forall k :: 0 <= k < |r.value.name| ==> IsHangul(r.value.name[k])
  {
    if !OccursAt(s, title, i) then None
    else
      var j := i + |title|;
      var n := Run(s, j, IsSpace);
      if n == 0 then None
      else
        var m := Run(s, j + n, IsHangul);
        RunIsMaximal(s, j + n, IsHangul);
        if m == 0 then None else Some(Hit(None, s[j + n..j + n + m]))
  }

  /** `re.search(title + r'\s+([가-힣]+)', s)`. */
  function TitleName(title: string, s: string): (r: Option<Hit>)
    ensures r.None? <==> forall i :: 0 <= i <= |s| ==> TitleNameAt(title, s, i).None?
    ensures r.Some? ==> exists i :: 0 <= i <= |s| && TitleNameAt(title, s, i) == r
  {
    TitleNameNoneIff(title, s);
    match Leftmost(s, 0, (t: string, i: nat) => TitleNameAt(title, t, i))
    case None => None
    case Some((_, h)) => Some(h)
  }

  lemma TitleNameNoneIff(title: string, s: string)
    ensures Leftmost(s, 0, (t: string, i: nat) => TitleNameAt(title, t, i)).None? <==>
      forall i :: 0 <= i <= |s| ==> TitleNameAt(title, s, i).None?
  {
    var at: (string, nat) -> Option<Hit> := (t: string, i: nat) => TitleNameAt(title, t, i);
    if Leftmost(s, 0, at).None? {
      forall i | 0 <= i <= |s| ensures TitleNameAt(title, s, i).None? {
        assert at(s, i).None?;
      }
    }
  }

  /** Wherever the vice-chair title matches, the chair title matches one
      character later, with the same name. */
  lemma ViceChairAtIsChairAt(s: string, i: nat)
    requires TitleNameAt("부의장", s, i).Some?
    ensures TitleNameAt("의장", s, i + 1) == TitleNameAt("부의장", s, i)
  {
    assert s[i + 1..][..2] == s[i..][..3][1..];
  }

  lemma ViceChairImpliesChair(s: string)
    requires TitleName("부의장", s).Some?
    ensures TitleName("의장", s).Some?
  {
    var i :| 0 <= i <= |s| && TitleNameAt("부의장", s, i) == TitleName("부의장", s);
    ViceChairAtIsChairAt(s, i);
  }

  // ---------------------------------------------------------------- search

  const VoteWords: seq<string> := ["투표", "명단", "찬성", "반대", "기권"]

  /** `re.search(pattern, text)` for one table entry. */
  function Search(matcher: Matcher, p: SpeakerPattern, text: string): (r: Option<Hit>)
    ensures p == VoteResult ==> (r.Some? <==> ContainsAny(text, VoteWords))
  {
    match p
    case Chair => TitleName("의장", text)
    case ViceChair => TitleName("부의장", text)
    case VoteResult => if ContainsAny(text, VoteWords) then Some(Hit(None, "")) else None
    case _ => matcher(p, text)
  }

  /** The first entry of `patterns` whose pattern matches, with its match. */
  function FirstHit(patterns: seq<SpeakerPattern>, matcher: Matcher, text: string): (r: Option<(SpeakerPattern, Hit)>)
    ensures r.None? <==> forall k :: 0 <= k < |patterns| ==> Search(matcher, patterns[k], text).None?
    ensures r.Some? ==> r.value.0 in patterns && Search(matcher, r.value.0, text) == Some(r.value.1)
  {
    match FirstIndex(patterns, Matches(matcher, text))
    case None => None
    case Some(k) => Some((patterns[k], Search(matcher, patterns[k], text).value))
  }

  /** Whether a pattern matches `text`. */
  function Matches(matcher: Matcher, text: string): SpeakerPattern -> bool
  {
    p => Search(matcher, p, text).Some?
  }

  /** An earlier entry that matches decides. */
  lemma {:induction false} FirstHitAt(patterns: seq<SpeakerPattern>, matcher: Matcher, text: string, k: nat)
    requires k < |patterns| && Search(matcher, patterns[k], text).Some?
    requires forall j :: 0 <= j < k ==> Search(matcher, patterns[j], text).None?
    ensures FirstHit(patterns, matcher, text) == Some((patterns[k], Search(matcher, patterns[k], text).value))
  {
    FirstIndexAt(patterns, Matches(matcher, text), k);
  }

  // ---------------------------------------------------------------- parse_speaker

  /** The speaker record: name, type, position, committee and party. */
  datatype Speaker = Speaker(name: string, speakerType: string, position: string, committee: string, party: string)

  /** The record before any pattern is tried. */
  const Unknown := Speaker("", Other, "", "", "")

  function OrEmpty(o: Option<string>): (r: string)
    ensures o.None? ==> r == ""
    ensures o.Some? ==> r == o.value
  {
    match o
    case None => ""
    case Some(s) => s
  }

  /** The fields the statement pipeline fills for a match: the chair titles
      record only the name; the committee patterns the committee (empty when
      its group is absent), the name and the position; a member the name and
      the position; a minister nothing but the type. */
  function PipelineFields(p: SpeakerPattern, h: Hit): (r: Speaker)
    ensures r.speakerType == TypeName(p) && r.party == ""
    ensures p in {Chair, ViceChair} ==> r == Unknown.(speakerType := TypeName(p), name := h.name)
    ensures p in {CommitteeChair, CommitteeMember, Member} ==> r.name == h.name && r.position == TypeName(p)
    ensures p in {CommitteeChair, CommitteeMember} ==> r.committee == OrEmpty(h.committee)
    ensures p in {Minister, VoteResult} ==> r == Unknown.(speakerType := TypeName(p))
  {
    var t := TypeName(p);
    match p
    case Chair => Unknown.(speakerType := t, name := h.name)
    case ViceChair => Unknown.(speakerType := t, name := h.name)
    case CommitteeChair => Unknown.(speakerType := t, committee := OrEmpty(h.committee), name := h.name, position := "위원장")
    case CommitteeMember => Unknown.(speakerType := t, committee := OrEmpty(h.committee), name := h.name, position := "위원")
    case Member => Unknown.(speakerType := t, name := h.name, position := "의원")
    case _ => Unknown.(speakerType := t)
  }

  /** What the statement pipeline's `parse_speaker` returns. */
  function PipelineSpeaker(matcher: Matcher, text: string): (r: Speaker)
    ensures r.speakerType == Other <==> forall k :: 0 <= k < |PipelinePatterns| ==> Search(matcher, PipelinePatterns[k], text).None?
    ensures r.speakerType == Other ==> r == Unknown
    ensures r.party == ""
  {
    match FirstHit(PipelinePatterns, matcher, text)
    case None => Unknown
    case Some((p, h)) => PipelineFields(p, h)
  }

  /** The statement pipeline's speaker parser: tries the table in order and
      fills the record from the first match. */
  method ParseSpeaker(matcher: Matcher, text: string) returns (info: Speaker)
    ensures info == PipelineSpeaker(matcher, text)
  {
    info := Unknown;
    var i := 0;
    while i < |PipelinePatterns|
      invariant i <= |PipelinePatterns|
      invariant forall j :: 0 <= j < i ==> Search(matcher, PipelinePatterns[j], text).None?
    {
      var p := PipelinePatterns[i];
      var m := Search(matcher, p, text);
      if m.Some? {
        FirstHitAt(PipelinePatterns, matcher, text, i);
        info := PipelineFields(p, m.value);
        return;
      }
      i := i + 1;
    }
  }

  // ---------------------------------------------------------------- parties

  const PartyNames: seq<string> := ["더불어민주당", "국민의힘", "정의당", "민주당", "국민의당"]

  /** The first party name in table order occurring at `i`: the alternation
      tried at one position. */
  function PartyAt(s: string, i: nat): (r: Option<string>)
    ensures r.Some? ==> r.value in PartyNames && OccursAt(s, r.value, i)
    ensures r.None? ==> forall k :: 0 <= k < |PartyNames| ==> !OccursAt(s, PartyNames[k], i)
  {
    match FirstIndex(PartyNames, p => OccursAt(s, p, i))
    case None => None
    case Some(k) => Some(PartyNames[k])
  }

  /** `re.search` for the party alternation: the leftmost occurrence. */
  function Party(s: string): (r: Option<string>)
    ensures r.None? <==> forall i, k :: 0 <= i <= |s| && 0 <= k < |PartyNames| ==> !OccursAt(s, PartyNames[k], i)
    ensures r.Some? ==> r.value in PartyNames && Contains(s, r.value)
  {
    PartyNoneIff(s);
    match Leftmost(s, 0, PartyAt)
    case None => None
    case Some((i, p)) => OccursAtContains(s, p, i); Some(p)
  }

  lemma PartyNoneIff(s: string)
    ensures Leftmost(s, 0, PartyAt).None? <==>
      forall i, k :: 0 <= i <= |s| && 0 <= k < |PartyNames| ==> !OccursAt(s, PartyNames[k], i)
  {
    var r := Leftmost(s, 0, PartyAt);
    if r.None? {
      forall i, k | 0 <= i <= |s| && 0 <= k < |PartyNames| ensures !OccursAt(s, PartyNames[k], i) {
        assert PartyAt(s, i).None?;
      }
    } else {
      var i := r.value.0;
      var k :| 0 <= k < |PartyNames| && PartyNames[k] == r.value.1;
      assert OccursAt(s, PartyNames[k], i);
    }
  }

  lemma FullNameAt(s: string, i: nat)
    requires OccursAt(s, "더불어민주당", i)
    ensures PartyAt(s, i) == Some("더불어민주당")
  {
    assert (p => OccursAt(s, p, i))(PartyNames[0]);
  }

  lemma NoPartyAt(s: string, j: nat)
    requires forall k :: 0 <= k < |PartyNames| ==> !OccursAt(s, PartyNames[k], j)
    ensures PartyAt(s, j).None?
  {
  }

  /** The full party name wins over the shorter one it contains: where
      `더불어민주당` is the leftmost party name, `민주당` inside it is never
      reported. */
  lemma PartyPrefersFullName(s: string, i: nat)
    requires OccursAt(s, "더불어민주당", i)
    requires forall j, k :: 0 <= j < i && 0 <= k < |PartyNames| ==> !OccursAt(s, PartyNames[k], j)
    ensures Party(s) == Some("더불어민주당")
  {
    FullNameAt(s, i);
    forall j | 0 <= j < i ensures PartyAt(s, j).None? {
      NoPartyAt(s, j);
    }
    LeftmostAt(s, i, PartyAt);
  }

  // ---------------------------------------------------------------- stand-alone parser

  /** The stand-alone parser's result: the input echoed, and the record. */
  datatype SpeakerLine = SpeakerLine(originalText: string, info: Speaker)

  /** The fields the stand-alone parser fills: as the pipeline, except that
      the chair titles also record their position and a member also records
      the party named in the text, if any. */
  function StandaloneFields(text: string, p: SpeakerPattern, h: Hit): (r: Speaker)
    ensures r.speakerType == TypeName(p)
    ensures p in {Chair, ViceChair} ==> r == Unknown.(speakerType := TypeName(p), name := h.name, position := TypeName(p))
    ensures p in {CommitteeChair, CommitteeMember} ==> r == PipelineFields(p, h)
    ensures p == Member ==> r == PipelineFields(p, h).(party := OrEmpty(Party(text)))
    ensures p in {Minister, VoteResult} ==> r == Unknown.(speakerType := TypeName(p))
    ensures r.party != "" ==> p == Member && r.party in PartyNames
  {
    var base := PipelineFields(p, h);
    match p
    case Chair => base.(position := TypeName(p))
    case ViceChair => base.(position := TypeName(p))
    case Member => base.(party := OrEmpty(Party(text)))
    case _ => base
  }

  /** What the stand-alone `parse_speaker` returns. */
  function StandaloneSpeaker(matcher: Matcher, text: string): (r: SpeakerLine)
    ensures r.originalText == text
    ensures r.info.speakerType == Other <==> forall k :: 0 <= k < |StandalonePatterns| ==> Search(matcher, StandalonePatterns[k], text).None?
    ensures r.info.speakerType == Other ==> r.info == Unknown
    ensures r.info.party != "" ==> r.info.speakerType == "의원" && r.info.party in PartyNames
  {
    match FirstHit(StandalonePatterns, matcher, text)
    case None => SpeakerLine(text, Unknown)
    case Some((p, h)) => SpeakerLine(text, StandaloneFields(text, p, h))
  }

  /** The stand-alone speaker parser. */
  method ParseSpeakerLine(matcher: Matcher, text: string) returns (line: SpeakerLine)
    ensures line == StandaloneSpeaker(matcher, text)
  {
    var info := Unknown;
    var i := 0;
    while i < |StandalonePatterns|
      invariant i <= |StandalonePatterns|
      invariant forall j :: 0 <= j < i ==> Search(matcher, StandalonePatterns[j], text).None?
    {
      var p := StandalonePatterns[i];
      var m := Search(matcher, p, text);
      if m.Some? {
        FirstHitAt(StandalonePatterns, matcher, text, i);
        info := StandaloneFields(text, p, m.value);
        break;
      }
      i := i + 1;
    }
    line := SpeakerLine(text, info);
  }

  // ---------------------------------------------------------------- table order

  /** A chair title anywhere in the text makes the speaker the chair, in both
      parsers, whatever else the text matches. */
  lemma ChairComesFirst(matcher: Matcher, text: string)
    requires TitleName("의장", text).Some?
    ensures PipelineSpeaker(matcher, text) == Unknown.(speakerType := "의장", name := TitleName("의장", text).value.name)
    ensures StandaloneSpeaker(matcher, text).info ==
      Unknown.(speakerType := "의장", name := TitleName("의장", text).value.name, position := "의장")
  {
    FirstHitAt(PipelinePatterns, matcher, text, 0);
    FirstHitAt(StandalonePatterns, matcher, text, 0);
  }

  /** The vice-chair entry never decides: whatever the vice-chair pattern
      matches, the chair pattern ahead of it matches too. */
  lemma NeverViceChair(matcher: Matcher, text: string)
    ensures PipelineSpeaker(matcher, text).speakerType != "부의장"
  {
    if TitleName("부의장", text).Some? {
      ViceChairImpliesChair(text);
      ChairComesFirst(matcher, text);
    } else if FirstHit(PipelinePatterns, matcher, text).Some? {
      TypeNameInjective(FirstHit(PipelinePatterns, matcher, text).value.0, ViceChair);
    }
  }

  lemma NeverViceChairLine(matcher: Matcher, text: string)
    ensures StandaloneSpeaker(matcher, text).info.speakerType != "부의장"
  {
    if TitleName("부의장", text).Some? {
      ViceChairImpliesChair(text);
      ChairComesFirst(matcher, text);
    } else if FirstHit(StandalonePatterns, matcher, text).Some? {
      TypeNameInjective(FirstHit(StandalonePatterns, matcher, text).value.0, ViceChair);
    }
  }

  /** A minister match sets the type and nothing else. */
  lemma NamelessMatches(matcher: Matcher, text: string)
    ensures PipelineSpeaker(matcher, text).speakerType == "국무위원" ==> PipelineSpeaker(matcher, text) == Unknown.(speakerType := "국무위원")
  {
    var r := FirstHit(PipelinePatterns, matcher, text);
    if r.Some? {
      TypeNameInjective(r.value.0, Minister);
      assert PipelineSpeaker(matcher, text) == PipelineFields(r.value.0, r.value.1);
    }
  }

  /** A minister or a vote-word match sets the type and leaves name and
      position empty. */
  lemma NamelessMatchesLine(matcher: Matcher, text: string)
    ensures var info := StandaloneSpeaker(matcher, text).info;
      info.speakerType in {"국무위원", "투표결과"} ==> info == Unknown.(speakerType := info.speakerType)
  {
    var r := FirstHit(StandalonePatterns, matcher, text);
    if r.Some? {
      var p := r.value.0;
      assert StandaloneSpeaker(matcher, text).info == StandaloneFields(text, p, r.value.1);
      TypeNameInjective(p, Minister);
      TypeNameInjective(p, VoteResult);
    }
  }

  /** The vote words are tried last: they decide only when none of the six
      speaker patterns matches, and then the two parsers differ only there. */
  lemma VoteWordsLast(matcher: Matcher, text: string)
    requires forall k :: 0 <= k < |PipelinePatterns| ==> Search(matcher, PipelinePatterns[k], text).None?
    ensures PipelineSpeaker(matcher, text) == Unknown
    ensures StandaloneSpeaker(matcher, text).info ==
      if ContainsAny(text, VoteWords) then Unknown.(speakerType := "투표결과") else Unknown
  {
    assert forall k :: 0 <= k < 6 ==> StandalonePatterns[k] == PipelinePatterns[k];
    if ContainsAny(text, VoteWords) {
      FirstHitAt(StandalonePatterns, matcher, text, 6);
    }
  }
}
