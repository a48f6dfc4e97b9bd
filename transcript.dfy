/** The transcript file names of plenary sessions: the fixed file-name
    pattern written out as a scanner, the fields it yields, the calendar
    check `strptime` makes on the date, and the naming scheme it inverts.
    The scanning helpers here (greedy runs, leftmost search) serve the other
    hand-written patterns too. */
module Transcript {
  import opened Common
  import opened Text

  // ---------------------------------------------------------------- scanning

  predicate IsHangul(c: char)
  {
    '가' <= c <= '힣'
  }

  /** The length of the longest run of characters satisfying `p` from `i`:
      what a greedy `p+` or `p*` consumes there. */
  function Run(s: string, i: nat, p: char -> bool): (n: nat)
    requires i <= |s|
    ensures i + n <= |s|
    decreases |s| - i
  {
    if i == |s| || !p(s[i]) then 0 else 1 + Run(s, i + 1, p)
  }

  /** The run is as long as it can be. */
  lemma {:induction false} RunIsMaximal(s: string, i: nat, p: char -> bool)
    requires i <= |s|
    ensures forall k :: i <= k < i + Run(s, i, p) ==> p(s[k])
    ensures i + Run(s, i, p) < |s| ==> !p(s[i + Run(s, i, p)])
    decreases |s| - i
  {
    if i < |s| && p(s[i]) {
      RunIsMaximal(s, i + 1, p);
    }
  }

  /** A run followed by a character outside the class ends right there. */
  lemma {:induction false} RunOfPrefix(s: string, i: nat, t: string, p: char -> bool)
    requires i + |t| < |s| && s[i..i + |t|] == t
    requires forall k :: 0 <= k < |t| ==> p(t[k])
    requires !p(s[i + |t|])
    ensures Run(s, i, p) == |t|
    decreases |t|
  {
    if t != [] {
      assert s[i + 1..i + 1 + |t[1..]|] == t[1..];
      RunOfPrefix(s, i + 1, t[1..], p);
    }
  }

  /** The leftmost position from `i` on at which `at` finds a match, with
      that match: `re.search` for a pattern matched by `at`. */
  function Leftmost<T>(s: string, i: nat, at: (string, nat) -> Option<T>): (r: Option<(nat, T)>)
    requires i <= |s|
    ensures r.Some? ==> i <= r.value.0 <= |s| && at(s, r.value.0) == Some(r.value.1)
    ensures r.Some? ==> forall j :: i <= j < r.value.0 ==> at(s, j).None?
    ensures r.None? ==> forall j :: i <= j <= |s| ==> at(s, j).None?
    decreases |s| - i
  {
    match at(s, i)
    case Some(m) => Some((i, m))
    case None => if i == |s| then None else Leftmost(s, i + 1, at)
  }

  /** The search from the start finds nothing exactly when nothing matches
      anywhere. */
  lemma LeftmostNoneIff<T>(s: string, at: (string, nat) -> Option<T>)
    ensures Leftmost(s, 0, at).None? <==> forall i :: 0 <= i <= |s| ==> at(s, i).None?
  {
    var r := Leftmost(s, 0, at);
    if r.Some? {
      assert at(s, r.value.0).Some?;
    }
  }

  /** A match at `i` with none before it is the leftmost one. */
  lemma {:induction false} LeftmostAt<T>(s: string, i: nat, at: (string, nat) -> Option<T>)
    requires i <= |s| && at(s, i).Some?
    requires forall j :: 0 <= j < i ==> at(s, j).None?
    ensures Leftmost(s, 0, at) == Some((i, at(s, i).value))
  {
    var r := Leftmost(s, 0, at);
    assert r.Some?;
    assert r.value.0 == i;
  }

  // ---------------------------------------------------------------- file names

  /** The five groups of the file-name pattern, as matched text. */
  datatype NameGroups = NameGroups(sessionId: string, assembly: string, session: string, meeting: string, date: string)

  /** `(\d+)` followed by the text `after`: the digits and the index just
      past `after`. */
  function DigitsThen(s: string, i: nat, after: string): (r: Option<(string, nat)>)
    requires i <= |s|
    ensures r.Some? ==> r.value.0 != "" && AllDigits(r.value.0) && r.value.1 <= |s|
  {
    var n := Run(s, i, IsDigit);
    RunIsMaximal(s, i, IsDigit);
    if n >= 1 && OccursAt(s, after, i + n) then Some((s[i..i + n], i + n + |after|)) else None
  }

  /** `국회본회의\s회의록_` at index `i`. */
  predicate HeaderAt(s: string, i: nat)
  {
    OccursAt(s, "국회본회의", i) && i + 5 < |s| && IsSpace(s[i + 5]) && OccursAt(s, "회의록_", i + 6)
  }

  /** The rest of the pattern, `(\d+)_제(\d+)대_제(\d+)회_제(\d+)차_(\d{8})\.json`,
      at index `j`. Every `\d+` is followed by a non-digit, so the greedy run
      is the only way on. */
  function FieldsAt(s: string, j: nat): (r: Option<NameGroups>)
    requires j <= |s|
    ensures r.Some? ==> r.value.sessionId != "" && AllDigits(r.value.sessionId)
    ensures r.Some? ==> |r.value.date| == 8 && AllDigits(r.value.date)
  {
    match DigitsThen(s, j, "_제")
    case None => None
    case Some((id, a)) =>
      match DigitsThen(s, a, "대_제")
      case None => None
      case Some((assembly, b)) =>
        match DigitsThen(s, b, "회_제")
        case None => None
        case Some((session, c)) =>
          match DigitsThen(s, c, "차_")
          case None => None
          case Some((meeting, d)) =>
            RunIsMaximal(s, d, IsDigit);
            if Run(s, d, IsDigit) >= 8 && OccursAt(s, ".json", d + 8)
            then Some(NameGroups(id, assembly, session, meeting, s[d..d + 8]))
            else None
  }

  /** The file-name pattern matched at index `i`. */
  function FilenameAt(s: string, i: nat): (r: Option<NameGroups>)
    ensures r.Some? ==> r.value.sessionId != "" && AllDigits(r.value.sessionId)
    ensures r.Some? ==> |r.value.date| == 8 && AllDigits(r.value.date)
  {
    if HeaderAt(s, i) then FieldsAt(s, i + 10) else None
  }

  /** A calendar date. */
  datatype Date = Date(year: nat, month: nat, day: nat)

  predicate LeapYear(y: nat)
  {
    y % 4 == 0 && (y % 100 != 0 || y % 400 == 0)
  }

  function DaysInMonth(y: nat, m: nat): nat
    requires 1 <= m <= 12
  {
    if m == 2 then (if LeapYear(y) then 29 else 28)
    else if m == 4 || m == 6 || m == 9 || m == 11 then 30
    else 31
  }

  /** What `datetime` accepts. */
  predicate ValidDate(d: Date)
  {
    1 <= d.year && 1 <= d.month <= 12 && 1 <= d.day <= DaysInMonth(d.year, d.month)
  }

  /** The fields `strptime(digits, "%Y%m%d")` reads from eight digits: four
      for the year, then two each for the month and the day. */
  function ReadDate(digits: string): Date
    requires |digits| == 8
  {
    Date(DigitsValue(digits[..4]), DigitsValue(digits[4..6]), DigitsValue(digits[6..]))
  }

  /** The numbered fields of a transcript file name. */
  datatype FileInfo = FileInfo(sessionId: string, assemblyNumber: nat, sessionNumber: nat, meetingNumber: nat, meetingDate: Date)

  /** The dictionary of the standalone parser: those fields, the date digits,
      the meeting type and the file name itself. The pipeline's parser
      returns the `info` part. */
  datatype FileRecord = FileRecord(info: FileInfo, dateString: string, meetingType: string, filename: string)

  /** No match (`{}`), a match whose date `strptime` rejects (it raises), or
      the parsed record. */
  datatype FilenameParse = NoMatch | InvalidDate(dateString: string) | Parsed(record: FileRecord)

  const MeetingType := "본회의"

  /** `parse_filename`: search the name for the pattern, read the numbers
      with `int()` and the date with `strptime`. */
  function ParseFilename(filename: string): (r: FilenameParse)
    ensures r.NoMatch? <==> forall i :: 0 <= i <= |filename| ==> FilenameAt(filename, i).None?
    ensures r.Parsed? ==>
      var rec := r.record;
      rec.filename == filename && rec.meetingType == MeetingType &&
      rec.info.sessionId != "" && AllDigits(rec.info.sessionId) &&
      |rec.dateString| == 8 && AllDigits(rec.dateString) &&
      rec.info.meetingDate == ReadDate(rec.dateString) && ValidDate(rec.info.meetingDate)
    ensures r.InvalidDate? ==> |r.dateString| == 8 && !ValidDate(ReadDate(r.dateString))
  {
    match Leftmost(filename, 0, FilenameAt)
    case None => NoMatch
    case Some((_, g)) =>
      var date := ReadDate(g.date);
      if !ValidDate(date) then InvalidDate(g.date)
      else
        var info := FileInfo(g.sessionId, DigitsValue(g.assembly), DigitsValue(g.session), DigitsValue(g.meeting), date);
        Parsed(FileRecord(info, g.date, MeetingType, filename))
  }

  /** A name without `국회본회의` never matches. */
  lemma NoTitleNoMatch(filename: string)
    requires !Contains(filename, "국회본회의")
    ensures ParseFilename(filename) == NoMatch
  {
    forall i: nat | i <= |filename| ensures FilenameAt(filename, i).None? {
      assert !OccursAt(filename, "국회본회의", i);
    }
  }

  // ---------------------------------------------------------------- naming

  function Pow10(k: nat): nat
  {
    if k == 0 then 1 else 10 * Pow10(k - 1)
  }

  lemma {:induction false} NatToStringLength(n: nat, k: nat)
    requires 1 <= k && n < Pow10(k)
    ensures |NatToString(n)| <= k
  {
    if n >= 10 {
      assert k >= 2;
      assert n / 10 < Pow10(k - 1);
      NatToStringLength(n / 10, k - 1);
    }
  }

  /** The eight date digits of a file name. */
  function DateDigits(d: Date): string
  {
    ZeroPad(d.year, 4) + ZeroPad(d.month, 2) + ZeroPad(d.day, 2)
  }

  /** Reading back the digits of a date gives the date. */
  lemma ReadDateDigits(d: Date)
    requires ValidDate(d) && d.year < 10000
    ensures |DateDigits(d)| == 8 && AllDigits(DateDigits(d)) && ReadDate(DateDigits(d)) == d
  {
    NatToStringLength(d.year, 4);
    NatToStringLength(d.month, 2);
    NatToStringLength(d.day, 2);
    var digits := DateDigits(d);
    assert digits[..4] == ZeroPad(d.year, 4);
    assert digits[4..6] == ZeroPad(d.month, 2);
    assert digits[6..] == ZeroPad(d.day, 2);
  }

  /** The fields a file name can carry. */
  predicate Nameable(info: FileInfo)
  {
    info.sessionId != "" && AllDigits(info.sessionId) && ValidDate(info.meetingDate) && info.meetingDate.year < 10000
  }

  const Header := "국회본회의 회의록_"

  /** The naming scheme of the transcript files. */
  function FileName(info: FileInfo): string
  {
    Header + info.sessionId + "_제" + NatToString(info.assemblyNumber) + "대_제" +
    NatToString(info.sessionNumber) + "회_제" + NatToString(info.meetingNumber) + "차_" +
    DateDigits(info.meetingDate) + ".json"
  }

  predicate NameParts(s: string, id: string, a: string, b: string, c: string, d: string)
  {
    id != "" && AllDigits(id) && a != "" && AllDigits(a) && b != "" && AllDigits(b) &&
    c != "" && AllDigits(c) && |d| == 8 && AllDigits(d) &&
    s == Header + id + "_제" + a + "대_제" + b + "회_제" + c + "차_" + d + ".json"
  }

  /** A separator of the pattern: it starts with a non-digit, so it ends
      the run of digits before it. */
  predicate Separator(sep: string)
  {
    sep != "" && !IsDigit(sep[0])
  }


  /** A concatenation that begins a string has its first part begin it too. */
  lemma ShorterPrefix(p: string, x: string, y: string, s: string)
    requires p + x + y <= s
    ensures p <= s
  {
    assert forall k :: 0 <= k < |p| ==> (p + x + y)[k] == p[k];
  }

  /** Digits closed by a separator, at the start of `s` after `pre`. */
  lemma DigitsThenPrefix(s: string, pre: string, digits: string, after: string, i: nat)
    requires pre + digits + after <= s && i == |pre|
    requires digits != "" && AllDigits(digits) && Separator(after)
    ensures DigitsThen(s, i, after) == Some((digits, i + |digits| + |after|))
  {
    var t := pre + digits + after;
    var j := i + |digits|;
    assert s[i..j] == t[i..j] == digits;
    assert s[j] == t[j] == after[0];
    RunOfPrefix(s, i, digits, IsDigit);
    assert s[j..][..|after|] == t[j..] == after;
  }

  /** Eight digits and then the extension, after `pre`. */
  lemma DatePrefix(s: string, pre: string, d: string, ext: string, i: nat)
    requires pre + d + ext <= s && i == |pre|
    requires |d| == 8 && AllDigits(d) && Separator(ext)
    ensures i + 8 <= |s| && Run(s, i, IsDigit) == 8 && OccursAt(s, ext, i + 8) && s[i..i + 8] == d
  {
    var t := pre + d + ext;
    assert s[i..i + 8] == t[i..i + 8] == d;
    assert s[i + 8] == t[i + 8] == ext[0];
    RunOfPrefix(s, i, d, IsDigit);
    assert s[i + 8..][..|ext|] == t[i + 8..] == ext;
  }

  /** Two digit fields, each closed by its separator, after `pre`. */
  lemma TwoFieldsIn(s: string, pre: string, x: string, sx: string, y: string, sy: string, i: nat, j: nat, k: nat)
    requires pre + x + sx + y + sy <= s
    requires x != "" && AllDigits(x) && y != "" && AllDigits(y) && Separator(sx) && Separator(sy)
    requires i == |pre| && j == i + |x| + |sx| && k == j + |y| + |sy|
    ensures DigitsThen(s, i, sx) == Some((x, j)) && DigitsThen(s, j, sy) == Some((y, k))
  {
    ShorterPrefix(pre + x + sx, y, sy, s);
    assert DigitsThen(s, i, sx) == Some((x, j)) by {
      DigitsThenPrefix(s, pre, x, sx, i);
    }
    DigitsThenPrefix(s, pre + x + sx, y, sy, j);
  }

  /** Four digit fields, each closed by its separator, then eight digits and
      the extension: each field is read in turn. */
  lemma FieldsIn(s: string, h: string, id: string, s1: string, a: string, s2: string, b: string, s3: string,
                 c: string, s4: string, d: string, ext: string, k1: nat, k2: nat, k3: nat, k4: nat)
    requires h + id + s1 + a + s2 + b + s3 + c + s4 + d + ext <= s
    requires id != "" && AllDigits(id) && a != "" && AllDigits(a) && b != "" && AllDigits(b)
    requires c != "" && AllDigits(c) && |d| == 8 && AllDigits(d)
    requires Separator(s1) && Separator(s2) && Separator(s3) && Separator(s4) && Separator(ext)
    requires k1 == |h| + |id| + |s1| && k2 == k1 + |a| + |s2| && k3 == k2 + |b| + |s3| && k4 == k3 + |c| + |s4|
    ensures h <= s
    ensures DigitsThen(s, |h|, s1) == Some((id, k1)) && DigitsThen(s, k1, s2) == Some((a, k2))
    ensures DigitsThen(s, k2, s3) == Some((b, k3)) && DigitsThen(s, k3, s4) == Some((c, k4))
    ensures k4 + 8 <= |s| && Run(s, k4, IsDigit) == 8 && OccursAt(s, ext, k4 + 8) && s[k4..k4 + 8] == d
  {
    var p2 := h + id + s1 + a + s2;
    var p4 := p2 + b + s3 + c + s4;
    ShorterPrefix(p4, d, ext, s);
    ShorterPrefix(p2 + b + s3, c, s4, s);
    ShorterPrefix(p2, b, s3, s);
    ShorterPrefix(h + id + s1, a, s2, s);
    ShorterPrefix(h, id, s1, s);
    TwoFieldsIn(s, h, id, s1, a, s2, |h|, k1, k2);
    TwoFieldsIn(s, p2, b, s3, c, s4, k2, k3, k4);
    DatePrefix(s, p4, d, ext, k4);
  }

  /** `Header` at the start of a string. */
  lemma HeaderPrefix(s: string)
    requires Header <= s
    ensures HeaderAt(s, 0)
  {
    assert s[..5] == Header[..5] == "국회본회의";
    assert s[5] == Header[5] == ' ';
    assert s[6..][..4] == Header[6..] == "회의록_";
  }

  lemma FilenameAtParts(s: string, id: string, a: string, b: string, c: string, d: string)
    requires NameParts(s, id, a, b, c, d)
    ensures FilenameAt(s, 0) == Some(NameGroups(id, a, b, c, d))
  {
    assert Separator("_제") && Separator("대_제") && Separator("회_제") && Separator("차_") && Separator(".json");
    var k1 := 10 + |id| + 2;
    var k2 := k1 + |a| + 3;
    var k3 := k2 + |b| + 3;
    var k4 := k3 + |c| + 2;
    FieldsIn(s, Header, id, "_제", a, "대_제", b, "회_제", c, "차_", d, ".json", k1, k2, k3, k4);
    HeaderPrefix(s);
    FilenameAtSteps(s, id, a, b, c, d, k1, k2, k3, k4);
  }

  lemma FilenameAtSteps(s: string, id: string, a: string, b: string, c: string, d: string, k1: nat, k2: nat, k3: nat, k4: nat)
    requires HeaderAt(s, 0) && 10 <= |s|
    requires DigitsThen(s, 10, "_제") == Some((id, k1)) && DigitsThen(s, k1, "대_제") == Some((a, k2))
    requires DigitsThen(s, k2, "회_제") == Some((b, k3)) && DigitsThen(s, k3, "차_") == Some((c, k4))
    requires Run(s, k4, IsDigit) == 8 && OccursAt(s, ".json", k4 + 8) && s[k4..k4 + 8] == d
    ensures FilenameAt(s, 0) == Some(NameGroups(id, a, b, c, d))
  {
  }

  lemma FilenameAtName(info: FileInfo)
    requires Nameable(info)
    ensures FilenameAt(FileName(info), 0) == Some(NameGroups(info.sessionId, NatToString(info.assemblyNumber),
      NatToString(info.sessionNumber), NatToString(info.meetingNumber), DateDigits(info.meetingDate)))
  {
    ReadDateDigits(info.meetingDate);
    FilenameAtParts(FileName(info), info.sessionId, NatToString(info.assemblyNumber), NatToString(info.sessionNumber),
                    NatToString(info.meetingNumber), DateDigits(info.meetingDate));
  }

  /** A file named by the scheme parses back to its fields. */
  lemma ParseFileName(info: FileInfo)
    requires Nameable(info)
    ensures ParseFilename(FileName(info)) == Parsed(FileRecord(info, DateDigits(info.meetingDate), MeetingType, FileName(info)))
  {
    FilenameAtName(info);
    ReadDateDigits(info.meetingDate);
    DigitsValueOfNatToString(info.assemblyNumber);
    DigitsValueOfNatToString(info.sessionNumber);
    DigitsValueOfNatToString(info.meetingNumber);
  }

  /** The file of the 14th meeting of the 400th session of the 21st
      assembly, held on 8 December 2022: "국회본회의 회의록_052588_제21대_제400회_제14차_20221208.json". */
  const WorkedName := Header + "052588" + "_제" + "21" + "대_제" + "400" + "회_제" + "14" + "차_" + "20221208" + ".json"

  lemma WorkedNameParts()
    ensures NameParts(WorkedName, "052588", "21", "400", "14", "20221208")
  {
    assert AllDigits("052588") && AllDigits("20221208");
  }

  lemma WorkedNameGroups()
    ensures FilenameAt(WorkedName, 0) == Some(NameGroups("052588", "21", "400", "14", "20221208"))
  {
    WorkedNameParts();
    FilenameAtParts(WorkedName, "052588", "21", "400", "14", "20221208");
  }

  /** A name whose first position matches is parsed from those groups. */
  lemma {:induction false} ParseFromStart(filename: string, g: NameGroups)
    requires FilenameAt(filename, 0) == Some(g)
    ensures ParseFilename(filename) ==
      var date := ReadDate(g.date);
      if !ValidDate(date) then InvalidDate(g.date)
      else Parsed(FileRecord(FileInfo(g.sessionId, DigitsValue(g.assembly), DigitsValue(g.session), DigitsValue(g.meeting), date),
                             g.date, MeetingType, filename))
  {
  }

  lemma WorkedDate()
    ensures ReadDate("20221208") == Date(2022, 12, 8) && ValidDate(Date(2022, 12, 8))
  {
    var s := "20221208";
    assert s[..4] == "2022" && s[4..6] == "12" && s[6..] == "08";
    assert DigitsValue("2022") == 2022 by {
      assert "2022"[..3] == "202" && "202"[..2] == "20" && "20"[..1] == "2" && "2"[..0] == [];
    }
    assert DigitsValue("12") == 12 by {
      assert "12"[..1] == "1" && "1"[..0] == [];
    }
    assert DigitsValue("08") == 8 by {
      assert "08"[..1] == "0" && "0"[..0] == [];
    }
  }

  lemma WorkedNumbers()
    ensures DigitsValue("21") == 21 && DigitsValue("400") == 400 && DigitsValue("14") == 14
  {
  }

  lemma WorkedFilename()
    ensures ParseFilename(WorkedName) ==
      Parsed(FileRecord(FileInfo("052588", 21, 400, 14, Date(2022, 12, 8)), "20221208", MeetingType, WorkedName))
  {
    WorkedNameGroups();
    ParseFromStart(WorkedName, NameGroups("052588", "21", "400", "14", "20221208"));
    WorkedDate();
    WorkedNumbers();
  }
}
