/** Python string behaviour the scripts rely on: `in` (substring test),
    `startswith`, `strip()`, `str.join`, `int()` of a decimal string, `str()`
    and zero-padded formatting of integers, truthiness, and the ASCII part of
    `lower()`. Strings are sequences of Unicode scalar values, as in Python. */
module Text {
  import opened Common

  /** Python's `str.isspace()` (and the `\s` class of `re` on `str`). */
  predicate IsSpace(c: char)
  {
    ('\t' <= c <= '\r') || ('\U{001C}' <= c <= ' ') || c == '\U{0085}' || c == '\U{00A0}' ||
    c == '\U{1680}' || ('\U{2000}' <= c <= '\U{200A}') || c == '\U{2028}' || c == '\U{2029}' ||
    c == '\U{202F}' || c == '\U{205F}' || c == '\U{3000}'
  }

  /** The ASCII digits; `\d` and `int()` are restricted to these here. */
  predicate IsDigit(c: char)
  {
    '0' <= c <= '9'
  }

  predicate AllDigits(s: string)
  {
    forall i :: 0 <= i < |s| ==> IsDigit(s[i])
  }

  predicate StartsWith(s: string, p: string)
  {
    |p| <= |s| && s[..|p|] == p
  }

  /** A string starts with whatever it is built on. */
  lemma StartsWithAppend(p: string, s: string)
    ensures StartsWith(p + s, p)
  {
    assert (p + s)[..|p|] == p;
  }

  predicate EndsWith(s: string, p: string)
  {
    |p| <= |s| && s[|s| - |p|..] == p
  }

  /** `p` occurs in `s` starting at index `i`. */
  predicate OccursAt(s: string, p: string, i: nat)
  {
    i <= |s| && StartsWith(s[i..], p)
  }

  /** Python's `p in s` on strings. */
  predicate Contains(s: string, p: string)
  {
    exists i: nat | i <= |s| :: OccursAt(s, p, i)
  }

  /** Some word of `words` occurs in `s`: `any(k in s for k in words)`, and
      `re.search` for an alternation of literals. */
  predicate ContainsAny(s: string, words: seq<string>)
  {
    exists k :: 0 <= k < |words| && Contains(s, words[k])
  }

  lemma OccursAtContains(s: string, p: string, i: nat)
    requires OccursAt(s, p, i)
    ensures Contains(s, p)
  {
  }

  /** A string containing `a` contains everything `a` contains. */
  lemma ContainsTransitive(s: string, a: string, b: string)
    requires Contains(s, a) && Contains(a, b)
    ensures Contains(s, b)
  {
    var i: nat :| i <= |s| && OccursAt(s, a, i);
    var j: nat :| j <= |a| && OccursAt(a, b, j);
    assert s[i..][..|a|] == a;
    assert a[j..][..|b|] == b;
    assert s[i + j..][..|b|] == b by {
      forall t | 0 <= t < |b| ensures s[i + j..][..|b|][t] == b[t] {
        assert s[i + j + t] == a[j + t];
      }
    }
    assert OccursAt(s, b, i + j);
  }

  /** Python truthiness of a string. */
  predicate Truthy(s: string)
  {
    s != ""
  }

  /** Python truthiness of a value that may be `None`. */
  predicate TruthyOpt(o: Option<string>)
  {
    o.Some? && o.value != ""
  }

  /** What an f-string prints for a `str` value that may be `None`. */
  function Show(o: Option<string>): string
  {
    match o
    case None => "None"
    case Some(s) => s
  }

  /** `str.join`: `sep.join(parts)`. */
  function Join(sep: string, parts: seq<string>): string
    decreases |parts|
  {
    if parts == [] then ""
    else if |parts| == 1 then parts[0]
    else parts[0] + sep + Join(sep, parts[1..])
  }

  lemma {:induction false} JoinSnoc(sep: string, parts: seq<string>, last: string)
    requires parts != []
    ensures Join(sep, parts + [last]) == Join(sep, parts) + sep + last
    decreases |parts|
  {
    if |parts| == 1 {
      assert parts + [last] == [parts[0], last];
    } else {
      assert (parts + [last])[1..] == parts[1..] + [last];
      JoinSnoc(sep, parts[1..], last);
    }
  }

  /** A first part followed by up to two optional parts: each present part
      comes after one separator. */
  lemma JoinParts(sep: string, first: string, second: seq<string>, third: seq<string>)
    requires |second| <= 1 && |third| <= 1
    ensures second != [] && third != [] ==> Join(sep, [first] + second + third) == first + (sep + second[0]) + (sep + third[0])
    ensures second != [] && third == [] ==> Join(sep, [first] + second + third) == first + (sep + second[0])
    ensures second == [] && third != [] ==> Join(sep, [first] + second + third) == first + (sep + third[0])
    ensures second == [] && third == [] ==> Join(sep, [first] + second + third) == first
  {
    var parts := [first] + second + third;
    if second != [] && third != [] {
      assert parts == [first, second[0], third[0]];
      JoinThree(sep, first, second[0], third[0]);
    } else if second != [] {
      assert parts == [first, second[0]];
      JoinTwo(sep, first, second[0]);
    } else if third != [] {
      assert parts == [first, third[0]];
      JoinTwo(sep, first, third[0]);
    } else {
      assert parts == [first];
    }
  }

  lemma JoinTwo(sep: string, a: string, b: string)
    ensures Join(sep, [a, b]) == a + (sep + b)
  {
    assert [a, b][1..] == [b];
  }

  lemma JoinThree(sep: string, a: string, b: string, c: string)
    ensures Join(sep, [a, b, c]) == a + (sep + b) + (sep + c)
  {
    assert [a, b, c][1..] == [b, c];
    JoinTwo(sep, b, c);
    assert a + sep + (b + (sep + c)) == a + (sep + b) + (sep + c);
  }

  lemma JoinStartsWithFirst(sep: string, parts: seq<string>)
    requires parts != []
    ensures StartsWith(Join(sep, parts), parts[0])
  {
    if |parts| > 1 {
      assert Join(sep, parts) == parts[0] + (sep + Join(sep, parts[1..]));
    }
  }

  /** `[render(i, x) for i, x in enumerate(xs, start)]`: one text per item,
      numbered from `start` in input order. */
  function Numbered<T>(xs: seq<T>, start: nat, render: (nat, T) -> string): (r: seq<string>)
    ensures |r| == |xs|
    ensures forall j :: 0 <= j < |xs| ==> r[j] == render(start + j, xs[j])
    decreases |xs|
  {
    if xs == [] then [] else [render(start, xs[0])] + Numbered(xs[1..], start + 1, render)
  }

  lemma NumberedSnoc<T>(xs: seq<T>, x: T, start: nat, render: (nat, T) -> string)
    ensures Numbered(xs + [x], start, render) == Numbered(xs, start, render) + [render(start + |xs|, x)]
  {
    var l := Numbered(xs + [x], start, render);
    var r := Numbered(xs, start, render) + [render(start + |xs|, x)];
    assert |l| == |r|;
    forall j | 0 <= j < |l| ensures l[j] == r[j] {
      if j < |xs| {
        assert (xs + [x])[j] == xs[j];
      }
    }
  }

  /** Two numbered runs back to back, the second numbered on from the
      first: one text per item of either list, in order. */
  lemma NumberedThenNumbered<A, B>(xs: seq<A>, ys: seq<B>, f: (nat, A) -> string, g: (nat, B) -> string)
    ensures var b := Numbered(xs, 1, f) + Numbered(ys, |xs| + 1, g);
      |b| == |xs| + |ys| &&
      (forall j :: 0 <= j < |xs| ==> b[j] == f(j + 1, xs[j])) &&
      (forall j :: 0 <= j < |ys| ==> b[|xs| + j] == g(|xs| + 1 + j, ys[j]))
  {
    var a := Numbered(xs, 1, f);
    var c := Numbered(ys, |xs| + 1, g);
    forall j | 0 <= j < |ys| ensures (a + c)[|xs| + j] == g(|xs| + 1 + j, ys[j]) {
      assert (a + c)[|xs| + j] == c[j];
    }
  }

  /** The loop `for i, x in enumerate(xs, start): parts.append(render(i, x))`. */
  method AppendNumbered<T>(parts: seq<string>, xs: seq<T>, start: nat, render: (nat, T) -> string) returns (r: seq<string>)
    ensures r == parts + Numbered(xs, start, render)
  {
    r := parts;
    var i := 0;
    while i < |xs|
      invariant 0 <= i <= |xs|
      invariant r == parts + Numbered(xs[..i], start, render)
    {
      assert xs[..i + 1] == xs[..i] + [xs[i]];
      NumberedSnoc(xs[..i], xs[i], start, render);
      r := r + [render(start + i, xs[i])];
      i := i + 1;
    }
    assert xs[..i] == xs;
  }

  // ---------------------------------------------------------------- strip()

  function LStrip(s: string): (r: string)
    ensures |r| <= |s| && r == s[|s| - |r|..]
    ensures r != [] ==> !IsSpace(r[0])
    decreases |s|
  {
    if s != [] && IsSpace(s[0]) then LStrip(s[1..]) else s
  }

  function RStrip(s: string): (r: string)
    ensures |r| <= |s| && r == s[..|r|]
    ensures r != [] ==> !IsSpace(r[|r| - 1])
    decreases |s|
  {
    if s != [] && IsSpace(s[|s| - 1]) then RStrip(s[..|s| - 1]) else s
  }

  /** Python's `str.strip()` with no argument. */
  function Strip(s: string): string
  {
    RStrip(LStrip(s))
  }

  predicate AllSpace(s: string)
  {
    forall i :: 0 <= i < |s| ==> IsSpace(s[i])
  }

  lemma {:induction false} LStripEmpty(s: string)
    ensures LStrip(s) == [] <==> AllSpace(s)
    decreases |s|
  {
    if s != [] && IsSpace(s[0]) {
      LStripEmpty(s[1..]);
      assert AllSpace(s) <==> AllSpace(s[1..]) by {
        if AllSpace(s[1..]) {
          forall i | 0 <= i < |s| ensures IsSpace(s[i]) {
            if i > 0 { assert s[i] == s[1..][i - 1]; }
          }
        }
      }
    }
  }

  lemma {:induction false} RStripEmpty(s: string)
    ensures RStrip(s) == [] <==> AllSpace(s)
    decreases |s|
  {
    if s != [] && IsSpace(s[|s| - 1]) {
      RStripEmpty(s[..|s| - 1]);
      assert AllSpace(s) <==> AllSpace(s[..|s| - 1]) by {
        if AllSpace(s[..|s| - 1]) {
          forall i | 0 <= i < |s| ensures IsSpace(s[i]) {
            if i < |s| - 1 { assert s[i] == s[..|s| - 1][i]; }
          }
        }
      }
    }
  }

  /** `s.strip()` is empty exactly when `s` consists of whitespace only. */
  lemma StripEmptyIff(s: string)
    ensures Strip(s) == "" <==> AllSpace(s)
  {
    LStripEmpty(s);
    RStripEmpty(LStrip(s));
  }

  /** `strip()` leaves a string alone when it neither starts nor ends with
      whitespace. */
  lemma StripUnchanged(s: string)
    requires s != [] && !IsSpace(s[0]) && !IsSpace(s[|s| - 1])
    ensures Strip(s) == s
  {
  }

  // ---------------------------------------------------------------- integers

  function DigitChar(d: nat): char
    requires d < 10
  {
    ('0' as int + d) as char
  }

  /** `str(n)` for a non-negative integer. */
  function NatToString(n: nat): (r: string)
    ensures |r| >= 1 && AllDigits(r)
    ensures r[0] == '0' ==> n == 0
  {
    if n < 10 then [DigitChar(n)] else NatToString(n / 10) + [DigitChar(n % 10)]
  }

  /** `str(n)` for any integer. */
  function IntToString(n: int): string
  {
    if n < 0 then "-" + NatToString(-n) else NatToString(n)
  }

  /** `int(s)` for a string of ASCII digits. */
  function DigitsValue(s: string): nat
    decreases |s|
  {
    if s == [] then 0
    else DigitsValue(s[..|s| - 1]) * 10 + (if IsDigit(s[|s| - 1]) then s[|s| - 1] as int - '0' as int else 0)
  }

  /** Parsing what `str` printed gives the number back. */
  lemma {:induction false} DigitsValueOfNatToString(n: nat)
    ensures DigitsValue(NatToString(n)) == n
  {
    if n >= 10 {
      var s := NatToString(n / 10) + [DigitChar(n % 10)];
      assert s[..|s| - 1] == NatToString(n / 10);
      DigitsValueOfNatToString(n / 10);
    }
  }

  /** Leading zeros do not change the value `int()` reads. */
  lemma {:induction false} DigitsValueLeadingZeros(z: nat, s: string)
    ensures DigitsValue(Zeros(z) + s) == DigitsValue(s)
    decreases |s|
  {
    if s == [] {
      assert Zeros(z) + s == Zeros(z);
      ZerosValue(z);
    } else {
      var t := Zeros(z) + s;
      assert t[..|t| - 1] == Zeros(z) + s[..|s| - 1];
      DigitsValueLeadingZeros(z, s[..|s| - 1]);
    }
  }

  lemma {:induction false} ZerosValue(z: nat)
    ensures DigitsValue(Zeros(z)) == 0
  {
    if z > 0 {
      assert Zeros(z)[..z - 1] == Zeros(z - 1);
      ZerosValue(z - 1);
    }
  }

  function Zeros(z: nat): (r: string)
    ensures |r| == z && forall i :: 0 <= i < z ==> r[i] == '0'
  {
    if z == 0 then "" else "0" + Zeros(z - 1)
  }

  /** f"{n:0{width}d}" for a non-negative integer. */
  function ZeroPad(n: nat, width: nat): (r: string)
    ensures |r| >= width && AllDigits(r)
    ensures DigitsValue(r) == n
  {
    var digits := NatToString(n);
    DigitsValueOfNatToString(n);
    DigitsValueLeadingZeros(if |digits| < width then width - |digits| else 0, digits);
    (if |digits| < width then Zeros(width - |digits|) else "") + digits
  }

  // ---------------------------------------------------------------- lower()

  predicate IsAsciiLetter(c: char)
  {
    ('A' <= c <= 'Z') || ('a' <= c <= 'z')
  }

  function LowerChar(c: char): char
  {
    if 'A' <= c <= 'Z' then (c as int + 32) as char else c
  }

  /** The ASCII part of `str.lower()`. */
  function Lower(s: string): (r: string)
    ensures |r| == |s| && forall i :: 0 <= i < |s| ==> r[i] == LowerChar(s[i])
  {
    seq(|s|, i requires 0 <= i < |s| => LowerChar(s[i]))
  }

  lemma OccursAtLower(q: string, k: string, i: nat)
    requires forall t :: 0 <= t < |k| ==> !IsAsciiLetter(k[t])
    ensures OccursAt(Lower(q), k, i) <==> OccursAt(q, k, i)
  {
    var l := Lower(q);
    if i + |k| <= |q| {
      if OccursAt(l, k, i) {
        forall t | 0 <= t < |k| ensures q[i..][..|k|][t] == k[t] {
          assert l[i..][..|k|][t] == k[t];
        }
      }
      if OccursAt(q, k, i) {
        forall t | 0 <= t < |k| ensures l[i..][..|k|][t] == k[t] {
          assert q[i..][..|k|][t] == k[t];
        }
      }
    }
  }

  /** Lower-casing the query cannot create or destroy an occurrence of a
      keyword that holds no ASCII letter, so `k in q.lower()` is `k in q` for
      every keyword of the classifier. */
  lemma LowerKeepsLetterFreeOccurrences(q: string, k: string)
    requires forall t :: 0 <= t < |k| ==> !IsAsciiLetter(k[t])
    ensures Contains(Lower(q), k) <==> Contains(q, k)
  {
    var l := Lower(q);
    if Contains(l, k) {
      var i: nat :| i <= |l| && OccursAt(l, k, i);
      OccursAtLower(q, k, i);
    }
    if Contains(q, k) {
      var i: nat :| i <= |q| && OccursAt(q, k, i);
      OccursAtLower(q, k, i);
    }
  }

  // ---------------------------------------------------------------- ordering

  /** Python's `a <= b` on strings: code point by code point, a proper
      prefix first. */
  predicate LexLe(a: string, b: string)
    decreases |a|
  {
    a == [] || (b != [] && (a[0] < b[0] || (a[0] == b[0] && LexLe(a[1..], b[1..]))))
  }

  lemma {:induction false} LexLeTotal(a: string, b: string)
    ensures LexLe(a, b) || LexLe(b, a)
    decreases |a|
  {
    if a != [] && b != [] && a[0] == b[0] {
      LexLeTotal(a[1..], b[1..]);
    }
  }

  lemma {:induction false} LexLeTrans(a: string, b: string, c: string)
    requires LexLe(a, b) && LexLe(b, c)
    ensures LexLe(a, c)
    decreases |a|
  {
    if a != [] && b != [] && c != [] && a[0] == b[0] && b[0] == c[0] {
      LexLeTrans(a[1..], b[1..], c[1..]);
    }
  }

  lemma {:induction false} LexLeAntisym(a: string, b: string)
    requires LexLe(a, b) && LexLe(b, a)
    ensures a == b
    decreases |a|
  {
    if a != [] {
      LexLeAntisym(a[1..], b[1..]);
      assert a == [a[0]] + a[1..] && b == [b[0]] + b[1..];
    }
  }

  /** `sorted(xs)[0]`: the least element. */
  function LexMin(xs: seq<string>): (r: string)
    requires xs != []
    ensures r in xs
    decreases |xs|
  {
    if |xs| == 1 then xs[0]
    else
      var m := LexMin(xs[1..]);
      if LexLe(xs[0], m) then xs[0] else m
  }

  /** `sorted(xs)[-1]`: the greatest element. */
  function LexMax(xs: seq<string>): (r: string)
    requires xs != []
    ensures r in xs
    decreases |xs|
  {
    if |xs| == 1 then xs[0]
    else
      var m := LexMax(xs[1..]);
      if LexLe(m, xs[0]) then xs[0] else m
  }

  lemma {:induction false} LexMinIsLeast(xs: seq<string>)
    requires xs != []
    ensures forall x :: x in xs ==> LexLe(LexMin(xs), x)
    decreases |xs|
  {
    if |xs| > 1 {
      LexMinIsLeast(xs[1..]);
      var m := LexMin(xs[1..]);
      LexLeTotal(xs[0], m);
      forall x | x in xs ensures LexLe(LexMin(xs), x) {
        if x == xs[0] {
          LexLeTotal(x, x);
        } else {
          assert x in xs[1..];
          if LexLe(xs[0], m) {
            LexLeTrans(xs[0], m, x);
          }
        }
      }
    } else {
      LexLeTotal(xs[0], xs[0]);
    }
  }

  lemma {:induction false} LexMaxIsGreatest(xs: seq<string>)
    requires xs != []
    ensures forall x :: x in xs ==> LexLe(x, LexMax(xs))
    decreases |xs|
  {
    if |xs| > 1 {
      LexMaxIsGreatest(xs[1..]);
      var m := LexMax(xs[1..]);
      LexLeTotal(xs[0], m);
      forall x | x in xs ensures LexLe(x, LexMax(xs)) {
        if x == xs[0] {
          LexLeTotal(x, x);
        } else {
          assert x in xs[1..];
          if LexLe(m, xs[0]) {
            LexLeTrans(x, m, xs[0]);
          }
        }
      }
    } else {
      LexLeTotal(xs[0], xs[0]);
    }
  }
}
