/** The round-robin merge of the `hybrid_balanced` strategy: whole rounds
    of one element from each list, stopped after the first round that
    reaches the requested number. */
module RoundRobin {
  import opened Common

  function MaxLen<T>(a: seq<T>, b: seq<T>): nat
  {
    if |a| >= |b| then |a| else |b|
  }

  /** Round `i` of the balanced loop: `a[i]` then `b[i]`, each if present. */
  function Round<T>(a: seq<T>, b: seq<T>, i: nat): (r: seq<T>)
    ensures |r| <= 2
    ensures i < MaxLen(a, b) ==> |r| >= 1
  {
    (if i < |a| then [a[i]] else []) + (if i < |b| then [b[i]] else [])
  }

  /** The first `n` rounds. */
  function Rounds<T>(a: seq<T>, b: seq<T>, n: nat): (r: seq<T>)
    ensures |r| <= 2 * n
    decreases n
  {
    if n == 0 then [] else Rounds(a, b, n - 1) + Round(a, b, n - 1)
  }

  /** Rounds from `n` on, stopping after the first round that brings the
      length to `k` or more, or after the last round. */
  function BalancedFrom<T>(a: seq<T>, b: seq<T>, k: nat, n: nat): seq<T>
    requires 1 <= n <= MaxLen(a, b)
    decreases MaxLen(a, b) - n
  {
    if |Rounds(a, b, n)| >= k || n == MaxLen(a, b) then Rounds(a, b, n) else BalancedFrom(a, b, k, n + 1)
  }

  /** The `hybrid_balanced` merge: whole rounds, with the length test made
      only after each round. */
  function Balanced<T>(a: seq<T>, b: seq<T>, k: nat): seq<T>
  {
    if MaxLen(a, b) == 0 then [] else BalancedFrom(a, b, k, 1)
  }

  /** Fewer rounds give a prefix of more rounds. */
  lemma {:induction false} RoundsPrefix<T>(a: seq<T>, b: seq<T>, m: nat, n: nat)
    requires m <= n
    ensures Rounds(a, b, m) <= Rounds(a, b, n)
    decreases n - m
  {
    if m < n {
      RoundsPrefix(a, b, m, n - 1);
      assert Rounds(a, b, n) == Rounds(a, b, n - 1) + Round(a, b, n - 1);
      PrefixOfAppend(Rounds(a, b, m), Rounds(a, b, n - 1), Round(a, b, n - 1));
    }
  }

  lemma {:induction false} BalancedFromStops<T>(a: seq<T>, b: seq<T>, k: nat, n: nat)
    requires 1 <= n <= MaxLen(a, b)
    requires n == 1 || |Rounds(a, b, n - 1)| < k
    ensures exists m: nat :: (n <= m <= MaxLen(a, b) && BalancedFrom(a, b, k, n) == Rounds(a, b, m) &&
      (m == 1 || |Rounds(a, b, m - 1)| < k) && (m < MaxLen(a, b) ==> |Rounds(a, b, m)| >= k))
    decreases MaxLen(a, b) - n
  {
    if |Rounds(a, b, n)| >= k || n == MaxLen(a, b) {
      assert BalancedFrom(a, b, k, n) == Rounds(a, b, n);
      assert n <= n <= MaxLen(a, b) && BalancedFrom(a, b, k, n) == Rounds(a, b, n) &&
        (n == 1 || |Rounds(a, b, n - 1)| < k) && (n < MaxLen(a, b) ==> |Rounds(a, b, n)| >= k);
    } else {
      assert BalancedFrom(a, b, k, n) == BalancedFrom(a, b, k, n + 1);
      BalancedFromStops(a, b, k, n + 1);
    }
  }

  /** The balanced merge is a whole number of rounds, stopped at the first
      round that reaches `k`: a round-aligned prefix of the full
      interleaving. */
  lemma BalancedIsRoundPrefix<T>(a: seq<T>, b: seq<T>, k: nat)
    ensures exists m: nat :: (m <= MaxLen(a, b) && Balanced(a, b, k) == Rounds(a, b, m) &&
      (m <= 1 || |Rounds(a, b, m - 1)| < k) && (m < MaxLen(a, b) ==> |Rounds(a, b, m)| >= k))
    ensures Balanced(a, b, k) <= Rounds(a, b, MaxLen(a, b))
  {
    if MaxLen(a, b) == 0 {
      assert Balanced(a, b, k) == Rounds(a, b, 0);
    } else {
      BalancedFromStops(a, b, k, 1);
      var m: nat :| 1 <= m <= MaxLen(a, b) && BalancedFrom(a, b, k, 1) == Rounds(a, b, m) &&
        (m == 1 || |Rounds(a, b, m - 1)| < k) && (m < MaxLen(a, b) ==> |Rounds(a, b, m)| >= k);
      RoundsPrefix(a, b, m, MaxLen(a, b));
    }
  }

  /** The balanced merge can overshoot `k` by one, never by more; with
      `k = 0` the first round is still taken whole. */
  lemma BalancedLength<T>(a: seq<T>, b: seq<T>, k: nat)
    ensures k >= 1 ==> |Balanced(a, b, k)| <= k + 1
    ensures k == 0 ==> |Balanced(a, b, k)| <= 2
    ensures |Balanced(a, b, k)| >= if |a| + |b| <= k then |a| + |b| else k
  {
    BalancedIsRoundPrefix(a, b, k);
    var m: nat :| m <= MaxLen(a, b) && Balanced(a, b, k) == Rounds(a, b, m) &&
      (m <= 1 || |Rounds(a, b, m - 1)| < k) && (m < MaxLen(a, b) ==> |Rounds(a, b, m)| >= k);
    if m >= 1 {
      assert Rounds(a, b, m) == Rounds(a, b, m - 1) + Round(a, b, m - 1);
    }
    if m == MaxLen(a, b) {
      RoundsAll(a, b, m);
    }
  }

  /** The rounds hold one element of `a` and of `b` per round, as long as they
      last. */
  lemma {:induction false} RoundsLength<T>(a: seq<T>, b: seq<T>, n: nat)
    ensures |Rounds(a, b, n)| == (if n <= |a| then n else |a|) + (if n <= |b| then n else |b|)
  {
    if n > 0 {
      RoundsLength(a, b, n - 1);
    }
  }

  lemma RoundsAll<T>(a: seq<T>, b: seq<T>, n: nat)
    requires n == MaxLen(a, b)
    ensures |Rounds(a, b, n)| == |a| + |b|
  {
    RoundsLength(a, b, n);
  }

  lemma FilterOne<T>(xs: seq<T>, p: T -> bool)
    requires |xs| <= 1 && forall i :: 0 <= i < |xs| ==> p(xs[i])
    ensures Filter(xs, p) == xs
  {
    if xs != [] {
      assert xs[1..] == [];
    }
  }

  lemma FilterNone<T>(xs: seq<T>, p: T -> bool)
    requires |xs| <= 1 && forall i :: 0 <= i < |xs| ==> !p(xs[i])
    ensures Filter(xs, p) == []
  {
    if xs != [] {
      assert xs[1..] == [];
    }
  }

  /** One more round of a source's order: the filter of the earlier rounds
      is the source's first `i` elements, and the new round contributes its
      element `i` (if any). */
  lemma FilterRoundStep<T>(prev: seq<T>, ra: seq<T>, rb: seq<T>, p: T -> bool, xs: seq<T>, i: nat)
    requires Filter(prev, p) == xs[..if i <= |xs| then i else |xs|]
    requires Filter(ra, p) + Filter(rb, p) == if i < |xs| then [xs[i]] else []
    ensures Filter(prev + (ra + rb), p) == xs[..if i + 1 <= |xs| then i + 1 else |xs|]
  {
    FilterAppend(prev, ra + rb, p);
    FilterAppend(ra, rb, p);
    if i < |xs| {
      PrefixSnoc(xs, i);
    }
  }

  /** The `n`-th round, after the first `n - 1`. */
  lemma RoundsUnfold<T>(a: seq<T>, b: seq<T>, n: nat)
    requires n >= 1
    ensures Rounds(a, b, n) == Rounds(a, b, n - 1) + ((if n - 1 < |a| then [a[n - 1]] else []) + (if n - 1 < |b| then [b[n - 1]] else []))
  {
  }

  /** Each source keeps its relative order: the elements of the first `n`
      rounds that come from `a` are exactly `a`'s first elements, in order. */
  lemma {:induction false} RoundsKeepFirstOrder<T>(a: seq<T>, b: seq<T>, n: nat, fromA: T -> bool)
    requires forall i :: 0 <= i < |a| ==> fromA(a[i])
    requires forall i :: 0 <= i < |b| ==> !fromA(b[i])
    ensures Filter(Rounds(a, b, n), fromA) == a[..if n <= |a| then n else |a|]
  {
    if n > 0 {
      RoundsKeepFirstOrder(a, b, n - 1, fromA);
      var ra: seq<T> := if n - 1 < |a| then [a[n - 1]] else [];
      var rb: seq<T> := if n - 1 < |b| then [b[n - 1]] else [];
      FilterOne(ra, fromA);
      FilterNone(rb, fromA);
      RoundsUnfold(a, b, n);
      FilterRoundStep(Rounds(a, b, n - 1), ra, rb, fromA, a, n - 1);
    }
  }

  /** The same for the second source. */
  lemma {:induction false} RoundsKeepSecondOrder<T>(a: seq<T>, b: seq<T>, n: nat, fromB: T -> bool)
    requires forall i :: 0 <= i < |a| ==> !fromB(a[i])
    requires forall i :: 0 <= i < |b| ==> fromB(b[i])
    ensures Filter(Rounds(a, b, n), fromB) == b[..if n <= |b| then n else |b|]
  {
    if n > 0 {
      RoundsKeepSecondOrder(a, b, n - 1, fromB);
      var ra: seq<T> := if n - 1 < |a| then [a[n - 1]] else [];
      var rb: seq<T> := if n - 1 < |b| then [b[n - 1]] else [];
      FilterNone(ra, fromB);
      FilterOne(rb, fromB);
      RoundsUnfold(a, b, n);
      FilterRoundStep(Rounds(a, b, n - 1), ra, rb, fromB, b, n - 1);
    }
  }

  /** The balanced merge lists a prefix of each source, in that source's
      order. */
  lemma BalancedKeepsFirstOrder<T>(a: seq<T>, b: seq<T>, k: nat, fromA: T -> bool)
    requires forall i :: 0 <= i < |a| ==> fromA(a[i])
    requires forall i :: 0 <= i < |b| ==> !fromA(b[i])
    ensures Filter(Balanced(a, b, k), fromA) <= a
  {
    BalancedIsRoundPrefix(a, b, k);
    var n: nat :| n <= MaxLen(a, b) && Balanced(a, b, k) == Rounds(a, b, n);
    RoundsKeepFirstOrder(a, b, n, fromA);
  }

  lemma BalancedKeepsSecondOrder<T>(a: seq<T>, b: seq<T>, k: nat, fromB: T -> bool)
    requires forall i :: 0 <= i < |a| ==> !fromB(a[i])
    requires forall i :: 0 <= i < |b| ==> fromB(b[i])
    ensures Filter(Balanced(a, b, k), fromB) <= b
  {
    BalancedIsRoundPrefix(a, b, k);
    var n: nat :| n <= MaxLen(a, b) && Balanced(a, b, k) == Rounds(a, b, n);
    RoundsKeepSecondOrder(a, b, n, fromB);
  }

  /** With `[1, 2, 3]` and `[10, 20]`, `k = 5` takes all three rounds, while
      `k = 3` stops after the second round with four documents. */
  lemma BalancedExample()
    ensures Balanced([1, 2, 3], [10, 20], 5) == [1, 10, 2, 20, 3]
    ensures Balanced([1, 2, 3], [10, 20], 3) == [1, 10, 2, 20]
  {
    var a, b := [1, 2, 3], [10, 20];
    assert Round(a, b, 0) == [1, 10];
    assert Round(a, b, 1) == [2, 20];
    assert Round(a, b, 2) == [3];
    assert Rounds(a, b, 1) == [1, 10];
    assert Rounds(a, b, 2) == [1, 10, 2, 20];
    assert Rounds(a, b, 3) == [1, 10, 2, 20, 3];
  }

  /** The loop of the `hybrid_balanced` branch. */
  method BalancedInterleave<T>(a: seq<T>, b: seq<T>, k: nat) returns (merged: seq<T>)
    ensures merged == Balanced(a, b, k)
  {
    merged := [];
    var maxLen := if |a| >= |b| then |a| else |b|;
    var i := 0;
    while i < maxLen
      invariant 0 <= i <= maxLen && maxLen == MaxLen(a, b)
      invariant merged == Rounds(a, b, i)
      invariant i > 0 ==> |merged| < k && Balanced(a, b, k) == BalancedFrom(a, b, k, i)
    {
      if i < |a| {
        merged := merged + [a[i]];
      }
      if i < |b| {
        merged := merged + [b[i]];
      }
      assert merged == Rounds(a, b, i + 1);
      if |merged| >= k {
        return;
      }
      i := i + 1;
    }
  }
}
