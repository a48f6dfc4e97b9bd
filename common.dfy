/** Small generic building blocks shared by every other module: an optional
    value, a result with an error, first-match search over a table, counting,
    filtering and the consecutive batching that the indexing scripts use. */
module Common {

  datatype Option<+T> = None | Some(value: T)

  datatype Result<+T, +E> = Success(value: T) | Failure(error: E)

  /** No element occurs twice (Python lists built from a set, keyword tables). */
  predicate NoDup<T(==)>(xs: seq<T>)
  {
    forall i, j :: 0 <= i < j < |xs| ==> xs[i] != xs[j]
  }

  /** Index of the first element of `xs` satisfying `p`: the shape of every
      `for ... in table: if ...: break` loop of the system. */
  function FirstIndex<T>(xs: seq<T>, p: T -> bool): (r: Option<nat>)
    ensures r.None? <==> forall i :: 0 <= i < |xs| ==> !p(xs[i])
    ensures r.Some? ==> r.value < |xs| && p(xs[r.value])
    ensures r.Some? ==> forall j :: 0 <= j < r.value ==> !p(xs[j])
    decreases |xs|
  {
    if xs == [] then None
    else if p(xs[0]) then Some(0)
    else
      match FirstIndex(xs[1..], p)
      case None => None
      case Some(i) => Some(i + 1)
  }

  /** An element satisfying `p` with none before it is the first one. */
  lemma FirstIndexAt<T>(xs: seq<T>, p: T -> bool, k: nat)
    requires k < |xs| && p(xs[k])
    requires forall j :: 0 <= j < k ==> !p(xs[j])
    ensures FirstIndex(xs, p) == Some(k)
  {
    var r := FirstIndex(xs, p);
    assert r.Some?;
    assert !(r.value < k) && !(k < r.value);
  }

  /** Number of elements satisfying `p` (`sum(1 for x in xs if p(x))`). */
  function Count<T>(xs: seq<T>, p: T -> bool): nat
    decreases |xs|
  {
    if xs == [] then 0 else (if p(xs[0]) then 1 else 0) + Count(xs[1..], p)
  }

  /** The elements satisfying `p`, in order (`[x for x in xs if p(x)]`). */
  function Filter<T>(xs: seq<T>, p: T -> bool): (r: seq<T>)
    ensures |r| == Count(xs, p)
    decreases |xs|
  {
    if xs == [] then [] else (if p(xs[0]) then [xs[0]] else []) + Filter(xs[1..], p)
  }

  lemma {:induction false} CountAppend<T>(a: seq<T>, b: seq<T>, p: T -> bool)
    ensures Count(a + b, p) == Count(a, p) + Count(b, p)
    decreases |a|
  {
    if a == [] {
      assert a + b == b;
    } else {
      assert (a + b)[1..] == a[1..] + b;
      CountAppend(a[1..], b, p);
    }
  }

  /** One more element adds one to the count exactly when it satisfies `p`. */
  lemma CountSnoc<T>(xs: seq<T>, x: T, p: T -> bool)
    ensures Count(xs + [x], p) == Count(xs, p) + (if p(x) then 1 else 0)
  {
    CountAppend(xs, [x], p);
    assert [x][1..] == [];
  }

  lemma {:induction false} FilterAppend<T>(a: seq<T>, b: seq<T>, p: T -> bool)
    ensures Filter(a + b, p) == Filter(a, p) + Filter(b, p)
    decreases |a|
  {
    if a == [] {
      assert a + b == b;
    } else {
      assert (a + b)[1..] == a[1..] + b;
      FilterAppend(a[1..], b, p);
    }
  }

  /** The indices of the elements satisfying `p`, in order
      (`[i for i, x in enumerate(xs) if p(x)]`). */
  function Positions<T>(xs: seq<T>, p: T -> bool): seq<nat>
    decreases |xs|
  {
    if xs == [] then [] else Positions(xs[..|xs| - 1], p) + (if p(xs[|xs| - 1]) then [|xs| - 1] else [])
  }

  lemma PositionsSnoc<T>(xs: seq<T>, x: T, p: T -> bool)
    ensures Positions(xs + [x], p) == Positions(xs, p) + (if p(x) then [|xs|] else [])
  {
    assert (xs + [x])[..|xs|] == xs;
  }

  /** Each position holds an element satisfying `p`, and positions increase. */
  lemma {:induction false} PositionsSound<T>(xs: seq<T>, p: T -> bool)
    ensures forall k :: 0 <= k < |Positions(xs, p)| ==> Positions(xs, p)[k] < |xs| && p(xs[Positions(xs, p)[k]])
    ensures forall k, l :: 0 <= k < l < |Positions(xs, p)| ==> Positions(xs, p)[k] < Positions(xs, p)[l]
    decreases |xs|
  {
    if xs != [] {
      var init := xs[..|xs| - 1];
      PositionsSound(init, p);
      assert init + [xs[|xs| - 1]] == xs;
      PositionsSnoc(init, xs[|xs| - 1], p);
    }
  }

  /** Every element satisfying `p` has its position listed. */
  lemma {:induction false} PositionsComplete<T>(xs: seq<T>, p: T -> bool, i: nat)
    requires i < |xs| && p(xs[i])
    ensures i in Positions(xs, p)
    decreases |xs|
  {
    if i < |xs| - 1 {
      PositionsComplete(xs[..|xs| - 1], p, i);
    }
  }

  /** `[f(i, x) for i, x in enumerate(xs) if p(x)]`. */
  function KeepMap<A, B>(xs: seq<A>, p: A -> bool, f: (nat, A) -> B): seq<B>
    decreases |xs|
  {
    if xs == [] then []
    else KeepMap(xs[..|xs| - 1], p, f) + (if p(xs[|xs| - 1]) then [f(|xs| - 1, xs[|xs| - 1])] else [])
  }

  lemma KeepMapStep<A, B>(xs: seq<A>, i: nat, p: A -> bool, f: (nat, A) -> B)
    requires i < |xs|
    ensures KeepMap(xs[..i + 1], p, f) == KeepMap(xs[..i], p, f) + (if p(xs[i]) then [f(i, xs[i])] else [])
  {
    assert xs[..i + 1][..i] == xs[..i];
  }

  /** The k-th result comes from the k-th kept element. */
  lemma {:induction false} KeepMapPositions<A, B>(xs: seq<A>, p: A -> bool, f: (nat, A) -> B)
    ensures |KeepMap(xs, p, f)| == |Positions(xs, p)|
    ensures forall k :: 0 <= k < |Positions(xs, p)| ==>
      Positions(xs, p)[k] < |xs| && KeepMap(xs, p, f)[k] == f(Positions(xs, p)[k], xs[Positions(xs, p)[k]])
    decreases |xs|
  {
    PositionsSound(xs, p);
    if xs != [] {
      var last := |xs| - 1;
      var init := xs[..last];
      KeepMapPositions(init, p, f);
      PositionsSound(init, p);
      assert init + [xs[last]] == xs;
      PositionsSnoc(init, xs[last], p);
      forall k | 0 <= k < |Positions(init, p)| ensures xs[Positions(init, p)[k]] == init[Positions(init, p)[k]] {
      }
    }
  }

  /** `xs` lists the elements of `s`, each once: one possible iteration
      order of a Python set. */
  predicate Enumerates<T(==)>(xs: seq<T>, s: set<T>)
  {
    NoDup(xs) && |xs| == |s| && (forall i :: 0 <= i < |xs| ==> xs[i] in s) && (forall x :: x in s ==> x in xs)
  }

  /** `list(s)`: the elements of a set in an order the model leaves open. */
  method Enumerate<T(==)>(s: set<T>) returns (xs: seq<T>)
    ensures Enumerates(xs, s)
  {
    xs := [];
    var rest := s;
    while rest != {}
      invariant rest <= s && |xs| + |rest| == |s|
      invariant NoDup(xs)
      invariant forall i :: 0 <= i < |xs| ==> xs[i] in s && xs[i] !in rest
      invariant forall x :: x in s ==> x in rest || x in xs
      decreases |rest|
    {
      var x :| x in rest;
      xs := xs + [x];
      rest := rest - {x};
    }
  }

  /** A prefix one longer is the shorter prefix and one more element. */
  lemma PrefixSnoc<T>(s: seq<T>, n: nat)
    requires n < |s|
    ensures s[..n + 1] == s[..n] + [s[n]]
  {
  }

  /** A prefix of `ys` is a prefix of `ys` extended. */
  lemma PrefixOfAppend<T>(xs: seq<T>, ys: seq<T>, zs: seq<T>)
    requires xs <= ys
    ensures xs <= ys + zs
  {
    assert forall i :: 0 <= i < |xs| ==> (ys + zs)[i] == ys[i];
  }

  /** Python's `s[:n]` for a non-negative `n`. */
  function Take<T>(s: seq<T>, n: nat): (r: seq<T>)
    ensures |r| == if n <= |s| then n else |s|
    ensures r <= s
  {
    if n <= |s| then s[..n] else s
  }

  /** The slices `s[i:i + size]` for `i in range(0, len(s), size)`. */
  function Batches<T>(s: seq<T>, size: nat): seq<seq<T>>
    requires size >= 1
    decreases |s|
  {
    if s == [] then [] else [Take(s, size)] + Batches(s[|Take(s, size)|..], size)
  }

  function Flatten<T>(bs: seq<seq<T>>): seq<T>
    decreases |bs|
  {
    if bs == [] then [] else bs[0] + Flatten(bs[1..])
  }

  /** Batching covers the input exactly, in order, with non-empty slices of at
      most `size` elements, every slice but the last being full. */
  lemma {:induction false} BatchesPartition<T>(s: seq<T>, size: nat)
    requires size >= 1
    ensures Flatten(Batches(s, size)) == s
    ensures forall i :: 0 <= i < |Batches(s, size)| ==> 0 < |Batches(s, size)[i]| <= size
    ensures forall i :: 0 <= i < |Batches(s, size)| - 1 ==> |Batches(s, size)[i]| == size
    decreases |s|
  {
    if s != [] {
      var t := Take(s, size);
      var rest := s[|t|..];
      BatchesPartition(rest, size);
      assert t + rest == s;
      var bs := Batches(s, size);
      assert bs[1..] == Batches(rest, size);
      if |s| <= size {
        assert rest == [];
      }
    }
  }
}
