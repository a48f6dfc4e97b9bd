/** The query-embedding cache of the three front ends (`_get_cached_embedding`):
    a dictionary from text to vector bounded by `max_cache_size`. A hit
    returns the stored vector without calling the provider and without
    reordering anything; a miss on a full cache first deletes the oldest
    inserted key (the first key of the dictionary), then asks the provider and
    inserts the new key last. */
module EmbeddingCache {
  import opened Common

  /** An embedding; its coordinates are carried, never inspected. */
  type Vector = seq<real>

  /** Why a lookup produced no vector: the provider failed, or the cache had
      to evict from an empty dictionary (`next(iter({}))` raises when
      `max_cache_size` is 0). */
  datatype CacheError = NothingToEvict | ProviderFailed(message: string)

  /** The dictionary: its keys in insertion order, and the stored vectors. */
  datatype CacheState = CacheState(order: seq<string>, entries: map<string, Vector>)

  /** The result of one lookup: the new dictionary, what the caller gets and
      how many provider requests were made. */
  datatype Outcome = Outcome(state: CacheState, result: Result<Vector, CacheError>, calls: nat)

  const EmptyCache := CacheState([], map[])

  /** `max_cache_size` in all three front ends. */
  const DefaultMaxSize: nat := 1000

  /** The order lists each key of the dictionary once, and no more keys than
      the bound allows. */
  predicate WellFormed(s: CacheState, maxSize: nat)
  {
    NoDup(s.order) && (forall k :: k in s.entries ==> k in s.order) &&
    (forall k :: k in s.order ==> k in s.entries) && |s.order| <= maxSize
  }

  /** Every stored vector is what the provider gives for its key. */
  predicate Coherent(s: CacheState, embed: string -> Result<Vector, string>)
  {
    forall k :: k in s.entries ==> embed(k) == Success(s.entries[k])
  }

  /** The dictionary after the size check of a miss. */
  function MakeRoom(s: CacheState, maxSize: nat): CacheState
    requires |s.order| >= maxSize && s.order != []
  {
    CacheState(s.order[1..], s.entries - {s.order[0]})
  }

  /** One call of `_get_cached_embedding(text)`. */
  function Lookup(s: CacheState, maxSize: nat, text: string, embed: string -> Result<Vector, string>): (o: Outcome)
    ensures WellFormed(s, maxSize) ==> WellFormed(o.state, maxSize)
    ensures o.calls <= 1
  {
    if text in s.entries then Outcome(s, Success(s.entries[text]), 0)
    else if |s.order| >= maxSize && s.order == [] then Outcome(s, Failure(NothingToEvict), 0)
    else
      var room := if |s.order| >= maxSize then MakeRoom(s, maxSize) else s;
      match embed(text)
      case Success(v) => Outcome(CacheState(room.order + [text], room.entries[text := v]), Success(v), 1)
      case Failure(e) => Outcome(room, Failure(ProviderFailed(e)), 1)
  }

  /** A hit gives the stored vector, makes no provider request and leaves the
      dictionary, including its order, as it was. */
  lemma HitChangesNothing(s: CacheState, maxSize: nat, text: string, embed: string -> Result<Vector, string>)
    requires text in s.entries
    ensures Lookup(s, maxSize, text, embed) == Outcome(s, Success(s.entries[text]), 0)
  {
  }

  /** A miss on a full cache removes exactly the oldest key, keeps the other
      keys in order, and (when the provider answers) appends the new key. */
  lemma MissEvictsOldest(s: CacheState, maxSize: nat, text: string, embed: string -> Result<Vector, string>)
    requires WellFormed(s, maxSize)
    requires text !in s.entries && |s.order| >= maxSize && s.order != []
    ensures var o := Lookup(s, maxSize, text, embed);
      o.calls == 1 && s.order[0] !in o.state.entries &&
      (forall k :: k in s.entries && k != s.order[0] ==> k in o.state.entries && o.state.entries[k] == s.entries[k]) &&
      o.state.order[..|s.order| - 1] == s.order[1..] &&
      (o.result.Success? ==> o.state.order == s.order[1..] + [text] && o.state.entries[text] == o.result.value)
  {
    var o := Lookup(s, maxSize, text, embed);
    assert s.order[0] !in s.order[1..] by {
      forall j | 1 <= j < |s.order| ensures s.order[j] != s.order[0] { }
    }
  }

  /** The cache is transparent: with a provider that always answers the same
      for the same text, a lookup yields what the provider would, unless
      the bound is 0, and the stored vectors stay those of the provider. */
  lemma LookupAgreesWithProvider(s: CacheState, maxSize: nat, text: string, embed: string -> Result<Vector, string>)
    requires Coherent(s, embed)
    ensures var o := Lookup(s, maxSize, text, embed);
      Coherent(o.state, embed) &&
      (o.result.Success? ==> embed(text) == Success(o.result.value)) &&
      (o.result.Failure? && o.result.error.ProviderFailed? ==> embed(text) == Failure(o.result.error.message)) &&
      (maxSize >= 1 || text in s.entries ==> o.result.Failure? ==> o.result.error.ProviderFailed?)
  {
  }

  /** Asking twice for the same text costs at most one provider request, and
      both answers agree. */
  lemma RepeatedLookupCallsOnce(s: CacheState, maxSize: nat, text: string, embed: string -> Result<Vector, string>)
    requires maxSize >= 1
    ensures var first := Lookup(s, maxSize, text, embed);
      var second := Lookup(first.state, maxSize, text, embed);
      first.result.Success? ==> second.calls == 0 && second.result == first.result && second.state == first.state
  {
  }

  /** Successive lookups of a list of texts, threading the dictionary. */
  function LookupAll(s: CacheState, maxSize: nat, texts: seq<string>, embed: string -> Result<Vector, string>): (r: CacheState)
    ensures WellFormed(s, maxSize) ==> WellFormed(r, maxSize)
    decreases |texts|
  {
    if texts == [] then s
    else LookupAll(Lookup(s, maxSize, texts[0], embed).state, maxSize, texts[1..], embed)
  }

  lemma {:induction false} LookupAllSnoc(s: CacheState, maxSize: nat, texts: seq<string>, t: string, embed: string -> Result<Vector, string>)
    ensures LookupAll(s, maxSize, texts + [t], embed) == Lookup(LookupAll(s, maxSize, texts, embed), maxSize, t, embed).state
    decreases |texts|
  {
    if texts != [] {
      assert (texts + [t])[1..] == texts[1..] + [t];
      LookupAllSnoc(Lookup(s, maxSize, texts[0], embed).state, maxSize, texts[1..], t, embed);
    }
  }

  /** The last `n` elements of `xs` (all of them when there are fewer). */
  function LastN(xs: seq<string>, n: nat): (r: seq<string>)
    ensures |r| == if |xs| <= n then |xs| else n
    ensures r == xs[|xs| - |r|..]
  {
    if |xs| <= n then xs else xs[|xs| - n..]
  }

  /** First-in, first-out: feeding distinct texts that the provider always
      embeds into an empty cache leaves exactly the most recent
      `max_cache_size` of them, oldest first. */
  lemma {:induction false} DistinctTextsKeepNewest(maxSize: nat, texts: seq<string>, embed: string -> Result<Vector, string>)
    requires maxSize >= 1 && NoDup(texts)
    requires forall i :: 0 <= i < |texts| ==> embed(texts[i]).Success?
    ensures LookupAll(EmptyCache, maxSize, texts, embed).order == LastN(texts, maxSize)
    decreases |texts|
  {
    if texts != [] {
      var init := texts[..|texts| - 1];
      var t := texts[|texts| - 1];
      assert texts == init + [t];
      assert NoDup(init) by {
        forall i, j | 0 <= i < j < |init| ensures init[i] != init[j] {
          assert init[i] == texts[i] && init[j] == texts[j];
        }
      }
      assert t !in init by {
        forall j | 0 <= j < |init| ensures init[j] != t {
          assert init[j] == texts[j];
        }
      }
      DistinctTextsKeepNewest(maxSize, init, embed);
      LookupAllSnoc(EmptyCache, maxSize, init, t, embed);
      assert WellFormed(EmptyCache, maxSize);
      KeepNewestStep(LookupAll(EmptyCache, maxSize, init, embed), maxSize, init, t, embed);
    }
  }

  lemma KeepNewestStep(mid: CacheState, maxSize: nat, init: seq<string>, t: string, embed: string -> Result<Vector, string>)
    requires maxSize >= 1 && WellFormed(mid, maxSize) && mid.order == LastN(init, maxSize)
    requires t !in init && embed(t).Success?
    ensures Lookup(mid, maxSize, t, embed).state.order == LastN(init + [t], maxSize)
  {
    assert t !in mid.order;
    MissAppends(mid, maxSize, t, embed);
    LastNSnoc(init, t, maxSize);
  }

  /** A miss the provider answers appends the text after making room. */
  lemma MissAppends(s: CacheState, maxSize: nat, t: string, embed: string -> Result<Vector, string>)
    requires maxSize >= 1 && WellFormed(s, maxSize) && t !in s.order && embed(t).Success?
    ensures Lookup(s, maxSize, t, embed).state.order == (if |s.order| >= maxSize then s.order[1..] else s.order) + [t]
  {
    assert t !in s.entries;
  }

  /** The newest `n` after one more: the new one joins, and the oldest
      leaves when there were already `n`. */
  lemma LastNSnoc(xs: seq<string>, t: string, n: nat)
    requires n >= 1
    ensures var l := LastN(xs, n);
      LastN(xs + [t], n) == (if |l| >= n then l[1..] else l) + [t]
  {
    var ys := xs + [t];
    if |xs| >= n {
      assert ys[|ys| - n..] == xs[|xs| - n + 1..] + [t];
    }
  }

  /** The cache object of a front end. */
  class Cache {
    var order: seq<string>
    var entries: map<string, Vector>
    const maxSize: nat

    function State(): CacheState
      reads this
    {
      CacheState(order, entries)
    }

    ghost predicate Valid()
      reads this
    {
      WellFormed(State(), maxSize)
    }

    /** `self.embedding_cache = {}` with the given `max_cache_size`. */
    constructor(maxSize: nat)
      ensures Valid() && State() == EmptyCache && this.maxSize == maxSize
    {
      order := [];
      entries := map[];
      this.maxSize := maxSize;
    }

    /** `_get_cached_embedding(text)`: look the text up, and on a miss make
        room, ask the provider once and store its answer. */
    method Get(text: string, embed: string -> Result<Vector, string>) returns (r: Result<Vector, CacheError>, calls: nat)
      requires Valid()
      modifies this
      ensures Valid()
      ensures Outcome(State(), r, calls) == Lookup(old(State()), maxSize, text, embed)
    {
      calls := 0;
      if text in entries {
        r := Success(entries[text]);
        return;
      }
      if |order| >= maxSize {
        if order == [] {
          r := Failure(NothingToEvict);
          return;
        }
        var oldest := order[0];
        entries := entries - {oldest};
        order := order[1..];
      }
      var answer := embed(text);
      calls := calls + 1;
      match answer {
        case Success(v) =>
          entries := entries[text := v];
          order := order + [text];
          r := Success(v);
        case Failure(e) =>
          r := Failure(ProviderFailed(e));
      }
    }
  }

  /** Two lookups of the same text through the cache object: when the first
      succeeds the second is served from the cache, so the provider is asked
      once in all. */
  method LookupTwice(c: Cache, text: string, embed: string -> Result<Vector, string>)
      returns (first: Result<Vector, CacheError>, second: Result<Vector, CacheError>, calls: nat)
    requires c.Valid() && c.maxSize >= 1
    modifies c
    ensures c.Valid()
    ensures first.Success? ==> calls <= 1 && second == first
  {
    ghost var s0 := c.State();
    var n1, n2;
    first, n1 := c.Get(text, embed);
    second, n2 := c.Get(text, embed);
    calls := n1 + n2;
    RepeatedLookupCallsOnce(s0, c.maxSize, text, embed);
  }
}
