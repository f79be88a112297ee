/** The request-scope cache: a store maps Key.toString() to a created value
    or to a sentinel that stands for a cached null. Both the attribute store
    of a CXF message and the map of a fallback context are such stores. */
module ScopeCache {
  import opened JavaLang

  /** What a store holds for a created value: the value itself, or the
      NullObject sentinel when the creator returned null. */
  function Encode(v: Option<Instance>): (r: Ref)
    ensures Decode(r) == v
    ensures r == NullObject <==> v.None?
  {
    if v.None? then NullObject else Obj(v.value)
  }

  /** What a lookup returns for a stored entry: null for the sentinel. */
  function Decode(r: Ref): Option<Instance>
  {
    if r.NullObject? then None else Some(r.instance)
  }

  /** The three states of a cache entry. */
  datatype Lookup = Absent | CachedNull | Cached(value: Instance)

  function LookupIn(store: map<string, Ref>, name: string): (r: Lookup)
    ensures r.Absent? <==> name !in store
    ensures name in store ==> Decode(store[name]) == (if r.CachedNull? then None else Some(r.value))
  {
    if name !in store then Absent
    else if store[name] == NullObject then CachedNull
    else Cached(store[name].instance)
  }

  /** ScopeUtils.isCircularProxy; null is never a circular proxy. */
  predicate IsCircularProxy(v: Option<Instance>)
  {
    v.Some? && v.value.circularProxy
  }

  /** The store after a lookup created v under name: v is kept (null as the
      sentinel) unless it is a circular proxy, which is never kept. */
  function Remember(store: map<string, Ref>, name: string, v: Option<Instance>): (r: map<string, Ref>)
    ensures IsCircularProxy(v) ==> r == store
    ensures !IsCircularProxy(v) ==> LookupIn(r, name) == (if v.None? then CachedNull else Cached(v.value))
    ensures forall n :: n != name ==> LookupIn(r, n) == LookupIn(store, n)
  {
    if IsCircularProxy(v) then store else store[name := Encode(v)]
  }

  /** One lookup: its result, the store after it, and the creator's call count after it. */
  datatype CacheStep = CacheStep(result: Outcome<Option<Instance>>, store: map<string, Ref>, calls: nat)

  /** The read-or-create-and-cache step get() performs against one store,
      with a creator whose n-th call gives produce(n) and which has been
      called `calls` times. */
  function CacheGet(store: map<string, Ref>, name: string,
                    produce: nat -> Outcome<Option<Instance>>, calls: nat): (r: CacheStep)
    ensures name in store ==> r.result == Return(Decode(store[name])) && r.calls == calls
    ensures name !in store ==> r.result == produce(calls) && r.calls == calls + 1
    ensures r.result.Throw? ==> r.store == store
    ensures forall n :: n in store ==> n in r.store && r.store[n] == store[n]
    ensures r.result.Return? && !IsCircularProxy(r.result.value) ==>
      name in r.store && Decode(r.store[name]) == r.result.value
  {
    match LookupIn(store, name)
    case CachedNull => CacheStep(Return(None), store, calls)
    case Cached(v) => CacheStep(Return(Some(v)), store, calls)
    case Absent =>
      match produce(calls)
      case Throw(e) => CacheStep(Throw(e), store, calls + 1)
      case Return(v) => CacheStep(Return(v), Remember(store, name, v), calls + 1)
  }

  /** The creator is called exactly when nothing is cached under the name,
      and a cached entry, null included, is returned as it is. */
  lemma CreatorCalledOnlyOnMiss(store: map<string, Ref>, name: string,
                                produce: nat -> Outcome<Option<Instance>>, calls: nat)
    ensures CacheGet(store, name, produce, calls).calls == if name in store then calls else calls + 1
    ensures name in store ==>
      CacheGet(store, name, produce, calls) == CacheStep(Return(Decode(store[name])), store, calls)
  {
  }

  /** Memoisation and the null round trip: once a lookup has returned a
      value that is not a circular proxy, null included, the next lookup
      returns that same value without calling the creator or touching the store. */
  lemma MemoisedAfterFirstGet(store: map<string, Ref>, name: string,
                              produce: nat -> Outcome<Option<Instance>>, calls: nat)
    requires CacheGet(store, name, produce, calls).result.Return?
    requires !IsCircularProxy(CacheGet(store, name, produce, calls).result.value)
    ensures var first := CacheGet(store, name, produce, calls);
      CacheGet(first.store, name, produce, first.calls) == first
  {
  }

  /** A circular proxy is returned but not cached: the store is unchanged,
      so the next lookup calls the creator again. */
  lemma CircularProxyNotCached(store: map<string, Ref>, name: string,
                               produce: nat -> Outcome<Option<Instance>>, calls: nat)
    requires name !in store
    requires produce(calls).Return? && IsCircularProxy(produce(calls).value)
    ensures var first := CacheGet(store, name, produce, calls);
      && first.result == produce(calls) && first.store == store
      && CacheGet(first.store, name, produce, first.calls).calls == calls + 2
  {
  }

  /** A creator that throws leaves nothing cached and its exception is what
      the lookup throws. */
  lemma FailedCreationCachesNothing(store: map<string, Ref>, name: string,
                                    produce: nat -> Outcome<Option<Instance>>, calls: nat)
    requires name !in store && produce(calls).Throw?
    ensures CacheGet(store, name, produce, calls) == CacheStep(produce(calls), store, calls + 1)
  {
  }

  /** A lookup only ever changes the entry under its own name. */
  lemma CacheGetTouchesOnlyItsName(store: map<string, Ref>, name: string,
                                   produce: nat -> Outcome<Option<Instance>>, calls: nat, other: string)
    requires other != name
    ensures LookupIn(CacheGet(store, name, produce, calls).store, other) == LookupIn(store, other)
  {
  }

  /** The lookups a piece of request-scoped code performs, one get() per
      name in order, against one store: the first lookup that throws ends
      the run with its exception (result Throw); a run with no failing
      lookup ends with result Return(None). */
  function LookupAll(store: map<string, Ref>, names: seq<string>,
                     produce: nat -> Outcome<Option<Instance>>, calls: nat): (r: CacheStep)
    ensures r.calls >= calls
    ensures r.result.Return? ==> r.result.value == None
    decreases |names|
  {
    if names == [] then CacheStep(Return(None), store, calls)
    else
      var first := CacheGet(store, names[0], produce, calls);
      if first.result.Throw? then first
      else LookupAll(first.store, names[1..], produce, first.calls)
  }

  /** A run of lookups only adds entries: what was cached stays as it was. */
  lemma {:induction false} LookupAllKeepsEntries(store: map<string, Ref>, names: seq<string>,
                                                 produce: nat -> Outcome<Option<Instance>>, calls: nat)
    ensures var r := LookupAll(store, names, produce, calls);
      forall n :: n in store ==> n in r.store && r.store[n] == store[n]
    decreases |names|
  {
    if names != [] {
      var first := CacheGet(store, names[0], produce, calls);
      if first.result.Return? {
        LookupAllKeepsEntries(first.store, names[1..], produce, first.calls);
      }
    }
  }

  /** A creator that, from its calls-th call on, neither throws nor hands
      out a circular proxy. */
  ghost predicate AlwaysCacheable(produce: nat -> Outcome<Option<Instance>>, calls: nat)
  {
    forall n: nat :: n >= calls ==> produce(n).Return? && !IsCircularProxy(produce(n).value)
  }

  /** With such a creator every looked-up name ends up cached. */
  lemma {:induction false} LookupAllCachesEveryName(store: map<string, Ref>, names: seq<string>,
                                                    produce: nat -> Outcome<Option<Instance>>, calls: nat)
    requires AlwaysCacheable(produce, calls)
    ensures var r := LookupAll(store, names, produce, calls);
      r.result.Return? && forall x :: x in names ==> x in r.store
    decreases |names|
  {
    if names != [] {
      var first := CacheGet(store, names[0], produce, calls);
      assert first.result.Return? && names[0] in first.store;
      LookupAllCachesEveryName(first.store, names[1..], produce, first.calls);
      LookupAllKeepsEntries(first.store, names[1..], produce, first.calls);
      assert forall x :: x in names ==> x == names[0] || x in names[1..];
    }
  }

  /** Lookups of names that are all cached change nothing and call no creator. */
  lemma {:induction false} LookupAllHits(store: map<string, Ref>, names: seq<string>,
                                         produce: nat -> Outcome<Option<Instance>>, calls: nat)
    requires forall x :: x in names ==> x in store
    ensures LookupAll(store, names, produce, calls) == CacheStep(Return(None), store, calls)
    decreases |names|
  {
    if names != [] {
      assert names[0] in names;
      assert forall x :: x in names[1..] ==> x in names;
      LookupAllHits(store, names[1..], produce, calls);
    }
  }

  /** Memoisation across runs: a second run of the same lookups, on the store
      the first run left and with the same creator, finds every entry the
      first run cached, so it changes nothing and calls no creator. */
  lemma SecondRunSeesFirstRunsEntries(store: map<string, Ref>, names: seq<string>,
                                      produce: nat -> Outcome<Option<Instance>>, calls: nat)
    requires AlwaysCacheable(produce, calls)
    ensures var first := LookupAll(store, names, produce, calls);
      LookupAll(first.store, names, produce, first.calls) == CacheStep(Return(None), first.store, first.calls)
  {
    LookupAllCachesEveryName(store, names, produce, calls);
    var first := LookupAll(store, names, produce, calls);
    LookupAllHits(first.store, names, produce, first.calls);
  }

  /** A run over p + q is the run over p followed, unless it threw, by the
      run over q from where it left the store and the creator. */
  lemma {:induction false} LookupAllAppend(store: map<string, Ref>, p: seq<string>, q: seq<string>,
                                           produce: nat -> Outcome<Option<Instance>>, calls: nat)
    ensures var first := LookupAll(store, p, produce, calls);
      LookupAll(store, p + q, produce, calls)
        == if first.result.Throw? then first else LookupAll(first.store, q, produce, first.calls)
    decreases |p|
  {
    if p == [] {
      assert p + q == q;
    } else {
      assert (p + q)[0] == p[0];
      assert (p + q)[1..] == p[1..] + q;
      var step := CacheGet(store, p[0], produce, calls);
      if step.result.Return? {
        LookupAllAppend(step.store, p[1..], q, produce, step.calls);
      }
    }
  }

  /** A run that throws ends with the exception of its first failing get:
      when the gets before names[k] all returned and the get of names[k]
      throws, the whole run ends exactly as that get did, with the store and
      the creator as that get left them. */
  lemma LookupAllReportsFirstFailure(store: map<string, Ref>, names: seq<string>,
                                     produce: nat -> Outcome<Option<Instance>>, calls: nat, k: nat)
    requires k < |names|
    requires LookupAll(store, names[..k], produce, calls).result.Return?
    requires var before := LookupAll(store, names[..k], produce, calls);
      CacheGet(before.store, names[k], produce, before.calls).result.Throw?
    ensures var before := LookupAll(store, names[..k], produce, calls);
      LookupAll(store, names, produce, calls) == CacheGet(before.store, names[k], produce, before.calls)
  {
    assert names == names[..k] + names[k..];
    LookupAllAppend(store, names[..k], names[k..], produce, calls);
    assert names[k..][0] == names[k];
  }

  /** How request-scoped code that performed a run of lookups ends: with the
      exception of the first lookup that threw, otherwise as its own code ends. */
  function Finish<T>(lookups: CacheStep, outcome: Outcome<T>): (r: Outcome<T>)
    ensures lookups.result.Throw? ==> r == Throw(lookups.result.error)
    ensures lookups.result.Return? ==> r == outcome
  {
    if lookups.result.Throw? then Throw(lookups.result.error) else outcome
  }
}
