/** CXFScopes: the request scope. A scoped lookup caches the created value
    in the attribute store of the original request bound on the thread, or,
    when no request is bound, in the map of a fallback context that
    scopeRequest set up. A sentinel object stands for a cached null. */
module CXFScopes {
  import opened JavaLang
  import opened Guice
  import opened Cxf
  import opened InterceptorWrapper
  import opened ScopeCache

  const HttpInProgressMessage :=
    "An HTTP request is already in progress, cannot scope a new request in this thread."
  const ScopeInProgressMessage :=
    "A request scope is already in progress, cannot scope a new request in this thread."

  // ---------------------------------------------------------------------
  // Thread-bound fallback contexts and the callables run under them.

  /** What a callable observed when it ran: the thread, the fallback context
      bound on it and that context's owner. */
  datatype Observation = Observation(thread: ThreadId, bound: Option<FallbackContext>, boundOwner: Option<ThreadId>)

  function ObserveScope(requestScopeContext: ThreadLocal<FallbackContext>, t: ThreadId): Observation
    reads requestScopeContext, requestScopeContext.slots.Values
  {
    var bound := requestScopeContext.Get(t);
    Observation(t, bound, if bound.Some? then bound.value.owner else None)
  }

  /** The java.util.concurrent.Callable handed to scopeRequest. Its code is
      outside the model except for what the scope sees of it: it records what
      it observed, performs request-scoped lookups of `names` (with `creator`
      behind them), and ends with `outcome` unless a lookup threw. */
  class Work<T> {
    var runs: seq<Observation>
    const names: seq<string>
    const creator: Creator
    const outcome: Outcome<T>

    constructor (names: seq<string>, creator: Creator, outcome: Outcome<T>)
      ensures runs == [] && this.names == names && this.creator == creator && this.outcome == outcome
    {
      runs := [];
      this.names := names;
      this.creator := creator;
      this.outcome := outcome;
    }

    /** call() on thread t. It is only ever run by Context.call, with a
        fallback context bound on t and no HTTP request, so each of its
        lookups is a get() against that context's store. */
    method Call(requestScopeContext: ThreadLocal<FallbackContext>, t: ThreadId) returns (r: Outcome<T>)
      requires t in requestScopeContext.slots
      modifies this, creator, requestScopeContext.slots[t]
      ensures runs == old(runs) + [old(ObserveScope(requestScopeContext, t))]
      ensures var c := requestScopeContext.slots[t];
        var lookups := LookupAll(old(c.store), names, creator.produce, old(creator.calls));
        && c.store == lookups.store && creator.calls == lookups.calls && c.owner == old(c.owner)
        && r == Finish(lookups, outcome)
    {
      runs := runs + [ObserveScope(requestScopeContext, t)];
      var c := requestScopeContext.slots[t];
      var lookups := LookupAll(c.store, names, creator.produce, creator.calls);
      c.store := lookups.store;
      creator.calls := lookups.calls;
      r := Finish(lookups, outcome);
    }
  }

  /** CXFScopes.Context: the scope map used when no HTTP request is bound,
      and the thread currently running code under it. */
  class FallbackContext {
    var store: map<string, Ref>
    var owner: Option<ThreadId>

    constructor ()
      ensures store == map[] && owner == None
    {
      store := map[];
      owner := None;
    }

    /** Context.call(callable) on thread t: refused with IllegalState, before
        anything changes, while another thread owns the context; otherwise
        the callable runs once with this context bound on t and owned by t,
        its lookups cache into this context's map, which keeps what they
        cached, and on every exit the previous owner and binding come back. */
    method Call<T>(requestScopeContext: ThreadLocal<FallbackContext>, t: ThreadId, callable: Work<T>)
      returns (r: Outcome<T>)
      modifies this, requestScopeContext, callable, callable.creator
      ensures owner == old(owner)
      ensures requestScopeContext.slots == old(requestScopeContext.slots)
      ensures old(owner).Some? && old(owner) != Some(t) ==>
        && r == Throw(IllegalState(TransferMessage)) && callable.runs == old(callable.runs)
        && store == old(store) && callable.creator.calls == old(callable.creator.calls)
      ensures old(owner).None? || old(owner) == Some(t) ==>
        var lookups := LookupAll(old(store), callable.names, callable.creator.produce, old(callable.creator.calls));
        && callable.runs == old(callable.runs) + [Observation(t, Some(this), Some(t))]
        && store == lookups.store && callable.creator.calls == lookups.calls
        && r == Finish(lookups, callable.outcome)
    {
      var oldOwner := owner;
      if !(oldOwner.None? || oldOwner == Some(t)) {
        return Throw(IllegalState(TransferMessage));
      }
      owner := Some(t);
      var previous := requestScopeContext.Get(t);
      requestScopeContext.Set(t, Some(this));
      r := callable.Call(requestScopeContext, t);
      owner := oldOwner;
      requestScopeContext.Set(t, previous);
    }
  }

  // ---------------------------------------------------------------------
  // CXFScopes.REQUEST and the providers it returns.

  function FallbackOn(requestScopeContext: ThreadLocal<FallbackContext>, t: ThreadId): set<object>
    reads requestScopeContext
  {
    if t in requestScopeContext.slots then {requestScopeContext.slots[t]} else {}
  }

  /** The provider REQUEST.scope(key, creator) returns. */
  class ScopedProvider {
    const key: Key
    const name: string
    const creator: Creator
    /** REQUEST_CONTEXT_KEYS: keys answered by the creator and never cached. */
    const requestContextKeys: set<Key>

    constructor (key: Key, creator: Creator, requestContextKeys: set<Key>)
      ensures this.key == key && name == KeyString(key) && this.creator == creator
      ensures this.requestContextKeys == requestContextKeys
    {
      this.key := key;
      name := KeyString(key);
      this.creator := creator;
      this.requestContextKeys := requestContextKeys;
    }

    /** get() on thread t. With no HTTP request bound, the fallback context's
        store is used when one is bound; with an HTTP request bound, the
        attribute store of that context's original request is used and the
        fallback store is left alone; with neither, OutOfScopeException, even
        for the keys in REQUEST_CONTEXT_KEYS. */
    method Get(localContext: ThreadLocal<RequestContext>, requestScopeContext: ThreadLocal<FallbackContext>,
               t: ThreadId) returns (r: Outcome<Option<Instance>>)
      modifies creator, FallbackOn(requestScopeContext, t), OriginalRequestOn(localContext, t)
      ensures t !in localContext.slots && t in requestScopeContext.slots ==>
        var c := requestScopeContext.slots[t];
        && CacheGet(old(c.store), name, creator.produce, old(creator.calls)) == CacheStep(r, c.store, creator.calls)
        && c.owner == old(c.owner)
      ensures t !in localContext.slots && t !in requestScopeContext.slots ==>
        r == Throw(OutOfScope(OutOfScopeMessage)) && creator.calls == old(creator.calls)
      ensures t in localContext.slots && t in requestScopeContext.slots ==>
        unchanged(requestScopeContext.slots[t])
      ensures t in localContext.slots && key in requestContextKeys ==>
        var m := localContext.slots[t].originalRequest;
        && r == creator.produce(old(creator.calls)) && creator.calls == old(creator.calls) + 1
        && m.attrs == old(m.attrs)
      ensures t in localContext.slots && key !in requestContextKeys ==>
        var m := localContext.slots[t].originalRequest;
        CacheGet(old(m.attrs), name, creator.produce, old(creator.calls)) == CacheStep(r, m.attrs, creator.calls)
    {
      if localContext.Get(t).None? {
        var context := requestScopeContext.Get(t);
        if context.Some? {
          var c := context.value;
          var cached := LookupIn(c.store, name);
          if cached.CachedNull? {
            return Return(None);
          }
          if cached.Cached? {
            return Return(Some(cached.value));
          }
          r := creator.Get();
          if r.Return? && !IsCircularProxy(r.value) {
            c.store := c.store[name := Encode(r.value)];
          }
          return;
        }
        // no fallback context either: getOriginalRequest below throws
      }
      var request := GetOriginalRequest(localContext, t);
      if request.Throw? {
        return Throw(request.error);
      }
      if key in requestContextKeys {
        r := creator.Get();
        return;
      }
      // synchronized (request)
      var m := request.value;
      var cached := LookupIn(m.attrs, name);
      if cached.CachedNull? {
        return Return(None);
      }
      if cached.Cached? {
        return Return(Some(cached.value));
      }
      r := creator.Get();
      if r.Return? && !IsCircularProxy(r.value) {
        m.attrs := m.attrs[name := Encode(r.value)];
      }
    }
  }

  /** CXFScopes.REQUEST, the Scope object. */
  class RequestScope {
    const requestContextKeys: set<Key>

    /** The source's REQUEST_CONTEXT_KEYS is empty. */
    constructor ()
      ensures requestContextKeys == {}
    {
      requestContextKeys := {};
    }

    /** scope(key, creator): a provider caching under key.toString(). */
    method Scope(key: Key, creator: Creator) returns (p: ScopedProvider)
      ensures fresh(p) && p.key == key && p.name == KeyString(key) && p.creator == creator
      ensures p.requestContextKeys == requestContextKeys
    {
      p := new ScopedProvider(key, creator, requestContextKeys);
    }
  }

  // ---------------------------------------------------------------------
  // scopeRequest and its seed map.

  /** One entry of the seed map; a value of None is a null seed. */
  datatype SeedEntry = SeedEntry(key: Key, value: Option<Ref>)

  /** validateAndCanonicalizeValue(key, object): null and the sentinel become
      the sentinel; an object must be an instance of the key's raw type
      (`isInstance` stands for Class.isInstance) and is kept as it is. */
  function ValidateAndCanonicalizeValue(key: Key, value: Option<Ref>, isInstance: (string, Instance) -> bool)
    : (r: Outcome<Ref>)
    ensures r.Throw? <==> value.Some? && value.value.Obj? && !isInstance(RawType(key.typeRef), value.value.instance)
    ensures r.Throw? ==> r.error == IllegalArgument(IncompatibleValue(value.value.instance, KeyString(key)))
    ensures r.Return? ==> r.value == if value.None? then NullObject else value.value
  {
    if value.None? || value.value == NullObject then Return(NullObject)
    else if !isInstance(RawType(key.typeRef), value.value.instance) then
      Throw(IllegalArgument(IncompatibleValue(value.value.instance, KeyString(key))))
    else Return(value.value)
  }

  predicate ValidSeed(e: SeedEntry, isInstance: (string, Instance) -> bool)
  {
    ValidateAndCanonicalizeValue(e.key, e.value, isInstance).Return?
  }

  /** The seed value as it is stored: null as the sentinel. */
  function Canonical(v: Option<Ref>): Ref
  {
    if v.None? then NullObject else v.value
  }

  /** The context map the seeding loop builds from the entries in their
      iteration order, or the exception of the first invalid entry. */
  function Seeded(entries: seq<SeedEntry>, isInstance: (string, Instance) -> bool): (r: Outcome<map<string, Ref>>)
    ensures r.Throw? ==> r.error.IllegalArgument? && r.error.problem.IncompatibleValue?
    ensures r.Return? ==> |r.value| <= |entries|
    decreases |entries|
  {
    if entries == [] then Return(map[])
    else
      var last := entries[|entries| - 1];
      match Seeded(entries[..|entries| - 1], isInstance)
      case Throw(e) => Throw(e)
      case Return(m) =>
        match ValidateAndCanonicalizeValue(last.key, last.value, isInstance)
        case Throw(e) => Throw(e)
        case Return(v) => Return(m[KeyString(last.key) := v])
  }

  /** Seeding fails exactly when some seed value is invalid. */
  lemma {:induction false} SeededFailsIffSomeSeedInvalid(entries: seq<SeedEntry>, isInstance: (string, Instance) -> bool)
    ensures Seeded(entries, isInstance).Throw? <==>
      exists j :: 0 <= j < |entries| && !ValidSeed(entries[j], isInstance)
    decreases |entries|
  {
    if entries != [] {
      var prefix := entries[..|entries| - 1];
      SeededFailsIffSomeSeedInvalid(prefix, isInstance);
      if exists j :: 0 <= j < |prefix| && !ValidSeed(prefix[j], isInstance) {
        var j :| 0 <= j < |prefix| && !ValidSeed(prefix[j], isInstance);
        assert entries[j] == prefix[j];
      }
      if exists j :: 0 <= j < |entries| && !ValidSeed(entries[j], isInstance) {
        var j :| 0 <= j < |entries| && !ValidSeed(entries[j], isInstance);
        if j < |prefix| {
          assert prefix[j] == entries[j];
        }
      }
    }
  }

  /** The exception is the one for the first invalid entry in iteration order. */
  lemma {:induction false} SeededReportsFirstInvalid(entries: seq<SeedEntry>, isInstance: (string, Instance) -> bool, j: nat)
    requires j < |entries| && !ValidSeed(entries[j], isInstance)
    requires forall k :: 0 <= k < j ==> ValidSeed(entries[k], isInstance)
    ensures Seeded(entries, isInstance) ==
      Throw(ValidateAndCanonicalizeValue(entries[j].key, entries[j].value, isInstance).error)
    decreases |entries|
  {
    var prefix := entries[..|entries| - 1];
    if j == |entries| - 1 {
      assert forall k :: 0 <= k < |prefix| ==> prefix[k] == entries[k];
      SeededFailsIffSomeSeedInvalid(prefix, isInstance);
    } else {
      assert prefix[j] == entries[j];
      assert forall k :: 0 <= k < j ==> prefix[k] == entries[k];
      SeededReportsFirstInvalid(prefix, isInstance, j);
    }
  }

  /** A successful seeding has an entry for every seed's key name and no other. */
  lemma {:induction false} SeededNames(entries: seq<SeedEntry>, isInstance: (string, Instance) -> bool)
    requires Seeded(entries, isInstance).Return?
    ensures Seeded(entries, isInstance).value.Keys == set e | e in entries :: KeyString(e.key)
    decreases |entries|
  {
    if entries != [] {
      var prefix := entries[..|entries| - 1];
      SeededNames(prefix, isInstance);
      assert entries == prefix + [entries[|entries| - 1]];
    }
  }

  /** Each seed is stored, canonicalised, under its key's name, unless a later
      seed has a key with the same name (the later put wins). */
  lemma {:induction false} SeededValue(entries: seq<SeedEntry>, isInstance: (string, Instance) -> bool, j: nat)
    requires Seeded(entries, isInstance).Return?
    requires j < |entries|
    requires forall k :: j < k < |entries| ==> KeyString(entries[k].key) != KeyString(entries[j].key)
    ensures KeyString(entries[j].key) in Seeded(entries, isInstance).value
    ensures Seeded(entries, isInstance).value[KeyString(entries[j].key)] == Canonical(entries[j].value)
    decreases |entries|
  {
    var prefix := entries[..|entries| - 1];
    if j < |entries| - 1 {
      assert prefix[j] == entries[j];
      assert forall k :: j < k < |prefix| ==> prefix[k] == entries[k];
      SeededValue(prefix, isInstance, j);
    }
  }

  /** End to end: in a fallback context seeded by scopeRequest, a lookup of a
      seeded key returns the seed (null for a null seed) without calling the creator. */
  lemma SeededKeyIsServedFromSeed(entries: seq<SeedEntry>, isInstance: (string, Instance) -> bool, j: nat,
                                  produce: nat -> Outcome<Option<Instance>>, calls: nat)
    requires Seeded(entries, isInstance).Return?
    requires j < |entries|
    requires forall k :: j < k < |entries| ==> KeyString(entries[k].key) != KeyString(entries[j].key)
    ensures var store := Seeded(entries, isInstance).value;
      CacheGet(store, KeyString(entries[j].key), produce, calls)
        == CacheStep(Return(Decode(Canonical(entries[j].value))), store, calls)
  {
    SeededValue(entries, isInstance, j);
  }

  /** The callable scopeRequest returns. */
  class ScopedCallable<T> {
    const context: FallbackContext
    const callable: Work<T>

    constructor (context: FallbackContext, callable: Work<T>)
      ensures this.context == context && this.callable == callable
    {
      this.context := context;
      this.callable := callable;
    }

    /** call() on thread t: refused with IllegalState, without running the
        work, while an HTTP request or another fallback scope is bound on t;
        otherwise Context.call of the one context created by scopeRequest,
        which therefore keeps what every earlier call cached. */
    method Call(localContext: ThreadLocal<RequestContext>, requestScopeContext: ThreadLocal<FallbackContext>,
                t: ThreadId) returns (r: Outcome<T>)
      modifies context, requestScopeContext, callable, callable.creator
      ensures context.owner == old(context.owner)
      ensures requestScopeContext.slots == old(requestScopeContext.slots)
      ensures t in localContext.slots ==>
        && r == Throw(IllegalState(HttpInProgressMessage)) && callable.runs == old(callable.runs)
        && context.store == old(context.store) && callable.creator.calls == old(callable.creator.calls)
      ensures t !in localContext.slots && t in requestScopeContext.slots ==>
        && r == Throw(IllegalState(ScopeInProgressMessage)) && callable.runs == old(callable.runs)
        && context.store == old(context.store) && callable.creator.calls == old(callable.creator.calls)
      ensures t !in localContext.slots && t !in requestScopeContext.slots ==>
        if old(context.owner).Some? && old(context.owner) != Some(t) then
          && r == Throw(IllegalState(TransferMessage)) && callable.runs == old(callable.runs)
          && context.store == old(context.store) && callable.creator.calls == old(callable.creator.calls)
        else
          var lookups := LookupAll(old(context.store), callable.names, callable.creator.produce,
                                   old(callable.creator.calls));
          && callable.runs == old(callable.runs) + [Observation(t, Some(context), Some(t))]
          && context.store == lookups.store && callable.creator.calls == lookups.calls
          && r == Finish(lookups, callable.outcome)
    {
      if localContext.Get(t).Some? {
        return Throw(IllegalState(HttpInProgressMessage));
      }
      if requestScopeContext.Get(t).Some? {
        return Throw(IllegalState(ScopeInProgressMessage));
      }
      r := context.Call(requestScopeContext, t, callable);
    }
  }

  /** scopeRequest(callable, seedMap): validates every seed eagerly, filling
      one fresh context in the seed map's iteration order, and returns a
      callable that runs `callable` under that context. */
  method ScopeRequest<T>(callable: Work<T>, seedMap: Option<seq<SeedEntry>>,
                         isInstance: (string, Instance) -> bool) returns (r: Outcome<ScopedCallable<T>>)
    ensures seedMap.None? ==> r == Throw(IllegalArgument(NullSeedMap))
    ensures seedMap.Some? && Seeded(seedMap.value, isInstance).Throw? ==>
      r == Throw(Seeded(seedMap.value, isInstance).error)
    ensures seedMap.Some? && Seeded(seedMap.value, isInstance).Return? ==>
      && r.Return? && fresh(r.value) && fresh(r.value.context)
      && r.value.callable == callable
      && r.value.context.store == Seeded(seedMap.value, isInstance).value
      && r.value.context.owner == None
  {
    if seedMap.None? {
      return Throw(IllegalArgument(NullSeedMap));
    }
    var entries := seedMap.value;
    var context := new FallbackContext();
    var i := 0;
    while i < |entries|
      invariant 0 <= i <= |entries|
      invariant Seeded(entries[..i], isInstance) == Return(context.store)
      invariant context.owner == None
    {
      assert entries[..i + 1][..i] == entries[..i];
      var value := ValidateAndCanonicalizeValue(entries[i].key, entries[i].value, isInstance);
      if value.Throw? {
        SeededStaysFailed(entries, isInstance, i + 1);
        return Throw(value.error);
      }
      context.store := context.store[KeyString(entries[i].key) := value.value];
      i := i + 1;
    }
    assert entries[..i] == entries;
    var scoped := new ScopedCallable(context, callable);
    return Return(scoped);
  }

  /** Once a prefix of the seeds fails, the whole seed map fails the same way. */
  lemma {:induction false} SeededStaysFailed(entries: seq<SeedEntry>, isInstance: (string, Instance) -> bool, n: nat)
    requires n <= |entries| && Seeded(entries[..n], isInstance).Throw?
    ensures Seeded(entries, isInstance) == Seeded(entries[..n], isInstance)
    decreases |entries| - n
  {
    if n < |entries| {
      assert entries[..n + 1][..n] == entries[..n];
      SeededStaysFailed(entries, isInstance, n + 1);
    } else {
      assert entries[..n] == entries;
    }
  }
}
