# guice-cxf request scope and CXF module, in Dafny

This project models the core of guice-cxf, a library that brings Google
Guice dependency injection to Apache CXF JAX-RS servers. It covers five parts.

- **The request-scope cache** (`ScopeCache`, in `scope_cache.dfy`). The read-or-create-and-cache step a scoped
  `get()` performs against one store, and runs of such steps.
- **The request scope** (`CXFScopes`, in `cxf_scopes.dfy`). `REQUEST.scope(key, creator)` gives a provider.
  - Inside an HTTP request, its `get()` caches what the creator produces in the attribute store of the
    original request bound to the thread.
  - Outside one, it uses a thread-bound fallback context instead. `scopeRequest(callable, seedMap)`
    prepares that context.
  - A sentinel (`NullObject`) stands for a cached null.
  - Circular proxies are never cached.
- **The interceptor** (`InterceptorWrapper`, in `interceptor_wrapper.dfy`). `GuiceInterceptorWrapper.handleMessage`
  removes every `ServiceInvokerInterceptor` from the message's chain (`ChainFilter`, in `chain_filter.dfy`). It then runs its delegate once,
  under a fresh context bound to the current thread. That context inherits the original request from an
  enclosing context. An exception the delegate throws comes out as a CXF `Fault`; a `java.lang.Error`
  passes through unchanged.
- **Binding resolution** (`BindingProviders`, in `binding_provider.dfy`). `BindingProvider` resolves, from the
  injector's binding for a key, the scope of that binding (`scopeOfBinding`). It also resolves the concrete
  class that binding produces (the target visitor of `setBinding`, with `getFirstTypeArgumentUpperBound`).
- **The configuration DSL** (`CXFModules`, in `cxf_module.dfy`).
  - `CXFModule.configure()` refuses re-entry and opens two set binders and a `ServerConfig`.
  - It runs the user's `configureResources()`, given as a script of DSL statements and plain Guice `bind(key).to(target)` calls.
  - It then binds the server configuration and the factory bean. If no custom invoker was registered with
    `invokeVia`, it also binds `DefaultInvoker`.
  - A `configure()` that passes the re-entry check always closes the DSL again.

Supporting modules describe what the core uses from its environment: `JavaLang` (`java_lang.dfy`), `Guice`
(`guice.dfy`) and `Cxf` (`cxf.dfy`). These cover nullable references, exceptions, `ThreadLocal`, keys and their
`toString`, providers, messages and interceptor chains.

Modelling conventions:

- A thread is a `ThreadId` passed to every operation that reads a thread-local.
- A `ThreadLocal` is an object with one slot per thread.
- Java `null` is `None`.
- An exception is the `Throw` case of `Outcome`, or the `Some` case of an `Option<Exception>` for a `void`
  method.
- A callable or delegate stands for user code. It logs what was bound on the thread when it ran, performs
  request-scoped lookups of a fixed list of key names, and ends with a fixed outcome unless a lookup threw.
  Its lookups write into the store of the scope it runs under, and contracts state that store afterwards.

## Model

All source paths are relative to the repository root.

| member | source | states |
|---|---|---|
| ScopeCache.Encode | src/main/java/com/google/code/inject/jaxrs/scope/CXFScopes.java:88-89 | a created value is stored as itself, or as the NullObject sentinel exactly when it is null, and reading the entry back gives the created value (null round trip) |
| ScopeCache.LookupIn | src/main/java/com/google/code/inject/jaxrs/scope/CXFScopes.java:77-84 | an entry is absent exactly when nothing is stored under the name; a present entry reads as null for the sentinel and as the stored object otherwise |
| ScopeCache.Remember | src/main/java/com/google/code/inject/jaxrs/scope/CXFScopes.java:85-90 | a circular proxy leaves the store unchanged; any other created value (null included) is afterwards read back under its name; no other name changes |
| ScopeCache.CacheGet | src/main/java/com/google/code/inject/jaxrs/scope/CXFScopes.java:77-93 | a cached entry is returned decoded with no creator call; on a miss the creator's next result is returned and the creator is called once; a throwing creator leaves the store as it was; existing entries are never changed; a returned value that is not a circular proxy is afterwards cached under the name |
| ScopeCache.CreatorCalledOnlyOnMiss | src/main/java/com/google/code/inject/jaxrs/scope/CXFScopes.java:77-93 | the creator is called exactly when nothing is cached under the name, and a cached entry (the sentinel as null) is returned with the store unchanged |
| ScopeCache.MemoisedAfterFirstGet | src/main/java/com/google/code/inject/jaxrs/scope/CXFScopes.java:77-93 | after a get that returned a value that is not a circular proxy, null included, the next get returns the same value without calling the creator or changing the store |
| ScopeCache.CircularProxyNotCached | src/main/java/com/google/code/inject/jaxrs/scope/CXFScopes.java:84-91 | a circular proxy is returned but not stored, so the following get calls the creator again |
| ScopeCache.FailedCreationCachesNothing | src/main/java/com/google/code/inject/jaxrs/scope/CXFScopes.java:84-91 | when the creator throws, get throws the same exception and the store is unchanged |
| ScopeCache.CacheGetTouchesOnlyItsName | src/main/java/com/google/code/inject/jaxrs/scope/CXFScopes.java:88-89 | a get changes no entry other than the one under its own key name |
| ScopeCache.LookupAll | src/main/java/com/google/code/inject/jaxrs/scope/CXFScopes.java:66-93 | a run of gets in order never lowers the creator's call count, and a run that completes ends in null; that a throwing run ends with its first failing get's exception is `ScopeCache.LookupAllReportsFirstFailure` |
| ScopeCache.LookupAllAppend | src/main/java/com/google/code/inject/jaxrs/scope/CXFScopes.java:66-93 | the gets of two lists in a row are the gets of the first list, followed, unless one of them threw, by the gets of the second on the store and call count the first left |
| ScopeCache.LookupAllReportsFirstFailure | src/main/java/com/google/code/inject/jaxrs/scope/CXFScopes.java:84-93 | when the gets before position k all return and the get at k throws, the whole run ends exactly as that get: with its exception, its store and its call count, the later names never looked up |
| ScopeCache.LookupAllKeepsEntries | src/main/java/com/google/code/inject/jaxrs/scope/CXFScopes.java:84-91 | a run of gets keeps every entry that was already cached, unchanged |
| ScopeCache.LookupAllCachesEveryName | src/main/java/com/google/code/inject/jaxrs/scope/CXFScopes.java:84-91 | with a creator that neither throws nor gives circular proxies, every name looked up is cached afterwards |
| ScopeCache.LookupAllHits | src/main/java/com/google/code/inject/jaxrs/scope/CXFScopes.java:77-83 | gets of names that are all cached change nothing and call no creator |
| ScopeCache.SecondRunSeesFirstRunsEntries | src/main/java/com/google/code/inject/jaxrs/scope/CXFScopes.java:77-93 | with a creator that neither throws nor gives circular proxies, a second run of the same gets on the store the first run left finds every entry the first run cached: the store stays as it is and the creator is not called again |
| CXFScopes.Work.Call | src/main/java/com/google/code/inject/jaxrs/scope/CXFScopes.java:66-93 | the user's callable runs once, recording the fallback context bound on its thread; its gets run against that context's map, which is left as they leave it; it ends with the exception of the first get that threw, or else with its own outcome |
| CXFScopes.FallbackContext.constructor | src/main/java/com/google/code/inject/jaxrs/scope/CXFScopes.java:213-215 | a new context has an empty map and no owner |
| CXFScopes.FallbackContext.Call | src/main/java/com/google/code/inject/jaxrs/scope/CXFScopes.java:217-232 | refused with IllegalStateException (transfer message), without running the callable or touching the map, while another thread owns the context; otherwise runs the callable once with this context bound to the thread and owned by it, and the map keeps what the callable's gets cached; on every exit the owner and the thread's previous binding are restored |
| CXFScopes.ScopedProvider.constructor | src/main/java/com/google/code/inject/jaxrs/scope/CXFScopes.java:63-64 | the provider caches under key.toString() |
| CXFScopes.ScopedProvider.Get | src/main/java/com/google/code/inject/jaxrs/scope/CXFScopes.java:66-125 | with no HTTP request bound: the read-or-create-and-cache step runs on the fallback context's map, and the result is OutOfScopeException with no creator call when no fallback context is bound either; with an HTTP request bound: the step runs on the original request's attributes, or the creator is called directly without caching for a key in REQUEST_CONTEXT_KEYS; the fallback map is left alone |
| CXFScopes.RequestScope.constructor | src/main/java/com/google/code/inject/jaxrs/scope/CXFScopes.java:40-45 | REQUEST_CONTEXT_KEYS is empty |
| CXFScopes.RequestScope.Scope | src/main/java/com/google/code/inject/jaxrs/scope/CXFScopes.java:63-65 | scope(key, creator) returns a new provider for that key and creator, caching under key.toString() |
| CXFScopes.ValidateAndCanonicalizeValue | src/main/java/com/google/code/inject/jaxrs/scope/CXFScopes.java:199-211 | fails with IllegalArgumentException exactly when the seed is a non-null object that is not an instance of the key's raw type; otherwise null and the sentinel become the sentinel and any other object is kept as it is |
| CXFScopes.Seeded | src/main/java/com/google/code/inject/jaxrs/scope/CXFScopes.java:172-177 | the seeding loop can only fail with the IllegalArgumentException for an incompatible value, and a seeded map holds no more entries than there are seeds |
| CXFScopes.SeededFailsIffSomeSeedInvalid | src/main/java/com/google/code/inject/jaxrs/scope/CXFScopes.java:172-177 | seeding fails if and only if some seed value is invalid |
| CXFScopes.SeededReportsFirstInvalid | src/main/java/com/google/code/inject/jaxrs/scope/CXFScopes.java:173-177 | the exception is the one for the first invalid seed in iteration order |
| CXFScopes.SeededStaysFailed | src/main/java/com/google/code/inject/jaxrs/scope/CXFScopes.java:173-177 | once a seed fails, later seeds do not change the outcome |
| CXFScopes.SeededNames | src/main/java/com/google/code/inject/jaxrs/scope/CXFScopes.java:172-177 | a successful seeding holds an entry for exactly the toString() names of the seeded keys |
| CXFScopes.SeededValue | src/main/java/com/google/code/inject/jaxrs/scope/CXFScopes.java:173-177 | each seed is stored in canonical form under its key's name, unless a later seed has the same name |
| CXFScopes.SeededKeyIsServedFromSeed | src/main/java/com/google/code/inject/jaxrs/scope/CXFScopes.java:172-177 | in a seeded context a get of a seeded key returns the seed (null for a null seed) without calling the creator |
| CXFScopes.ScopeRequest | src/main/java/com/google/code/inject/jaxrs/scope/CXFScopes.java:165-193 | a null seed map is refused with IllegalArgumentException; an invalid seed throws before any callable exists; otherwise returns a new callable around one new unowned context whose map is exactly the seeded map |
| CXFScopes.ScopedCallable.constructor | src/main/java/com/google/code/inject/jaxrs/scope/CXFScopes.java:179-192 | the returned callable runs the given callable under the one context the seeding built |
| CXFScopes.ScopedCallable.Call | src/main/java/com/google/code/inject/jaxrs/scope/CXFScopes.java:180-191 | refused with IllegalStateException, without running the callable or touching the map, while an HTTP request or another fallback scope is bound to the thread; otherwise it is Context.call of the seeded context, whose map keeps what every call's gets cached, so a later call sees the entries an earlier one cached; the owner and the thread's binding are restored afterwards |
| InterceptorWrapper.Delegate.HandleMessage | src/main/java/com/google/code/inject/jaxrs/scope/GuiceInterceptorWrapper.java:109 | the delegate runs once, recording the message, the thread, the context bound to the thread and that context's owner; its gets run against the attributes of that context's original request, which are left as they leave them; it ends with the exception of the first get that threw, or else with its own outcome |
| InterceptorWrapper.RequestContext.constructor | src/main/java/com/google/code/inject/jaxrs/scope/GuiceInterceptorWrapper.java:27-30 | a new context holds its original request and its request and has no owner |
| InterceptorWrapper.RequestContext.Call | src/main/java/com/google/code/inject/jaxrs/scope/GuiceInterceptorWrapper.java:32-47 | refused with IllegalStateException, without running the delegate, while another thread owns the context; otherwise the delegate runs once seeing this context bound to the thread and owned by it, and the original request's attributes keep what its gets cached; the owner and the thread's previous binding come back on every exit |
| InterceptorWrapper.GetContext | src/main/java/com/google/code/inject/jaxrs/scope/GuiceInterceptorWrapper.java:60-71 | the context bound to the thread, or OutOfScopeException with the source's message when none is bound |
| InterceptorWrapper.GetOriginalRequest | src/main/java/com/google/code/inject/jaxrs/scope/GuiceInterceptorWrapper.java:73-75 | the bound context's original request, or OutOfScopeException when none is bound |
| InterceptorWrapper.OriginalRequestFor | src/main/java/com/google/code/inject/jaxrs/scope/GuiceInterceptorWrapper.java:101-103 | the original request is inherited from the context already bound, and is the incoming message when none is bound |
| InterceptorWrapper.Rethrown | src/main/java/com/google/code/inject/jaxrs/scope/GuiceInterceptorWrapper.java:113-117 | what comes out is a Fault or an Error: a Fault and a java.lang.Error are rethrown unchanged, any other exception becomes the cause of a new Fault |
| ChainFilter.WithoutServiceInvokers | src/main/java/com/google/code/inject/jaxrs/scope/GuiceInterceptorWrapper.java:92-99 | the filtered chain holds exactly the interceptors of the chain that are not ServiceInvokerInterceptors, and is no longer |
| ChainFilter.WithoutServiceInvokersAppend | src/main/java/com/google/code/inject/jaxrs/scope/GuiceInterceptorWrapper.java:92-99 | filtering a concatenation filters each part |
| ChainFilter.WithoutServiceInvokersKeepsOrder | src/main/java/com/google/code/inject/jaxrs/scope/GuiceInterceptorWrapper.java:92-99 | the interceptors kept stay in their original order |
| ChainFilter.WithoutServiceInvokersCounts | src/main/java/com/google/code/inject/jaxrs/scope/GuiceInterceptorWrapper.java:92-99 | no ServiceInvokerInterceptor remains, and every other interceptor remains as many times as before |
| ChainFilter.WithoutServiceInvokersIdempotent | src/main/java/com/google/code/inject/jaxrs/scope/GuiceInterceptorWrapper.java:92-99 | filtering twice is filtering once |
| ChainFilter.RemoveFirstAfterPrefix | src/main/java/com/google/code/inject/jaxrs/scope/GuiceInterceptorWrapper.java:96-98 | chain.remove(next) removes the occurrence just past the already-filtered prefix, because the prefix no longer holds it |
| ChainFilter.FilterStep | src/main/java/com/google/code/inject/jaxrs/scope/GuiceInterceptorWrapper.java:95-98 | for a filtered prefix, the next interceptor and the rest: removing a ServiceInvokerInterceptor, or keeping any other interceptor, leaves the filter of the prefix extended by that interceptor, followed by the rest |
| ChainFilter.RemovalStepRemoves | src/main/java/com/google/code/inject/jaxrs/scope/GuiceInterceptorWrapper.java:95-98 | an iteration that removes a ServiceInvokerInterceptor extends the filtered prefix by one element |
| ChainFilter.RemovalStepKeeps | src/main/java/com/google/code/inject/jaxrs/scope/GuiceInterceptorWrapper.java:95-96 | an iteration that keeps any other interceptor extends the filtered prefix by one element |
| ChainFilter.WithoutServiceInvokersSnoc | src/main/java/com/google/code/inject/jaxrs/scope/GuiceInterceptorWrapper.java:92-99 | filtering a chain extended by one interceptor extends the filtered chain by it, unless it is a ServiceInvokerInterceptor |
| ChainFilter.RemoveServiceInvokers | src/main/java/com/google/code/inject/jaxrs/scope/GuiceInterceptorWrapper.java:92-99 | after the loop the chain is exactly the filtered chain |
| InterceptorWrapper.GuiceInterceptorWrapper.Default | src/main/java/com/google/code/inject/jaxrs/scope/GuiceInterceptorWrapper.java:79-81 | the default wrapper delegates to a new ServiceInvokerInterceptor, in phase INVOKE, before ServiceInvokerInterceptor; the service it runs is given as its lookups and the outcome it ends with |
| InterceptorWrapper.GuiceInterceptorWrapper.constructor | src/main/java/com/google/code/inject/jaxrs/scope/GuiceInterceptorWrapper.java:83-88 | the wrapper sits in phase INVOKE, before ServiceInvokerInterceptor, around the given delegate |
| InterceptorWrapper.GuiceInterceptorWrapper.HandleMessage | src/main/java/com/google/code/inject/jaxrs/scope/GuiceInterceptorWrapper.java:90-118 | the chain loses exactly its ServiceInvokerInterceptors; the delegate runs exactly once on the request, under a new context owned by the thread whose request is the message and whose original request is inherited from the enclosing context or else is the message; the original request's attributes keep what the delegate's gets cached; the thread's binding is restored; an Exception from the delegate comes out as a Fault and an Error unchanged |
| BindingProviders.ScopeOfBinding | src/main/java/com/google/code/inject/jaxrs/util/BindingProvider.java:120-169 | multibinders are unresolved; Providers.of instances and converted constants are Singleton; otherwise eager singleton is Singleton, unscoped is NO_SCOPE, a scope instance is itself, and a scope annotation is the injector's scope for it, unresolved when there is none |
| BindingProviders.ScopeUnresolvedIff | src/main/java/com/google/code/inject/jaxrs/util/BindingProvider.java:123-168 | the scope stays unresolved if and only if the binding is a multibinder or carries a scope annotation the injector has no scope for |
| BindingProviders.ScopeBindingsOnlyMatterForTheAnnotation | src/main/java/com/google/code/inject/jaxrs/util/BindingProvider.java:164-167 | two injectors agreeing on the binding's own scope annotation resolve the same scope |
| BindingProviders.FirstTypeArgumentUpperBound | src/main/java/com/google/code/inject/jaxrs/util/BindingProvider.java:171-180 | succeeds exactly when the class has a first type parameter with a single bound that is a class, and returns that class; otherwise throws ArrayIndexOutOfBounds, IllegalArgument or ClassCast for the three failures |
| BindingProviders.ActualType | src/main/java/com/google/code/inject/jaxrs/util/BindingProvider.java:75-117 | constructor, linked-key and untargetted bindings give the raw type of the declaring type, the linked key and the binding's key; a provider binding gives its provider's bound when the key's raw type accepts it; every failure, and every other kind of binding, is a ProvisionException, wrapping the cause for provider bindings |
| BindingProviders.ActualTypeFailsIff | src/main/java/com/google/code/inject/jaxrs/util/BindingProvider.java:89-116 | resolution fails exactly for the unresolvable kinds and for providers whose bound is missing or not acceptable, and a resolved provider class is always assignable to the key's raw type |
| BindingProviders.BindingProvider.constructor | src/main/java/com/google/code/inject/jaxrs/util/BindingProvider.java:54-56 | a new provider has its key and neither actual type nor scope |
| BindingProviders.BindingProvider.GetScope | src/main/java/com/google/code/inject/jaxrs/util/BindingProvider.java:66-69 | IllegalStateException("Scope was not resolved") while the scope is null, the scope otherwise |
| BindingProviders.BindingProvider.SetBinding | src/main/java/com/google/code/inject/jaxrs/util/BindingProvider.java:71-118 | the scope becomes the binding's resolved scope first; the actual type becomes the resolved class, or stays as it was when resolution throws, and then the ProvisionException is rethrown |
| BindingProviders.BindingProvider.SetInjector | src/main/java/com/google/code/inject/jaxrs/util/BindingProvider.java:182-185 | setBinding with the injector's binding for the key and its scope bindings; nothing changes when the injector cannot give a binding |
| CXFModules.PerRequestProviderKey | src/main/java/com/google/code/inject/jaxrs/CXFModule.java:404-421 | the published key is GuicePerRequestResourceProvider parameterised by exactly the resource's type, with no owner type and no annotation |
| CXFModules.PublishIgnoresAnnotation | src/main/java/com/google/code/inject/jaxrs/CXFModule.java:404-421 | keys that differ only in their binding annotation publish the same provider key |
| CXFModules.Step | src/main/java/com/google/code/inject/jaxrs/CXFModule.java:318-538 | a statement (a DSL call or a plain Guice bind(key).to(target)) that throws changes nothing, except that invokeVia(null) leaves the custom-invoker flag raised; a statement never removes bindings and never lowers the custom-invoker flag |
| CXFModules.RunStaysFailed | src/main/java/com/google/code/inject/jaxrs/CXFModule.java:292-293 | once a statement of configureResources() throws an exception that the user code does not catch, the later statements do not run |
| CXFModules.Run | src/main/java/com/google/code/inject/jaxrs/CXFModule.java:292-293 | configureResources() only adds bindings, keeping the earlier ones in order, and never lowers the custom-invoker flag |
| CXFModules.Initial | src/main/java/com/google/code/inject/jaxrs/CXFModule.java:287-290 | configureResources() starts with exactly the earlier bindings followed by the resource-provider set binder and the JAX-RS-provider set binder, address "/", static resource resolution off and the flag down |
| CXFModules.Finals | src/main/java/com/google/code/inject/jaxrs/CXFModule.java:294-298 | the final bindings are the server configuration as it stands, then the factory bean's provider in Singleton, and include DefaultInvoker for the Invoker key exactly when the flag is down |
| CXFModules.InvokerBindingsSnoc | src/main/java/com/google/code/inject/jaxrs/CXFModule.java:297-298 | appending a binding adds one Invoker binding exactly when it binds the Invoker key |
| CXFModules.StepBindsInvokerWithFlag | src/main/java/com/google/code/inject/jaxrs/CXFModule.java:374-378 | a single statement that does not throw adds one Invoker binding when it raises the custom-invoker flag, one when it is a plain bind of the Invoker key, and none otherwise |
| CXFModules.RunBindsInvokerWithFlag | src/main/java/com/google/code/inject/jaxrs/CXFModule.java:361-392 | in a configureResources() that completes, the Invoker key gains one binding if the custom-invoker flag is raised during it, plus one for every plain bind of the Invoker key in the script |
| CXFModules.InvokerBoundExactlyOnce | src/main/java/com/google/code/inject/jaxrs/CXFModule.java:290-298 | a configure() that completes binds the Invoker key once (to the custom invoker or else to DefaultInvoker) plus once for every plain bind of it in configureResources(); so exactly once when the script does not bind it itself, and more than once (which Guice rejects) when it does |
| CXFModules.FlagIffInvokeVia | src/main/java/com/google/code/inject/jaxrs/CXFModule.java:290-293 | in a configureResources() that completes, started with the flag down, the flag ends up raised exactly when the script holds an invokeVia statement |
| CXFModules.DefaultInvokerIffNoInvokeVia | src/main/java/com/google/code/inject/jaxrs/CXFModule.java:290-298 | a configure() that completes binds DefaultInvoker exactly when configureResources() has no invokeVia statement |
| CXFModules.InvokeViaRaisesFlag | src/main/java/com/google/code/inject/jaxrs/CXFModule.java:374-378 | after an invokeVia statement, configureResources() has thrown or the custom-invoker flag is raised |
| CXFModules.InvokeViaOnlyOnce | src/main/java/com/google/code/inject/jaxrs/CXFModule.java:361-392 | a configureResources() with two invokeVia statements always ends in an exception, unless the user code catches the second one's IllegalStateException (not modelled) |
| CXFModules.AddressIsLastServed | src/main/java/com/google/code/inject/jaxrs/CXFModule.java:215-219 | a completed configureResources() leaves the address of its last atAddress statement, or the initial "/" |
| CXFModules.ServerConfig.constructor | src/main/java/com/google/code/inject/jaxrs/CXFModule.java:212-213 | a new configuration has address "/" and static resource resolution off |
| CXFModules.ServerConfig.AtAddress | src/main/java/com/google/code/inject/jaxrs/CXFModule.java:215-219 | sets the address, leaves the other option alone, and returns the same builder |
| CXFModules.ServerConfig.WithStaticResourceResolution | src/main/java/com/google/code/inject/jaxrs/CXFModule.java:231-235 | turns static resource resolution on, leaves the address alone, and returns the same builder |
| CXFModules.CXFModule.constructor | src/main/java/com/google/code/inject/jaxrs/CXFModule.java:273-279 | a new module has no configuration, no set binders and the custom-invoker flag down |
| CXFModules.CXFModule.CheckNotConfiguring | src/main/java/com/google/code/inject/jaxrs/CXFModule.java:283-285 | IllegalStateException("Re-entry is not allowed.") exactly when any of the DSL fields is set |
| CXFModules.CXFModule.Serve | src/main/java/com/google/code/inject/jaxrs/CXFModule.java:350-352 | serve() gives the current configuration builder, null outside configure() |
| CXFModules.CXFModule.InvokeVia | src/main/java/com/google/code/inject/jaxrs/CXFModule.java:374-378 | refused with IllegalStateException("Custom invoker bound twice") and nothing bound once the flag is up; otherwise the flag is raised and the Invoker key linked to the given key, or, for a null key, NullPointerException with nothing linked; the flag is up afterwards in every case |
| CXFModules.CXFModule.Publish | src/main/java/com/google/code/inject/jaxrs/CXFModule.java:400-424 | NullPointerException and nothing bound for a null key or outside configure(); otherwise adds the per-request provider key, in Singleton, to the resource provider set |
| CXFModules.CXFModule.DoBind | src/main/java/com/google/code/inject/jaxrs/CXFModule.java:318-321 | NullPointerException and nothing bound for a null key or outside configure(); otherwise adds the key to the JAX-RS provider set |
| CXFModules.CXFModule.Register | src/main/java/com/google/code/inject/jaxrs/CXFModule.java:448-538 | every registration method is doBind of its key, whatever its role |
| CXFModules.CXFModule.Execute | src/main/java/com/google/code/inject/jaxrs/CXFModule.java:293 | running one statement (a DSL call or a plain Guice bind) against the module changes its state as the statement's step says |
| CXFModules.CXFModule.Open | src/main/java/com/google/code/inject/jaxrs/CXFModule.java:287-290 | configure() opens the resource provider and JAX-RS provider set binders, a new default configuration and a lowered flag |
| CXFModules.CXFModule.BindFinals | src/main/java/com/google/code/inject/jaxrs/CXFModule.java:294-298 | binds the server configuration, the factory bean's provider in Singleton, and DefaultInvoker for the Invoker key when no custom invoker was registered |
| CXFModules.CXFModule.Configure | src/main/java/com/google/code/inject/jaxrs/CXFModule.java:281-305 | a re-entrant call throws IllegalStateException and changes nothing; otherwise the bindings are the set binders, those of configureResources() up to its first exception, and the final bindings only if it completed; the DSL fields are null afterwards in every case |
| CXFModules.DefaultInvoke | src/main/java/com/google/code/inject/jaxrs/CXFModule.java:183-185 | the DefaultInvoker marker always throws UnsupportedOperationException |
| CXFModules.IsDefault | src/main/java/com/google/code/inject/jaxrs/CXFModule.java:194-196 | true exactly for the DefaultInvoker marker |

## Left out

- Threads, `volatile` and `synchronized` are left out.
  - The current thread is a parameter, and interleavings are not modelled.
  - A context owned by another thread is stated as a pre-state owner other than the calling thread.
  - `synchronized (request)` in the request scope has no counterpart.
- What a callable or a delegate does is left out, except for its request-scoped lookups. Each records what it saw, performs gets of a fixed list of key names through one creator, and ends with a fixed outcome.
- `CXFScopes.Work.Call` and `InterceptorWrapper.Delegate.HandleMessage` perform their gets on the store the scope uses while they run (the fallback map, or the original request's attributes). Gets of keys in `REQUEST_CONTEXT_KEYS`, which is empty, and nested scopes started from inside them are not modelled.
- What the creator does is left out. It is a provider whose n-th call gives a fixed outcome.
- `ScopeUtils.isCircularProxy` (of the library's own `com.google.code.inject.jaxrs.util` package) is a flag on the instance.
- Key identity and `Key.toString` are approximated:
  - `Key.toString` is rendered in Guice's `Key[type=…, annotation=…]` form.
  - Type arguments are shown the way `TypeName` builds them.
  - Annotations are shown as opaque strings.
- The `Class`, `Type` and `TypeLiteral` overloads are modelled through the `Key` overloads only. This covers `publish`, `invokeVia`, `doBind` and the registration methods, which reach the `Key` form through `Key.get`.
- `CXFModules.CXFModule.InvokeVia` with a null key does not record the untargetted Invoker binding that Guice's `bind(Invoker.class)` leaves behind before `.to(null)` throws. When that NullPointerException is not caught, configure() fails at that point anyway; when the user code catches it, the model has the flag up with no Invoker link, and lacks that untargetted binding.
- The `ScopedBindingBuilder` returned by `invokeVia` is not modelled, so no scope can be chained onto the invoker binding.
- `isRequestScoped` is not part of this model. It only calls `ScopeUtils.isScoped` of the library's own `com.google.code.inject.jaxrs.util` package.
- The `toString` methods of the scope and its providers are not modelled.
- Exception messages are left out in two ways:
  - `IllegalArgumentException` and `ProvisionException` carry the kind of problem, not the message text.
  - Messages that print objects are not rendered.
- `CXFModules.CXFModule.InvokeVia`: a call outside `configure()` raises the flag and records the binding. Guice's `AbstractModule.binder()` would throw there, and that part of Guice is not modelled.
- `CXFModules.CXFModule.BindFinals` records the server configuration's address and option as they are at bind time. `toInstance(config)` binds the object itself, so a later change through a builder reference kept by the user is not reflected.
- `BindingProvider.getActualType` and `getKey` are the fields `actualType` and `key`.
- `Context.getOriginalRequest` and `getRequest` are the fields `originalRequest` and `request`.
- `injector.getBinding(key)` is a function from keys to bindings or exceptions. Just-in-time binding is not modelled.
- `BindingProviders.FirstTypeArgumentUpperBound` is modelled as written: it takes the first type parameter of the provider's class, not necessarily that of `Provider<T>`.
- The seed map of `scopeRequest` is a sequence of entries in iteration order. Duplicate key names, which a Java map with distinct keys can still produce through equal `toString`s, are handled as the source handles them: the later entry wins.
- `ChainFilter.RemoveServiceInvokers` walks the chain as it was when the loop started. The effect of removals on CXF's live chain iterator is not modelled.
- `src/main/java/com/google/code/inject/jaxrs/internal/DefaultInvoker.java` has the same body as `CXFModule.DefaultInvoker` and is modelled once.
- `JaxRsServerFactoryBeanProvider`, `GuicePerRequestResourceProvider` and the Multibinder internals are not part of this model. Only the bindings the module asks for are recorded.
- `CXFScopes.ScopeRequest`: a seed map holding a null key makes `scopeRequest` throw NullPointerException, in `validateAndCanonicalizeValue` or when it takes the key's `toString()`. This is not modelled: a `SeedEntry` always has a key.
- `InterceptorWrapper.GuiceInterceptorWrapper.HandleMessage`: a message whose `getInterceptorChain()` is null makes `handleMessage` throw NullPointerException before any context is created. This is not modelled: a `Message` always has a chain.
- Of what `configureResources()` may do through Guice's own `AbstractModule` methods, only `bind(key).to(target)` with non-null keys is modelled (the `Bind` statement). Other binder calls, and the injector creation error Guice reports for a key bound twice, are not modelled.
- `CXFModules.Run`: a statement of `configureResources()` that throws ends it, so user code that catches a DSL exception and goes on (for example `invokeVia(a); try { invokeVia(b); } catch (IllegalStateException e) {}`) is not modelled. `CXFModules.RunStaysFailed` and `CXFModules.InvokeViaOnlyOnce` therefore speak of exceptions the user code does not catch.
