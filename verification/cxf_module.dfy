/** CXFModule: the configuration DSL. configure() opens two set binders and
    a server configuration, runs the user's configureResources(), binds the
    server configuration, the factory bean and (unless a custom invoker was
    registered) the default invoker; once past its re-entry check it always
    closes the DSL again. */
module CXFModules {
  import opened JavaLang
  import opened Guice

  const ReentryMessage := "Re-entry is not allowed."
  const CustomInvokerTwiceMessage := "Custom invoker bound twice"

  const InvokerKey := Key(ClassType("org.apache.cxf.service.invoker.Invoker"), None)
  const DefaultInvokerKey := Key(ClassType("com.google.code.inject.jaxrs.CXFModule$DefaultInvoker"), None)
  const ServerConfigurationKey := Key(ClassType("com.google.code.inject.jaxrs.CXFModule$ServerConfiguration"), None)
  const FactoryBeanKey := Key(ClassType("org.apache.cxf.jaxrs.JAXRSServerFactoryBean"), None)
  const FactoryBeanProviderKey := Key(ClassType("com.google.code.inject.jaxrs.JaxRsServerFactoryBeanProvider"), None)
  const PerRequestProviderClass := "com.google.code.inject.jaxrs.GuicePerRequestResourceProvider"

  /** A Multibinder, identified by its element type and binding annotation. */
  datatype SetBinder = SetBinder(elementType: string, annotation: Option<string>)

  const ResourceProvidersSet := SetBinder("org.apache.cxf.jaxrs.lifecycle.ResourceProvider", None)
  const ProvidersSet := SetBinder("java.lang.Object", Some("com.google.code.inject.jaxrs.CXFModule$JaxRsProvider"))

  /** What the module hands to Guice's binder, in order. */
  datatype BindingRecord =
    | NewSetBinder(binder: SetBinder)
    | AddToSet(binder: SetBinder, target: Key, inSingleton: bool)
    | ToInstance(key: Key, address: string, staticResourceResolution: bool)
    | ToProvider(key: Key, provider: Key, inSingleton: bool)
    | LinkedTo(key: Key, target: Key)

  /** The key publish() binds into the resource provider set:
      GuicePerRequestResourceProvider parameterised by the resource's type,
      with no owner type and no annotation. */
  function PerRequestProviderKey(resource: Key): (r: Key)
    ensures r.annotation.None? && r.typeRef.ParameterizedType?
    ensures r.typeRef.rawType == PerRequestProviderClass
    ensures r.typeRef.arguments == [resource.typeRef] && r.typeRef.owner.None?
  {
    Key(ParameterizedType(PerRequestProviderClass, [resource.typeRef], None), None)
  }

  /** publish() ignores the binding annotation of the key it is given: two
      keys of the same type publish the same provider. */
  lemma PublishIgnoresAnnotation(k1: Key, k2: Key)
    requires k1.typeRef == k2.typeRef
    ensures PerRequestProviderKey(k1) == PerRequestProviderKey(k2)
  {
  }

  /** The roles under which a JAX-RS @Provider can be registered. */
  datatype ProviderRole =
    | HandleRequest | HandleResponse | MapExceptions | Provide | ReadBody | WriteAndReadBody | WriteBody

  /** One statement of configureResources(); a key of None is a null argument. */
  datatype Command =
    | AtAddress(address: string)                          // serve().atAddress(address)
    | WithStaticResourceResolution                        // serve().withStaticResourceResolution()
    | InvokeVia(invoker: Option<Key>)                     // invokeVia(key)
    | Publish(resource: Option<Key>)                      // publish(key)
    | Register(role: ProviderRole, provider: Option<Key>) // handleRequest(key), ..., writeBody(key)
    | Bind(key: Key, target: Key)                         // a plain Guice bind(key).to(target)
    | Reconfigure                                         // configure() called from inside configureResources()
    | Fail(error: Exception)                              // any other statement, which throws

  /** The observable state of the DSL while configure() runs. */
  datatype DslState = DslState(address: string, staticResourceResolution: bool, customInvoker: bool,
                               log: seq<BindingRecord>)

  /** The state and the exception, if any, after running statements. */
  datatype RunResult = RunResult(state: DslState, error: Option<Exception>)

  /** One statement of configureResources() inside configure(). */
  function Step(s: DslState, c: Command): (r: RunResult)
    ensures r.error.Some? ==> r.state == s || (c == InvokeVia(None) && r.state == s.(customInvoker := true))
    ensures s.log <= r.state.log
    ensures s.customInvoker ==> r.state.customInvoker
  {
    match c
    case AtAddress(a) => RunResult(s.(address := a), None)
    case WithStaticResourceResolution => RunResult(s.(staticResourceResolution := true), None)
    case InvokeVia(k) =>
      if s.customInvoker then RunResult(s, Some(IllegalState(CustomInvokerTwiceMessage)))
      else if k.None? then RunResult(s.(customInvoker := true), Some(NullPointer))  // the flag is already up
      else RunResult(s.(customInvoker := true, log := s.log + [LinkedTo(InvokerKey, k.value)]), None)
    case Publish(k) =>
      if k.None? then RunResult(s, Some(NullPointer))
      else RunResult(s.(log := s.log + [AddToSet(ResourceProvidersSet, PerRequestProviderKey(k.value), true)]), None)
    case Register(_, k) =>
      if k.None? then RunResult(s, Some(NullPointer))
      else RunResult(s.(log := s.log + [AddToSet(ProvidersSet, k.value, false)]), None)
    case Bind(k, t) => RunResult(s.(log := s.log + [LinkedTo(k, t)]), None)
    case Reconfigure => RunResult(s, Some(IllegalState(ReentryMessage)))
    case Fail(e) => RunResult(s, Some(e))
  }

  /** configureResources(): the statements in order, up to the first that throws.
      A script has no catch: an exception the user code would catch is not modelled. */
  function Run(init: DslState, script: seq<Command>): (r: RunResult)
    ensures init.log <= r.state.log
    ensures init.customInvoker ==> r.state.customInvoker
    decreases |script|
  {
    if script == [] then RunResult(init, None)
    else
      var prev := Run(init, script[..|script| - 1]);
      if prev.error.Some? then prev else Step(prev.state, script[|script| - 1])
  }

  /** The DSL state configure() starts configureResources() in. */
  function Initial(prior: seq<BindingRecord>): (r: DslState)
    ensures r.log == prior + [NewSetBinder(ResourceProvidersSet), NewSetBinder(ProvidersSet)]
    ensures r.address == "/" && !r.staticResourceResolution && !r.customInvoker
  {
    DslState("/", false, false, prior + [NewSetBinder(ResourceProvidersSet), NewSetBinder(ProvidersSet)])
  }

  /** The bindings configure() adds after configureResources() returns. */
  function Finals(s: DslState): (r: seq<BindingRecord>)
    ensures |r| == if s.customInvoker then 2 else 3
    ensures r[0] == ToInstance(ServerConfigurationKey, s.address, s.staticResourceResolution)
    ensures r[1] == ToProvider(FactoryBeanKey, FactoryBeanProviderKey, true)
    ensures LinkedTo(InvokerKey, DefaultInvokerKey) in r <==> !s.customInvoker
  {
    [ToInstance(ServerConfigurationKey, s.address, s.staticResourceResolution),
     ToProvider(FactoryBeanKey, FactoryBeanProviderKey, true)]
    + (if s.customInvoker then [] else [LinkedTo(InvokerKey, DefaultInvokerKey)])
  }

  /** Once a statement has thrown, the later ones do not run. */
  lemma {:induction false} RunStaysFailed(init: DslState, script: seq<Command>, n: nat)
    requires n <= |script| && Run(init, script[..n]).error.Some?
    ensures Run(init, script) == Run(init, script[..n])
    decreases |script| - n
  {
    if n < |script| {
      assert script[..n + 1][..n] == script[..n];
      RunStaysFailed(init, script, n + 1);
    } else {
      assert script[..n] == script;
    }
  }

  predicate IsInvokerBinding(b: BindingRecord)
  {
    b.LinkedTo? && b.key == InvokerKey
  }

  /** The number of bindings of the Invoker key in a binding log. */
  function InvokerBindings(log: seq<BindingRecord>): (n: nat)
    ensures n <= |log|
    decreases |log|
  {
    if log == [] then 0
    else InvokerBindings(log[..|log| - 1]) + (if IsInvokerBinding(log[|log| - 1]) then 1 else 0)
  }

  lemma InvokerBindingsSnoc(log: seq<BindingRecord>, x: BindingRecord)
    ensures InvokerBindings(log + [x]) == InvokerBindings(log) + (if IsInvokerBinding(x) then 1 else 0)
  {
    assert (log + [x])[..|log|] == log;
  }

  /** A plain Guice bind of the Invoker key, which does not touch the
      custom-invoker flag. */
  predicate BindsInvokerDirectly(c: Command)
  {
    c.Bind? && c.key == InvokerKey
  }

  /** The number of statements of a script that bind the Invoker key directly. */
  function DirectInvokerBinds(script: seq<Command>): (n: nat)
    ensures n <= |script|
    decreases |script|
  {
    if script == [] then 0
    else DirectInvokerBinds(script[..|script| - 1]) + (if BindsInvokerDirectly(script[|script| - 1]) then 1 else 0)
  }

  /** A statement that does not throw binds the Invoker key once when it
      raises the custom-invoker flag, once when it binds the key directly,
      and not otherwise. */
  lemma StepBindsInvokerWithFlag(s: DslState, c: Command)
    requires Step(s, c).error.None?
    ensures var r := Step(s, c).state;
      InvokerBindings(r.log) == InvokerBindings(s.log)
        + (if r.customInvoker && !s.customInvoker then 1 else 0)
        + (if BindsInvokerDirectly(c) then 1 else 0)
  {
    match c
    case InvokeVia(k) =>
      if !s.customInvoker {
        InvokerBindingsSnoc(s.log, LinkedTo(InvokerKey, k.value));
      }
    case Publish(k) =>
      if k.Some? {
        InvokerBindingsSnoc(s.log, AddToSet(ResourceProvidersSet, PerRequestProviderKey(k.value), true));
      }
    case Register(_, k) =>
      if k.Some? {
        InvokerBindingsSnoc(s.log, AddToSet(ProvidersSet, k.value, false));
      }
    case Bind(k, t) =>
      InvokerBindingsSnoc(s.log, LinkedTo(k, t));
    case _ =>
  }

  /** In a configureResources() that completes, the Invoker key gains one
      binding if the custom-invoker flag is raised, plus one for each
      statement that binds it directly. */
  lemma {:induction false} RunBindsInvokerWithFlag(init: DslState, script: seq<Command>)
    requires Run(init, script).error.None?
    ensures var s := Run(init, script).state;
      InvokerBindings(s.log) == InvokerBindings(init.log)
        + (if s.customInvoker && !init.customInvoker then 1 else 0)
        + DirectInvokerBinds(script)
    decreases |script|
  {
    if script != [] {
      var prefix := script[..|script| - 1];
      RunBindsInvokerWithFlag(init, prefix);
      StepBindsInvokerWithFlag(Run(init, prefix).state, script[|script| - 1]);
    }
  }

  /** A configure() that completes binds the Invoker key once (to the custom
      invoker if one was registered, to DefaultInvoker otherwise) plus once
      for every direct bind of it in configureResources(); so exactly once
      when the script does not bind the key itself, and more than once
      (an injector creation error in Guice) when it does. */
  lemma InvokerBoundExactlyOnce(prior: seq<BindingRecord>, script: seq<Command>)
    requires Run(Initial(prior), script).error.None?
    ensures var s := Run(Initial(prior), script).state;
      InvokerBindings(s.log + Finals(s)) == InvokerBindings(prior) + 1 + DirectInvokerBinds(script)
  {
    var init := Initial(prior);
    var s := Run(init, script).state;
    RunBindsInvokerWithFlag(init, script);
    InvokerBindingsSnoc(prior, NewSetBinder(ResourceProvidersSet));
    InvokerBindingsSnoc(prior + [NewSetBinder(ResourceProvidersSet)], NewSetBinder(ProvidersSet));
    assert init.log == prior + [NewSetBinder(ResourceProvidersSet)] + [NewSetBinder(ProvidersSet)];
    var a := ToInstance(ServerConfigurationKey, s.address, s.staticResourceResolution);
    var b := ToProvider(FactoryBeanKey, FactoryBeanProviderKey, true);
    InvokerBindingsSnoc(s.log, a);
    InvokerBindingsSnoc(s.log + [a], b);
    if s.customInvoker {
      assert s.log + Finals(s) == s.log + [a] + [b];
    } else {
      InvokerBindingsSnoc(s.log + [a] + [b], LinkedTo(InvokerKey, DefaultInvokerKey));
      assert s.log + Finals(s) == s.log + [a] + [b] + [LinkedTo(InvokerKey, DefaultInvokerKey)];
    }
  }

  /** After an invokeVia statement, either configureResources() has thrown
      or the custom-invoker flag is raised. */
  lemma {:induction false} InvokeViaRaisesFlag(init: DslState, script: seq<Command>, i: nat)
    requires i < |script| && script[i].InvokeVia?
    ensures Run(init, script).error.Some? || Run(init, script).state.customInvoker
    decreases |script|
  {
    var prefix := script[..|script| - 1];
    if i < |script| - 1 {
      assert prefix[i] == script[i];
      InvokeViaRaisesFlag(init, prefix, i);
    }
  }

  predicate HasInvokeVia(script: seq<Command>)
  {
    exists i :: 0 <= i < |script| && script[i].InvokeVia?
  }

  /** In a configureResources() that completes, started with the flag down,
      the custom-invoker flag ends up raised exactly when the script holds an
      invokeVia statement. */
  lemma {:induction false} FlagIffInvokeVia(init: DslState, script: seq<Command>)
    requires !init.customInvoker && Run(init, script).error.None?
    ensures Run(init, script).state.customInvoker <==> HasInvokeVia(script)
    decreases |script|
  {
    if script != [] {
      var prefix := script[..|script| - 1];
      FlagIffInvokeVia(init, prefix);
      if Run(init, prefix).state.customInvoker {
        var i :| 0 <= i < |prefix| && prefix[i].InvokeVia?;
        assert script[i] == prefix[i];
      } else if !script[|script| - 1].InvokeVia? {
        forall i | 0 <= i < |script|
          ensures !script[i].InvokeVia?
        {
          if i < |prefix| {
            assert script[i] == prefix[i];
          }
        }
      }
    }
  }

  /** A configure() that completes binds the Invoker key to DefaultInvoker
      exactly when configureResources() has no invokeVia statement. */
  lemma DefaultInvokerIffNoInvokeVia(prior: seq<BindingRecord>, script: seq<Command>)
    requires Run(Initial(prior), script).error.None?
    ensures var s := Run(Initial(prior), script).state;
      LinkedTo(InvokerKey, DefaultInvokerKey) in Finals(s) <==> !HasInvokeVia(script)
  {
    var s := Run(Initial(prior), script).state;
    FlagIffInvokeVia(Initial(prior), script);
    assert LinkedTo(InvokerKey, DefaultInvokerKey) in Finals(s) <==> !s.customInvoker;
  }

  /** invokeVia can be used once: a configureResources() with two invokeVia
      statements ends in an exception that nothing in the script catches. */
  lemma InvokeViaOnlyOnce(init: DslState, script: seq<Command>, i: nat, j: nat)
    requires i < j < |script| && script[i].InvokeVia? && script[j].InvokeVia?
    ensures Run(init, script).error.Some?
  {
    var upToJ := script[..j + 1];
    assert upToJ[..j] == script[..j];
    assert script[..j][i] == script[i];
    InvokeViaRaisesFlag(init, script[..j], i);
    RunStaysFailed(init, script, j + 1);
  }

  /** The address of the last serve().atAddress statement, or `d` if there is none. */
  function LastAddress(d: string, script: seq<Command>): string
    decreases |script|
  {
    if script == [] then d
    else if script[|script| - 1].AtAddress? then script[|script| - 1].address
    else LastAddress(d, script[..|script| - 1])
  }

  /** A configureResources() that completes leaves the address of its last
      atAddress statement, or the initial one ("/" in configure()). */
  lemma {:induction false} AddressIsLastServed(init: DslState, script: seq<Command>)
    requires Run(init, script).error.None?
    ensures Run(init, script).state.address == LastAddress(init.address, script)
    decreases |script|
  {
    if script != [] {
      AddressIsLastServed(init, script[..|script| - 1]);
    }
  }

  /** ServerConfig: the server configuration and its builder. */
  class ServerConfig {
    var address: string
    var staticResourceResolution: bool

    constructor ()
      ensures address == "/" && !staticResourceResolution
    {
      address := "/";
      staticResourceResolution := false;
    }

    method AtAddress(address: string) returns (self: ServerConfig)
      modifies this
      ensures this.address == address && staticResourceResolution == old(staticResourceResolution)
      ensures self == this
    {
      this.address := address;
      self := this;
    }

    method WithStaticResourceResolution() returns (self: ServerConfig)
      modifies this
      ensures staticResourceResolution && address == old(address)
      ensures self == this
    {
      staticResourceResolution := true;
      self := this;
    }
  }

  /** A CXFModule subclass: `script` is its configureResources(), and
      `bindings` is what it has handed to the binder so far. */
  class CXFModule {
    var config: ServerConfig?
    var customInvoker: bool
    var providers: Option<SetBinder>
    var resourceProviders: Option<SetBinder>
    var bindings: seq<BindingRecord>
    const script: seq<Command>

    constructor (script: seq<Command>)
      ensures this.script == script && bindings == []
      ensures config == null && !customInvoker && providers.None? && resourceProviders.None?
    {
      this.script := script;
      bindings := [];
      config := null;
      customInvoker := false;
      providers := None;
      resourceProviders := None;
    }

    /** Whether configure() is running: any of the DSL fields is set. */
    predicate Configuring()
      reads this
    {
      resourceProviders.Some? || providers.Some? || config != null
    }

    /** The DSL state, while configure() runs. */
    function State(): DslState
      reads this, config
      requires config != null
    {
      DslState(config.address, config.staticResourceResolution, customInvoker, bindings)
    }

    /** The re-entry checks at the start of configure(). */
    method CheckNotConfiguring() returns (r: Option<Exception>)
      ensures r.None? <==> !Configuring()
      ensures r.Some? ==> r.value == IllegalState(ReentryMessage)
    {
      if resourceProviders.Some? || providers.Some? || config != null {
        return Some(IllegalState(ReentryMessage));
      }
      return None;
    }

    /** serve(): the configuration builder, null outside configure(). */
    method Serve() returns (r: ServerConfig?)
      ensures r == config
    {
      r := config;
    }

    /** invokeVia(key): refused once a custom invoker has been registered;
        otherwise raises the flag and links the Invoker key to `key`. A null
        key makes the link throw a NullPointerException after the flag is up. */
    method InvokeVia(k: Option<Key>) returns (r: Option<Exception>)
      modifies this
      ensures old(customInvoker) ==> r == Some(IllegalState(CustomInvokerTwiceMessage)) && bindings == old(bindings)
      ensures !old(customInvoker) && k.None? ==> r == Some(NullPointer) && bindings == old(bindings)
      ensures !old(customInvoker) && k.Some? ==> r.None? && bindings == old(bindings) + [LinkedTo(InvokerKey, k.value)]
      ensures customInvoker
      ensures config == old(config) && providers == old(providers) && resourceProviders == old(resourceProviders)
    {
      if customInvoker {
        return Some(IllegalState(CustomInvokerTwiceMessage));
      }
      customInvoker := true;
      if k.None? {
        return Some(NullPointer);
      }
      bindings := bindings + [LinkedTo(InvokerKey, k.value)];
      r := None;
    }

    /** publish(key): adds GuicePerRequestResourceProvider<type of key>, in
        Singleton, to the resource provider set; a null key, or a call outside
        configure(), throws NullPointerException. */
    method Publish(k: Option<Key>) returns (r: Option<Exception>)
      modifies this
      ensures k.None? || resourceProviders.None? ==> r == Some(NullPointer) && bindings == old(bindings)
      ensures k.Some? && resourceProviders.Some? ==>
        r.None? && bindings == old(bindings) + [AddToSet(resourceProviders.value, PerRequestProviderKey(k.value), true)]
      ensures config == old(config) && customInvoker == old(customInvoker)
      ensures providers == old(providers) && resourceProviders == old(resourceProviders)
    {
      if k.None? || resourceProviders.None? {
        return Some(NullPointer);
      }
      bindings := bindings + [AddToSet(resourceProviders.value, PerRequestProviderKey(k.value), true)];
      r := None;
    }

    /** doBind(key): adds `key` to the JAX-RS provider set; a null key, or a
        call outside configure(), throws NullPointerException. */
    method DoBind(k: Option<Key>) returns (r: Option<Exception>)
      modifies this
      ensures k.None? || providers.None? ==> r == Some(NullPointer) && bindings == old(bindings)
      ensures k.Some? && providers.Some? ==> r.None? && bindings == old(bindings) + [AddToSet(providers.value, k.value, false)]
      ensures config == old(config) && customInvoker == old(customInvoker)
      ensures providers == old(providers) && resourceProviders == old(resourceProviders)
    {
      if k.None? || providers.None? {
        return Some(NullPointer);
      }
      bindings := bindings + [AddToSet(providers.value, k.value, false)];
      r := None;
    }

    /** handleRequest, handleResponse, mapExceptions, provide, readBody,
        writeAndReadBody and writeBody: all doBind(key), whatever the role. */
    method Register(role: ProviderRole, k: Option<Key>) returns (r: Option<Exception>)
      modifies this
      ensures k.None? || providers.None? ==> r == Some(NullPointer) && bindings == old(bindings)
      ensures k.Some? && providers.Some? ==> r.None? && bindings == old(bindings) + [AddToSet(providers.value, k.value, false)]
      ensures config == old(config) && customInvoker == old(customInvoker)
      ensures providers == old(providers) && resourceProviders == old(resourceProviders)
    {
      r := DoBind(k);
    }

    /** One statement of configureResources(), run against the module. */
    method Execute(c: Command) returns (r: Option<Exception>)
      requires config != null && providers == Some(ProvidersSet) && resourceProviders == Some(ResourceProvidersSet)
      modifies this, config
      ensures config == old(config) && providers == old(providers) && resourceProviders == old(resourceProviders)
      ensures State() == Step(old(State()), c).state && r == Step(old(State()), c).error
    {
      match c
      case AtAddress(a) =>
        var builder := Serve();
        builder := builder.AtAddress(a);
        r := None;
      case WithStaticResourceResolution =>
        var builder := Serve();
        builder := builder.WithStaticResourceResolution();
        r := None;
      case InvokeVia(k) =>
        r := InvokeVia(k);
      case Publish(k) =>
        r := Publish(k);
      case Register(role, k) =>
        r := Register(role, k);
      case Bind(k, t) =>
        bindings := bindings + [LinkedTo(k, t)];
        r := None;
      case Reconfigure =>
        r := CheckNotConfiguring();
      case Fail(e) =>
        r := Some(e);
    }

    /** configure(): refused, with nothing changed, while configure() is
        already running; otherwise runs configureResources() against fresh
        set binders and a fresh configuration, adds the final bindings if it
        completed, and in every case closes the DSL. */
    method Configure() returns (r: Option<Exception>)
      modifies this
      ensures old(Configuring()) ==>
        && r == Some(IllegalState(ReentryMessage))
        && bindings == old(bindings) && customInvoker == old(customInvoker)
        && config == old(config) && providers == old(providers) && resourceProviders == old(resourceProviders)
      ensures !old(Configuring()) ==>
        var run := Run(Initial(old(bindings)), script);
        && r == run.error
        && bindings == run.state.log + (if run.error.None? then Finals(run.state) else [])
        && customInvoker == run.state.customInvoker
        && config == null && providers.None? && resourceProviders.None?
    {
      r := CheckNotConfiguring();
      if r.Some? {
        return;
      }
      ghost var init := Initial(bindings);
      var c := Open();
      assert State() == init;

      var i := 0;
      while i < |script| && r.None?
        invariant 0 <= i <= |script|
        invariant config == c && providers == Some(ProvidersSet) && resourceProviders == Some(ResourceProvidersSet)
        invariant r.None? ==> Run(init, script[..i]) == RunResult(State(), None)
        invariant r.Some? ==> 0 < i && Run(init, script[..i]) == RunResult(State(), r)
      {
        assert script[..i + 1][..i] == script[..i];
        r := Execute(script[i]);
        i := i + 1;
      }
      if r.Some? {
        RunStaysFailed(init, script, i);
      } else {
        assert script[..i] == script;
        BindFinals();
      }
      resourceProviders := None;
      providers := None;
      config := null;
    }

    /** The start of configure(): the two set binders, a fresh configuration
        and a lowered custom-invoker flag. */
    method Open() returns (c: ServerConfig)
      modifies this
      ensures fresh(c) && config == c
      ensures providers == Some(ProvidersSet) && resourceProviders == Some(ResourceProvidersSet)
      ensures State() == Initial(old(bindings))
    {
      bindings := bindings + [NewSetBinder(ResourceProvidersSet)];
      resourceProviders := Some(ResourceProvidersSet);
      bindings := bindings + [NewSetBinder(ProvidersSet)];
      providers := Some(ProvidersSet);
      c := new ServerConfig();
      config := c;
      customInvoker := false;
    }

    /** The bindings configure() makes once configureResources() has returned. */
    method BindFinals()
      requires config != null
      modifies this
      ensures config == old(config) && providers == old(providers) && resourceProviders == old(resourceProviders)
      ensures customInvoker == old(customInvoker)
      ensures bindings == old(bindings) + Finals(old(State()))
    {
      bindings := bindings + [ToInstance(ServerConfigurationKey, config.address, config.staticResourceResolution)];
      bindings := bindings + [ToProvider(FactoryBeanKey, FactoryBeanProviderKey, true)];
      if !customInvoker {
        bindings := bindings + [LinkedTo(InvokerKey, DefaultInvokerKey)];
      }
    }
  }

  /** The invokers the module distinguishes: the DefaultInvoker marker and
      any other Invoker. */
  datatype InvokerObject = DefaultInvokerObject | OtherInvoker(className: string)

  /** DefaultInvoker.invoke: a marker, never meant to run. */
  function DefaultInvoke(exchange: nat, input: Option<Instance>): (r: Outcome<Option<Instance>>)
    ensures r == Throw(UnsupportedOperation)
  {
    Throw(UnsupportedOperation)
  }

  /** DefaultInvoker.isDefault: whether an invoker is the marker. */
  function IsDefault(invoker: InvokerObject): (r: bool)
    ensures r <==> invoker == DefaultInvokerObject
  {
    invoker.DefaultInvokerObject?
  }
}
