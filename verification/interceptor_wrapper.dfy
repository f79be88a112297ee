/** GuiceInterceptorWrapper: the CXF interceptor that binds the message being
    processed to the current thread while the service invocation runs, so
    that request-scoped lookups can find it. */
module InterceptorWrapper {
  import opened JavaLang
  import opened Cxf
  import opened Guice
  import opened ScopeCache
  import opened ChainFilter

  const TransferMessage := "Trying to transfer request scope but original scope is still active"
  const OutOfScopeMessage :=
    "Cannot access scoped object. Either we are not currently inside a request, or you may"
    + " have forgotten to apply com.google.code.inject.jaxrs.scope.GuiceInterceptorWrapper"
    + " as an interceptor for this request."
  /** Phase.INVOKE */
  const InvokePhase := "invoke"
  const ServiceInvokerClassName := "org.apache.cxf.interceptor.ServiceInvokerInterceptor"

  /** What a delegate observed when it ran: the message it was handed, the
      thread, the context bound on that thread and the owner of that context. */
  datatype Invocation = Invocation(
    message: Message, thread: ThreadId, bound: Option<RequestContext>, boundOwner: Option<ThreadId>)

  /** The Invocation a delegate running on thread t with `message` records. */
  function Observe(localContext: ThreadLocal<RequestContext>, t: ThreadId, message: Message): Invocation
    reads localContext, localContext.slots.Values
  {
    var bound := localContext.Get(t);
    Invocation(message, t, bound, if bound.Some? then bound.value.owner else None)
  }

  /** The PhaseInterceptor the wrapper delegates to (by default a
      ServiceInvokerInterceptor, which runs the service). Its code is outside
      the model except for what the scope sees of it: it records what it
      observed, performs request-scoped lookups of `names` (with `creator`
      behind them), and then ends with `outcome`, unless a lookup
      threw first. */
  class Delegate {
    var received: seq<Invocation>
    const names: seq<string>
    const creator: Creator
    const outcome: Outcome<()>
    const serviceInvoker: bool

    constructor (names: seq<string>, creator: Creator, outcome: Outcome<()>, serviceInvoker: bool)
      ensures received == [] && this.names == names && this.creator == creator
      ensures this.outcome == outcome && this.serviceInvoker == serviceInvoker
    {
      received := [];
      this.names := names;
      this.creator := creator;
      this.outcome := outcome;
      this.serviceInvoker := serviceInvoker;
    }

    /** handleMessage(message) on thread t. It is only ever run by
        Context.call, with a context bound on t, so each of its lookups is a
        get() against the attribute store of that context's original request. */
    method HandleMessage(localContext: ThreadLocal<RequestContext>, t: ThreadId, message: Message)
      returns (r: Outcome<()>)
      requires t in localContext.slots
      modifies this, creator, localContext.slots[t].originalRequest
      ensures received == old(received) + [old(Observe(localContext, t, message))]
      ensures var m := localContext.slots[t].originalRequest;
        var lookups := LookupAll(old(m.attrs), names, creator.produce, old(creator.calls));
        && m.attrs == lookups.store && creator.calls == lookups.calls
        && r == Finish(lookups, outcome)
    {
      received := received + [Observe(localContext, t, message)];
      var m := localContext.slots[t].originalRequest;
      var lookups := LookupAll(m.attrs, names, creator.produce, creator.calls);
      m.attrs := lookups.store;
      creator.calls := lookups.calls;
      r := Finish(lookups, outcome);
    }
  }

  /** The object a scoped lookup on thread t writes to while an HTTP request is bound. */
  function OriginalRequestOn(localContext: ThreadLocal<RequestContext>, t: ThreadId): set<object>
    reads localContext
  {
    if t in localContext.slots then {localContext.slots[t].originalRequest} else {}
  }

  /** GuiceInterceptorWrapper.Context: the request being processed on a
      thread, the original request it was inherited from, and the thread
      currently running code under it. */
  class RequestContext {
    const originalRequest: Message
    const request: Message
    var owner: Option<ThreadId>

    constructor (originalRequest: Message, request: Message)
      ensures this.originalRequest == originalRequest && this.request == request
      ensures owner == None
    {
      this.originalRequest := originalRequest;
      this.request := request;
      owner := None;
    }

    /** Context.call(callable) on thread t, for the one callable the wrapper
        passes it: `delegate.handleMessage(message)`. While the delegate runs
        this context is bound on t and owned by t, and its lookups cache into
        the original request, which keeps what they cached; on every exit the
        previous owner and the previous binding come back. A context still
        owned by another thread is refused before anything changes. */
    method Call(localContext: ThreadLocal<RequestContext>, t: ThreadId, delegate: Delegate, message: Message)
      returns (r: Outcome<()>)
      modifies this, localContext, delegate, delegate.creator, originalRequest
      ensures owner == old(owner)
      ensures localContext.slots == old(localContext.slots)
      ensures old(owner).Some? && old(owner) != Some(t) ==>
        && r == Throw(IllegalState(TransferMessage)) && delegate.received == old(delegate.received)
        && originalRequest.attrs == old(originalRequest.attrs)
        && delegate.creator.calls == old(delegate.creator.calls)
      ensures old(owner).None? || old(owner) == Some(t) ==>
        var lookups := LookupAll(old(originalRequest.attrs), delegate.names, delegate.creator.produce,
                                 old(delegate.creator.calls));
        && delegate.received == old(delegate.received) + [Invocation(message, t, Some(this), Some(t))]
        && originalRequest.attrs == lookups.store && delegate.creator.calls == lookups.calls
        && r == Finish(lookups, delegate.outcome)
    {
      var oldOwner := owner;
      if !(oldOwner.None? || oldOwner == Some(t)) {
        return Throw(IllegalState(TransferMessage));
      }
      owner := Some(t);
      var previous := localContext.Get(t);
      localContext.Set(t, Some(this));
      // the callable; `finally` below runs whether it returned or threw
      r := delegate.HandleMessage(localContext, t, message);
      owner := oldOwner;
      localContext.Set(t, previous);
    }
  }

  /** GuiceInterceptorWrapper.getContext(): the context bound on thread t,
      or OutOfScopeException when there is none. */
  method GetContext(localContext: ThreadLocal<RequestContext>, t: ThreadId)
    returns (r: Outcome<RequestContext>)
    ensures t !in localContext.slots ==> r == Throw(OutOfScope(OutOfScopeMessage))
    ensures t in localContext.slots ==> r == Return(localContext.slots[t])
  {
    var context := localContext.Get(t);
    if context.None? {
      return Throw(OutOfScope(OutOfScopeMessage));
    }
    return Return(context.value);
  }

  /** GuiceInterceptorWrapper.getOriginalRequest(): the original request of
      the context bound on thread t. */
  method GetOriginalRequest(localContext: ThreadLocal<RequestContext>, t: ThreadId)
    returns (r: Outcome<Message>)
    ensures t !in localContext.slots ==> r == Throw(OutOfScope(OutOfScopeMessage))
    ensures t in localContext.slots ==> r == Return(localContext.slots[t].originalRequest)
  {
    var context := GetContext(localContext, t);
    if context.Throw? {
      return Throw(context.error);
    }
    return Return(context.value.originalRequest);
  }

  /** The original request a new context gets: inherited from the context
      already bound on the thread, otherwise the incoming message itself. */
  function OriginalRequestFor(previous: Option<RequestContext>, request: Message): (r: Message)
    ensures previous.None? ==> r == request
    ensures previous.Some? ==> r == previous.value.originalRequest
  {
    if previous.Some? then previous.value.originalRequest else request
  }

  /** How handleMessage rethrows what its callable threw: a Fault unchanged,
      any other Exception wrapped in a new Fault whose cause it is. An Error
      is not an Exception, so neither catch clause sees it and it passes
      through unchanged. */
  function Rethrown(e: Exception): (r: Exception)
    ensures r.Fault? || r.JavaError?
    ensures e.Fault? || e.JavaError? ==> r == e
    ensures !e.Fault? && !e.JavaError? ==> r == Fault(Some(e))
  {
    if e.Fault? || e.JavaError? then e else Fault(Some(e))
  }

  /** The interceptor itself: placed in phase INVOKE, before the
      ServiceInvokerInterceptor, around its delegate. */
  class GuiceInterceptorWrapper {
    const phase: string
    const before: set<string>
    const delegate: Delegate

    /** GuiceInterceptorWrapper(): the delegate is a new
        ServiceInvokerInterceptor; how the service invocation ends is
        outside the model: the service performs the lookups of `names` and
        ends as `serviceOutcome` says. */
    constructor Default(names: seq<string>, creator: Creator, serviceOutcome: Outcome<()>)
      ensures phase == InvokePhase && before == {ServiceInvokerClassName}
      ensures fresh(delegate) && delegate.serviceInvoker && delegate.received == []
      ensures delegate.names == names && delegate.creator == creator && delegate.outcome == serviceOutcome
    {
      phase := InvokePhase;
      before := {ServiceInvokerClassName};
      delegate := new Delegate(names, creator, serviceOutcome, true);
    }

    /** GuiceInterceptorWrapper(delegate). */
    constructor (delegate: Delegate)
      ensures phase == InvokePhase && before == {ServiceInvokerClassName}
      ensures this.delegate == delegate
    {
      phase := InvokePhase;
      before := {ServiceInvokerClassName};
      this.delegate := delegate;
    }

    /** handleMessage(request) on thread t: strips the ServiceInvokerInterceptors
        from the request's chain, then runs the delegate exactly once under a
        fresh context whose request is the incoming message and whose original
        request is inherited from the context already bound, if any. The
        delegate's lookups cache into that original request, which keeps
        them; the thread's binding is as before afterwards; an Exception the
        delegate throws comes out as a Fault and an Error unchanged. */
    method HandleMessage(localContext: ThreadLocal<RequestContext>, t: ThreadId, request: Message)
      returns (r: Option<Exception>)
      modifies request.chain, localContext, delegate, delegate.creator
      modifies OriginalRequestFor(localContext.Get(t), request)
      ensures request.chain.interceptors == WithoutServiceInvokers(old(request.chain.interceptors))
      ensures localContext.slots == old(localContext.slots)
      ensures |delegate.received| == |old(delegate.received)| + 1
      ensures delegate.received[..|old(delegate.received)|] == old(delegate.received)
      ensures var seen := delegate.received[|old(delegate.received)|];
        && seen.message == request && seen.thread == t && seen.boundOwner == Some(t)
        && seen.bound.Some? && fresh(seen.bound.value)
        && seen.bound.value.request == request
        && seen.bound.value.originalRequest == OriginalRequestFor(old(localContext.Get(t)), request)
        && seen.bound.value.owner == None
      ensures var original := OriginalRequestFor(old(localContext.Get(t)), request);
        var lookups := LookupAll(old(original.attrs), delegate.names, delegate.creator.produce,
                                 old(delegate.creator.calls));
        && original.attrs == lookups.store && delegate.creator.calls == lookups.calls
        && r == (var ended := Finish(lookups, delegate.outcome);
                 if ended.Throw? then Some(Rethrown(ended.error)) else None)
    {
      RemoveServiceInvokers(request.chain);
      var previous := localContext.Get(t);
      var originalRequest := OriginalRequestFor(previous, request);
      var context := new RequestContext(originalRequest, request);
      var ended := context.Call(localContext, t, delegate, request);
      r := if ended.Throw? then Some(Rethrown(ended.error)) else None;
    }
  }
}
