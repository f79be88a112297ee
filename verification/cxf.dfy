/** The parts of the CXF runtime the scoping code consumes: messages with an
    attribute store, and the interceptor chain that processes a message. */
module Cxf {
  import opened JavaLang

  /** An element of an interceptor chain. `instanceof ServiceInvokerInterceptor`
      holds exactly of the ServiceInvokerInterceptor case (subclasses included). */
  datatype Interceptor =
    | ServiceInvokerInterceptor(id: nat)
    | OtherInterceptor(id: nat, className: string)

  /** The sequence without its first occurrence of x (the sequence itself if
      x does not occur). */
  function RemoveFirst(s: seq<Interceptor>, x: Interceptor): (r: seq<Interceptor>)
    ensures x !in s ==> r == s
    ensures x in s ==> |r| == |s| - 1
  {
    if s == [] then []
    else if s[0] == x then s[1..]
    else [s[0]] + RemoveFirst(s[1..], x)
  }

  /** org.apache.cxf.interceptor.InterceptorChain, as the list of its
      interceptors in order. */
  class InterceptorChain {
    var interceptors: seq<Interceptor>

    constructor (interceptors: seq<Interceptor>)
      ensures this.interceptors == interceptors
    {
      this.interceptors := interceptors;
    }

    /** InterceptorChain.remove(i): drops the first occurrence of i. */
    method Remove(i: Interceptor)
      modifies this
      ensures interceptors == RemoveFirst(old(interceptors), i)
    {
      interceptors := RemoveFirst(interceptors, i);
    }
  }

  /** org.apache.cxf.message.Message: a string-keyed attribute store (a key
      that is absent reads as null) and the chain processing the message. */
  class Message {
    var attrs: map<string, Ref>
    const chain: InterceptorChain

    constructor (attrs: map<string, Ref>, chain: InterceptorChain)
      ensures this.attrs == attrs && this.chain == chain
    {
      this.attrs := attrs;
      this.chain := chain;
    }
  }
}
