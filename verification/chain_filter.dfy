/** The first thing GuiceInterceptorWrapper.handleMessage does: take every
    ServiceInvokerInterceptor out of the message's interceptor chain, since
    the wrapper runs the service invocation itself. */
module ChainFilter {
  import opened Cxf

  /** The chain with every ServiceInvokerInterceptor taken out. */
  function WithoutServiceInvokers(s: seq<Interceptor>): (r: seq<Interceptor>)
    ensures |r| <= |s|
    ensures forall x :: x in r <==> x in s && !x.ServiceInvokerInterceptor?
  {
    if s == [] then []
    else (if s[0].ServiceInvokerInterceptor? then [] else [s[0]]) + WithoutServiceInvokers(s[1..])
  }

  /** r keeps some of the elements of s, in the order they have in s. */
  predicate IsSubsequence(r: seq<Interceptor>, s: seq<Interceptor>)
  {
    if r == [] then true
    else if s == [] then false
    else if r[0] == s[0] then IsSubsequence(r[1..], s[1..])
    else IsSubsequence(r, s[1..])
  }

  lemma {:induction false} WithoutServiceInvokersAppend(a: seq<Interceptor>, b: seq<Interceptor>)
    ensures WithoutServiceInvokers(a + b) == WithoutServiceInvokers(a) + WithoutServiceInvokers(b)
  {
    if a == [] {
      assert a + b == b;
    } else {
      var rest := a[1..];
      WithoutServiceInvokersAppend(rest, b);
      ConsAppend(a, b);
      var head := if a[0].ServiceInvokerInterceptor? then [] else [a[0]];
      var x, y := WithoutServiceInvokers(rest), WithoutServiceInvokers(b);
      assert head + (x + y) == (head + x) + y;
    }
  }

  lemma ConsAppend(a: seq<Interceptor>, b: seq<Interceptor>)
    requires a != []
    ensures (a + b)[0] == a[0] && (a + b)[1..] == a[1..] + b
  {
  }

  /** The filter keeps the interceptors it keeps in their original order. */
  lemma {:induction false} WithoutServiceInvokersKeepsOrder(s: seq<Interceptor>)
    ensures IsSubsequence(WithoutServiceInvokers(s), s)
  {
    if s != [] {
      WithoutServiceInvokersKeepsOrder(s[1..]);
      var rest := WithoutServiceInvokers(s[1..]);
      if !s[0].ServiceInvokerInterceptor? {
        assert WithoutServiceInvokers(s) == [s[0]] + rest;
        assert ([s[0]] + rest)[1..] == rest;
      } else {
        assert WithoutServiceInvokers(s) == [] + rest == rest;
        if rest != [] {
          // the head of rest is kept, so it is not the removed s[0]
          assert rest[0] in rest;
        }
      }
    }
  }

  /** Every interceptor other than a ServiceInvokerInterceptor stays as many
      times as it was there; no ServiceInvokerInterceptor stays. */
  lemma {:induction false} WithoutServiceInvokersCounts(s: seq<Interceptor>, x: Interceptor)
    ensures multiset(WithoutServiceInvokers(s))[x] ==
      if x.ServiceInvokerInterceptor? then 0 else multiset(s)[x]
  {
    if s != [] {
      WithoutServiceInvokersCounts(s[1..], x);
      assert s == [s[0]] + s[1..];
    }
  }

  /** Filtering a filtered chain changes nothing. */
  lemma {:induction false} WithoutServiceInvokersIdempotent(s: seq<Interceptor>)
    ensures WithoutServiceInvokers(WithoutServiceInvokers(s)) == WithoutServiceInvokers(s)
  {
    if s != [] {
      WithoutServiceInvokersIdempotent(s[1..]);
      var head := if s[0].ServiceInvokerInterceptor? then [] else [s[0]];
      WithoutServiceInvokersAppend(head, WithoutServiceInvokers(s[1..]));
      if head != [] {
        assert head[1..] == [];
      }
    }
  }

  /** One step of the removal loop on a ServiceInvokerInterceptor: removing
      s[i] moves the boundary between the filtered and the unvisited part of
      the chain one element on. */
  lemma RemovalStepRemoves(s: seq<Interceptor>, i: nat)
    requires i < |s| && s[i].ServiceInvokerInterceptor?
    ensures RemoveFirst(WithoutServiceInvokers(s[..i]) + s[i..], s[i])
      == WithoutServiceInvokers(s[..i + 1]) + s[i + 1..]
  {
    SplitAt(s, i);
    FilterStep(s[..i], s[i], s[i + 1..]);
  }

  /** One step of the removal loop on any other interceptor: keeping s[i]
      moves the same boundary one element on. */
  lemma RemovalStepKeeps(s: seq<Interceptor>, i: nat)
    requires i < |s| && !s[i].ServiceInvokerInterceptor?
    ensures WithoutServiceInvokers(s[..i]) + s[i..] == WithoutServiceInvokers(s[..i + 1]) + s[i + 1..]
  {
    SplitAt(s, i);
    FilterStep(s[..i], s[i], s[i + 1..]);
  }

  lemma SplitAt(s: seq<Interceptor>, i: nat)
    requires i < |s|
    ensures s[..i + 1] == s[..i] + [s[i]]
    ensures s[i..] == [s[i]] + s[i + 1..]
  {
    assert s[i..][1..] == s[i + 1..];
  }

  /** The removal loop's step on abstract parts: a filtered prefix p, the
      interceptor x visited next and the unvisited rest. */
  lemma FilterStep(p: seq<Interceptor>, x: Interceptor, rest: seq<Interceptor>)
    ensures x.ServiceInvokerInterceptor? ==>
      RemoveFirst(WithoutServiceInvokers(p) + ([x] + rest), x) == WithoutServiceInvokers(p + [x]) + rest
    ensures !x.ServiceInvokerInterceptor? ==>
      WithoutServiceInvokers(p) + ([x] + rest) == WithoutServiceInvokers(p + [x]) + rest
  {
    var done := WithoutServiceInvokers(p);
    WithoutServiceInvokersSnoc(p, x);
    if x.ServiceInvokerInterceptor? {
      RemoveFirstAfterPrefix(done, x, rest);
      assert done + [] == done;
    } else {
      assert done + ([x] + rest) == (done + [x]) + rest;
    }
  }

  /** Filtering a chain extended by one interceptor. */
  lemma WithoutServiceInvokersSnoc(p: seq<Interceptor>, x: Interceptor)
    ensures WithoutServiceInvokers(p + [x]) ==
      WithoutServiceInvokers(p) + if x.ServiceInvokerInterceptor? then [] else [x]
  {
    WithoutServiceInvokersAppend(p, [x]);
    assert [x][1..] == [];
  }

  /** Removing x from a chain whose prefix p does not hold it removes the x
      right after p. */
  lemma {:induction false} RemoveFirstAfterPrefix(p: seq<Interceptor>, x: Interceptor, rest: seq<Interceptor>)
    requires x !in p
    ensures RemoveFirst(p + ([x] + rest), x) == p + rest
  {
    if p == [] {
      assert p + ([x] + rest) == [x] + rest;
    } else {
      assert (p + ([x] + rest))[0] == p[0];
      assert (p + ([x] + rest))[1..] == p[1..] + ([x] + rest);
      RemoveFirstAfterPrefix(p[1..], x, rest);
    }
  }

  /** The loop at the head of handleMessage: walks the chain and removes
      every ServiceInvokerInterceptor from it in place. */
  method RemoveServiceInvokers(chain: InterceptorChain)
    modifies chain
    ensures chain.interceptors == WithoutServiceInvokers(old(chain.interceptors))
  {
    var snapshot := chain.interceptors;
    var i := 0;
    while i < |snapshot|
      invariant 0 <= i <= |snapshot|
      invariant chain.interceptors == WithoutServiceInvokers(snapshot[..i]) + snapshot[i..]
    {
      var next := snapshot[i];
      if next.ServiceInvokerInterceptor? {
        RemovalStepRemoves(snapshot, i);
        chain.Remove(next);
      } else {
        RemovalStepKeeps(snapshot, i);
      }
      i := i + 1;
    }
    assert snapshot[..|snapshot|] == snapshot;
  }
}
