/** Callers of the cache: the situations the utility's test suite sets up, each run
    on a fresh cache and stated through what the callers get back. */
module CacheScenarios {
  import opened Wrappers
  import opened JsValue
  import opened CacheArgs
  import opened SingleFlight

  /** `await cache(...args)` when nothing else is in flight, where the computation,
      if it is invoked, settles with `fnOutcome` before anything else happens. */
  method Await<V, E>(c: Cache<V, E>, args: seq<Val>, fnOutcome: Outcome<V, E>) returns (r: Result<Outcome<V, E>, ArgError>)
    requires c.Valid() && c.inFlight == map[]
    modifies c
    ensures c.Valid() && c.inFlight == map[]
    ensures ParseArgs(args).Err? ==> r == Err(ParseArgs(args).error) && c.State() == old(c.State())
    ensures ParseArgs(args).Ok? ==>
      var call := ParseArgs(args).value;
      var hit := !call.bypass && call.ns in old(c.stored);
      && r == Ok(if hit then Resolved(old(c.stored)[call.ns]) else fnOutcome)
      && c.stored == (if hit || call.bypass || fnOutcome.Rejected? then old(c.stored)
                      else old(c.stored)[call.ns := fnOutcome.value])
      && c.computeCount == (if hit then old(c.computeCount)
                            else old(c.computeCount)[call.ns := Count(old(c.computeCount), call.ns) + 1])
  {
    var reply := c.Call(args);
    match reply
    case Err(e) =>
      r := Err(e);
    case Ok(FromCache(h, v)) =>
      r := Ok(Resolved(v));
    case Ok(Started(h)) =>
      var released := c.Settle(ParseArgs(args).value.ns, fnOutcome);
      assert h in released;
      r := Ok(c.settled[h]);
    case Ok(Bypassed(h)) =>
      c.SettleBypass(h, fnOutcome);
      r := Ok(fnOutcome);
    case Ok(Joined(h)) =>
      // Cannot happen: a call joins only a computation in flight, and the
      // precondition says there is none. The assignment only completes the match.
      assert false;
      r := Err(BadFn);
  }

  /** Calls with a bad namespace or a missing function throw the `TypeError`s and
      leave the cache as it was. */
  method RejectsBadArguments() returns (r1: ArgError, r2: ArgError, r3: ArgError, r4: ArgError, emptyAfter: bool)
    ensures r1 == BadNamespace && r2 == BadNamespace && r3 == BadFn && r4 == BadFn
    ensures emptyAfter
  {
    CacheArgs.RejectsBadArguments();
    var c := new Cache<Val, Val>();
    var a := c.Call([]);
    var b := c.Call([Num(123)]);
    var d := c.Call([Str("foo"), Str("bar")]);
    var e := c.Call([Str("foo"), Bool(true), Str("bar")]);
    r1, r2, r3, r4 := a.error, b.error, d.error, e.error;
    emptyAfter := c.stored == map[] && c.inFlight == map[] && c.settled == map[];
  }

  /** The first `cache('foo', () => obj)` resolves to `obj`. */
  method CachesValue(obj: Val) returns (r: Outcome<Val, Val>)
    ensures r == Resolved(obj)
  {
    var c := new Cache<Val, Val>();
    var a := Await(c, [Str("foo"), Fn(0)], Resolved(obj));
    r := a.value;
  }

  /** A second `cache('foo', () => obj2)` resolves to the stored `obj`; `obj2`'s
      computation is never invoked. */
  method PullsFromCache(obj: Val, obj2: Val) returns (r1: Outcome<Val, Val>, r2: Outcome<Val, Val>, ghost count: nat)
    ensures r1 == Resolved(obj) && r2 == Resolved(obj)
    ensures count == 1
  {
    var c := new Cache<Val, Val>();
    var a := Await(c, [Str("foo"), Fn(0)], Resolved(obj));
    var b := Await(c, [Str("foo"), Fn(1)], Resolved(obj2));
    r1, r2 := a.value, b.value;
    count := Count(c.computeCount, "foo");
  }

  /** `cache('foo', true, () => obj2)` resolves to `obj2` although `obj` is stored,
      and leaves `obj` stored. */
  method BypassesCache(obj: Val, obj2: Val) returns (r1: Outcome<Val, Val>, r2: Outcome<Val, Val>, after: Option<Val>)
    ensures r1 == Resolved(obj) && r2 == Resolved(obj2)
    ensures after == Some(obj)
  {
    var c := new Cache<Val, Val>();
    var a := Await(c, [Str("foo"), Fn(0)], Resolved(obj));
    var b := Await(c, [Str("foo"), Bool(true), Fn(1)], Resolved(obj2));
    r1, r2 := a.value, b.value;
    after := if "foo" in c.stored then Some(c.stored["foo"]) else None;
  }

  /** `n` calls for one namespace made before its computation settles invoke the
      computation once, and all `n` resolve to its value. */
  method QueuesUpCalls(n: nat, obj: Val) returns (ghost count: nat, rs: seq<Outcome<Val, Val>>)
    requires n > 0
    ensures count == 1
    ensures |rs| == n && forall i :: 0 <= i < n ==> rs[i] == Resolved(obj)
  {
    var c := new Cache<Val, Val>();
    ghost var st0 := c.State();
    var hs: seq<Handle> := [];
    var i := 0;
    ParsesPlainCall("foo", 0);
    while i < n
      invariant 0 <= i <= n
      invariant c.Valid()
      invariant (c.State(), hs) == RequestMany(st0, "foo", i)
    {
      var r := c.Call([Str("foo"), Fn(0)]);
      hs := hs + [r.value.h];
      i := i + 1;
    }
    CoalescedCallsShareOutcome(st0, "foo", n, Resolved(obj));
    var released := c.Settle("foo", Resolved(obj));
    count := Count(c.computeCount, "foo");
    rs := [];
    while |rs| < n
      invariant |rs| <= n
      invariant forall j :: 0 <= j < |rs| ==> rs[j] == Resolved(obj)
    {
      rs := rs + [c.settled[hs[|rs|]]];
    }
  }

  /** A computation that throws rejects the call with that error and stores nothing. */
  method CatchesErrors(err: Val) returns (r: Outcome<Val, Val>, storedAfter: bool)
    ensures r == Rejected(err)
    ensures !storedAfter
  {
    var c := new Cache<Val, Val>();
    var a := Await(c, [Str("foo"), Fn(0)], Rejected(err));
    r := a.value;
    storedAfter := "foo" in c.stored;
  }

  /** After a failure the namespace is not poisoned: the next call runs its own
      computation and gets its value. */
  method RetriesAfterFailure(err: Val, obj: Val) returns (r1: Outcome<Val, Val>, r2: Outcome<Val, Val>, ghost count: nat)
    ensures r1 == Rejected(err) && r2 == Resolved(obj)
    ensures count == 2
  {
    var c := new Cache<Val, Val>();
    var a := Await(c, [Str("foo"), Fn(0)], Rejected(err));
    var b := Await(c, [Str("foo"), Fn(1)], Resolved(obj));
    r1, r2 := a.value, b.value;
    count := Count(c.computeCount, "foo");
  }

  /** After `clearCache('foo')`, `cache('foo', () => obj2)` runs and resolves to `obj2`. */
  method ClearsNamespace(obj: Val, obj2: Val) returns (r1: Outcome<Val, Val>, r2: Outcome<Val, Val>)
    ensures r1 == Resolved(obj) && r2 == Resolved(obj2)
  {
    var c := new Cache<Val, Val>();
    var a := Await(c, [Str("foo"), Fn(0)], Resolved(obj));
    c.Clear(Some("foo"));
    var b := Await(c, [Str("foo"), Fn(1)], Resolved(obj2));
    r1, r2 := a.value, b.value;
  }

  /** `clearCache('foo')` leaves the other namespaces' values in place. */
  method ClearKeepsOtherNamespaces(obj: Val, obj2: Val) returns (r: Outcome<Val, Val>)
    ensures r == Resolved(obj)
  {
    var c := new Cache<Val, Val>();
    var a := Await(c, [Str("bar"), Fn(0)], Resolved(obj));
    c.Clear(Some("foo"));
    var b := Await(c, [Str("bar"), Fn(1)], Resolved(obj2));
    r := b.value;
  }

  /** `cache('foo', () => obj)` and `cache('bar', () => obj)` issued together on an
      empty cache: each starts its own computation. */
  method IssueBoth(c: Cache<Val, Val>) returns (foo: Reply<Val>, bar: Reply<Val>)
    requires c.Valid() && c.State() == Empty()
    modifies c
    ensures c.Valid()
    ensures foo == Started(0) && bar == Started(1)
    ensures c.inFlight == map["foo" := [0], "bar" := [1]] && c.settled == map[]
  {
    ParsesPlainCall("foo", 0);
    ParsesPlainCall("bar", 1);
    var a := c.Call([Str("foo"), Fn(0)]);
    var b := c.Call([Str("bar"), Fn(1)]);
    foo, bar := a.value, b.value;
  }

  /** Both issued, then both computations settle with `obj`. */
  method BothComputed(c: Cache<Val, Val>, obj: Val) returns (r1: Outcome<Val, Val>, r2: Outcome<Val, Val>)
    requires c.Valid() && c.State() == Empty()
    modifies c
    ensures c.Valid() && c.inFlight == map[]
    ensures r1 == Resolved(obj) && r2 == Resolved(obj)
  {
    var foo, bar := IssueBoth(c);
    var fooWaiters := c.Settle("foo", Resolved(obj));
    assert foo.h in fooWaiters;
    r1 := c.settled[foo.h];
    var barWaiters := c.Settle("bar", Resolved(obj));
    assert bar.h in barWaiters;
    r2 := c.settled[bar.h];
    assert c.inFlight == map[];
  }

  /** `foo` and `bar` computed side by side, then `clearCache()`, then both again:
      each second round runs its new computation and resolves to `obj2`. */
  method ClearsAllNamespaces(obj: Val, obj2: Val) returns (rs: seq<Outcome<Val, Val>>)
    ensures rs == [Resolved(obj), Resolved(obj), Resolved(obj2), Resolved(obj2)]
  {
    var c := new Cache<Val, Val>();
    var r1, r2 := BothComputed(c, obj);
    c.Clear(None);
    ParsesPlainCall("foo", 2);
    ParsesPlainCall("bar", 3);
    var foo2 := Await(c, [Str("foo"), Fn(2)], Resolved(obj2));
    var bar2 := Await(c, [Str("bar"), Fn(3)], Resolved(obj2));
    rs := [r1, r2, foo2.value, bar2.value];
  }

  /** `cache('foo', () => obj)`, `cache('foo', true, () => obj2)` and
      `cache('foo', () => obj)` issued together on an empty cache. */
  method IssueBesideBypass(c: Cache<Val, Val>) returns (first: Reply<Val>, bypass: Reply<Val>, joiner: Reply<Val>)
    requires c.Valid() && c.State() == Empty()
    modifies c
    ensures c.Valid()
    ensures first == Started(0) && bypass == Bypassed(1) && joiner == Joined(2)
    ensures c.inFlight == map["foo" := [0, 2]] && c.bypassing == {1} && c.settled == map[]
    ensures Count(c.computeCount, "foo") == 2
  {
    ParsesPlainCall("foo", 0);
    ParsesBypassCall("foo", 1);
    ParsesPlainCall("foo", 2);
    var a := c.Call([Str("foo"), Fn(0)]);
    var b := c.Call([Str("foo"), Bool(true), Fn(1)]);
    var d := c.Call([Str("foo"), Fn(2)]);
    assert [0] + [2] == [0, 2];
    first, bypass, joiner := a.value, b.value, d.value;
  }

  /** A bypassing call made while a computation is in flight neither joins it nor
      changes how the other callers coalesce: they still share one invocation. */
  method BypassBesideCoalescing(obj: Val, obj2: Val) returns (r1: Outcome<Val, Val>, r2: Outcome<Val, Val>, r3: Outcome<Val, Val>, ghost count: nat)
    ensures r1 == Resolved(obj) && r2 == Resolved(obj2) && r3 == Resolved(obj)
    ensures count == 2
  {
    var c := new Cache<Val, Val>();
    var a, b, d := IssueBesideBypass(c);
    c.SettleBypass(b.h, Resolved(obj2));
    var released := c.Settle("foo", Resolved(obj));
    assert a.h in released && d.h in released;
    r1, r2, r3 := c.settled[a.h], c.settled[b.h], c.settled[d.h];
    count := Count(c.computeCount, "foo");
  }
}
