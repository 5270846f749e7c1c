/** The namespaced single-flight cache behind `cache()` and `clearCache()`.

    JavaScript runs it on one cooperative thread, so it is a state machine whose
    steps are the table updates made between suspension points: a request, the
    settling of a shared computation, the settling of a bypassing call's own
    computation, and a clear. Every call gets a handle, standing for the promise it
    returned; `settled` records how each promise settled. The steps are defined
    here as functions on `CacheState`; the class `Cache` holds the same state in
    fields that its methods update in place, proved against these functions. */
module SingleFlight {
  import opened Wrappers
  import opened JsValue
  import opened CacheArgs

  /** The promise returned by one call. */
  type Handle = nat

  /** How a computation, and each promise waiting on it, settles. */
  datatype Outcome<V, E> = Resolved(value: V) | Rejected(error: E)

  /** What a valid request did. */
  datatype Reply<V> =
    | FromCache(h: Handle, value: V)  // resolved at once with the stored value; nothing invoked
    | Joined(h: Handle)               // waits on the computation already in flight
    | Started(h: Handle)              // invoked the computation and registered it in flight
    | Bypassed(h: Handle)             // invoked the computation for this call alone

  /** How often computations were invoked for `ns`. */
  function Count(counts: map<string, nat>, ns: string): nat
  {
    if ns in counts then counts[ns] else 0
  }

  datatype CacheState<V, E> = CacheState(
    stored: map<string, V>,             // namespace to its last successfully computed value
    inFlight: map<string, seq<Handle>>, // namespace to the promises waiting on its computation, starter first
    bypassing: set<Handle>,             // promises of bypassing calls whose computation has not settled
    settled: map<Handle, Outcome<V, E>>,// promises that have settled, and how
    next: Handle,                       // the handle the next call gets
    computeCount: map<string, nat>)     // how many times a caller's computation was invoked, per namespace

  function Empty<V, E>(): CacheState<V, E>
  {
    CacheState(map[], map[], {}, map[], 0, map[])
  }

  /** Every computation in flight has at least one waiter, every waiter is a
      handle below `next`, and none of them is in `done` (settled or bypassing). */
  ghost predicate AllPending(m: map<string, seq<Handle>>, next: Handle, done: set<Handle>)
  {
    && (forall ns :: ns in m ==> |m[ns]| > 0)
    && (forall ns, h {:trigger h in m[ns]} :: ns in m && h in m[ns] ==> h < next && h !in done)
  }

  /** No handle waits on two computations. */
  ghost predicate NoSharedWaiter(m: map<string, seq<Handle>>)
  {
    forall a, b, h {:trigger h in m[a], h in m[b]} :: a in m && b in m && h in m[a] && h in m[b] ==> a == b
  }

  ghost predicate Inv<V, E>(st: CacheState<V, E>)
  {
    // A namespace never has a stored value and a computation in flight at once.
    && st.stored.Keys !! st.inFlight.Keys
    // Every waiting promise was handed out, is still pending, is not a bypassing
    // call's, and waits on exactly one computation.
    && AllPending(st.inFlight, st.next, st.settled.Keys + st.bypassing)
    && NoSharedWaiter(st.inFlight)
    && (forall h :: h in st.bypassing ==> h < st.next && h !in st.settled)
    && (forall h :: h in st.settled ==> h < st.next)
  }

  datatype Requested<V, E> = Requested(st: CacheState<V, E>, reply: Reply<V>)

  /** A request for `ns` whose arguments have been checked. */
  function RequestStep<V, E>(st: CacheState<V, E>, ns: string, bypass: bool): (r: Requested<V, E>)
    ensures r.reply.h == st.next && r.st.next == st.next + 1
    // Requests never change the stored values.
    ensures r.st.stored == st.stored
    // The four cases, as the flag and the tables decide them.
    ensures r.reply.Bypassed? <==> bypass
    ensures r.reply.FromCache? <==> !bypass && ns in st.stored
    ensures r.reply.Joined? <==> !bypass && ns !in st.stored && ns in st.inFlight
    ensures r.reply.Started? <==> !bypass && ns !in st.stored && ns !in st.inFlight
    // The computation is invoked exactly when the call bypasses or starts one.
    ensures Count(r.st.computeCount, ns) == Count(st.computeCount, ns) + (if r.reply.Bypassed? || r.reply.Started? then 1 else 0)
    ensures r.st.computeCount == st.computeCount || r.st.computeCount == st.computeCount[ns := Count(st.computeCount, ns) + 1]
    // A cache hit resolves at once with the stored value.
    ensures r.reply.FromCache? ==> r.reply.value == st.stored[ns] && r.st.settled == st.settled[r.reply.h := Resolved(st.stored[ns])]
    // Joining makes the call one more waiter, last in line; starting makes it the first.
    ensures r.reply.Joined? ==> r.st.inFlight == st.inFlight[ns := st.inFlight[ns] + [r.reply.h]]
    ensures r.reply.Started? ==> r.st.inFlight == st.inFlight[ns := [r.reply.h]]
    ensures r.reply.Joined? || r.reply.Started? ==> r.st.settled == st.settled
    // A bypassing call only records its own pending promise.
    ensures r.reply.Bypassed? ==>
      r.st.inFlight == st.inFlight && r.st.settled == st.settled && r.st.bypassing == st.bypassing + {r.reply.h}
    ensures !r.reply.Bypassed? ==> r.st.bypassing == st.bypassing
    ensures !(r.reply.Joined? || r.reply.Started?) ==> r.st.inFlight == st.inFlight
  {
    var h := st.next;
    var st' := st.(next := h + 1);
    var invoked := st.computeCount[ns := Count(st.computeCount, ns) + 1];
    if bypass then
      Requested(st'.(bypassing := st.bypassing + {h}, computeCount := invoked), Bypassed(h))
    else if ns in st.stored then
      Requested(st'.(settled := st.settled[h := Resolved(st.stored[ns])]), FromCache(h, st.stored[ns]))
    else if ns in st.inFlight then
      Requested(st'.(inFlight := st.inFlight[ns := st.inFlight[ns] + [h]]), Joined(h))
    else
      Requested(st'.(inFlight := st.inFlight[ns := [h]], computeCount := invoked), Started(h))
  }

  /** The shared computation for `ns` settles with `outcome`. */
  function SettleStep<V, E>(st: CacheState<V, E>, ns: string, outcome: Outcome<V, E>): (r: CacheState<V, E>)
    requires ns in st.inFlight
    // Every waiter gets the same outcome; no other promise settles.
    ensures r.settled == st.settled + map h | h in st.inFlight[ns] :: outcome
    // The computation is no longer in flight.
    ensures r.inFlight == st.inFlight - {ns}
    // A success is stored under `ns`, replacing what was there; a failure stores nothing.
    ensures r.stored == if outcome.Resolved? then st.stored[ns := outcome.value] else st.stored
    ensures r.bypassing == st.bypassing && r.next == st.next && r.computeCount == st.computeCount
  {
    var waiters := st.inFlight[ns];
    st.(settled := st.settled + map h | h in waiters :: outcome,
        inFlight := st.inFlight - {ns},
        stored := if outcome.Resolved? then st.stored[ns := outcome.value] else st.stored)
  }

  /** A bypassing call's own computation settles: only its promise changes. */
  function SettleBypassStep<V, E>(st: CacheState<V, E>, h: Handle, outcome: Outcome<V, E>): (r: CacheState<V, E>)
    requires h in st.bypassing
    ensures r.settled == st.settled[h := outcome] && r.bypassing == st.bypassing - {h}
    ensures r.stored == st.stored && r.inFlight == st.inFlight
    ensures r.next == st.next && r.computeCount == st.computeCount
  {
    st.(settled := st.settled[h := outcome], bypassing := st.bypassing - {h})
  }

  /** `clearCache(ns)` forgets what is stored for `ns`; `clearCache()` forgets
      everything stored. Computations in flight are left alone. */
  function ClearStep<V, E>(st: CacheState<V, E>, ns: Option<string>): (r: CacheState<V, E>)
    ensures r.stored == if ns.Some? then st.stored - {ns.value} else map[]
    ensures r.inFlight == st.inFlight && r.settled == st.settled && r.bypassing == st.bypassing
    ensures r.next == st.next && r.computeCount == st.computeCount
  {
    if ns.Some? then st.(stored := st.stored - {ns.value}) else st.(stored := map[])
  }

  // ---------------------------------------------------------------------------
  // The invariant holds initially and every step keeps it.

  lemma EmptyInv<V, E>()
    ensures Inv(Empty<V, E>())
  {
  }

  /** Handing out `next` without making it a waiter. */
  lemma FreshKeeps(m: map<string, seq<Handle>>, next: Handle, done: set<Handle>)
    requires AllPending(m, next, done)
    ensures AllPending(m, next + 1, done + {next})
  {
    forall ns, h {:trigger h in m[ns]} | ns in m && h in m[ns]
      ensures h < next + 1 && h !in done + {next}
    {
      assert h < next;
    }
  }

  /** Starting a computation for a namespace with none in flight, with the fresh
      handle `next` as its first waiter. */
  lemma StartKeeps(m: map<string, seq<Handle>>, ns: string, next: Handle, done: set<Handle>)
    requires ns !in m && next !in done
    requires AllPending(m, next, done) && NoSharedWaiter(m)
    ensures AllPending(m[ns := [next]], next + 1, done) && NoSharedWaiter(m[ns := [next]])
  {
    var m' := m[ns := [next]];
    // A waiter of the new table is the fresh handle, waiting on `ns`, or an old waiter.
    forall a, h {:trigger h in m'[a]} | a in m' && h in m'[a]
      ensures (a == ns && h == next) || (a in m && h in m[a])
    {
      if a != ns {
        assert m'[a] == m[a];
      }
    }
  }

  /** Adding the fresh handle `next` as one more waiter on the computation for `ns`. */
  lemma JoinKeeps(m: map<string, seq<Handle>>, ns: string, next: Handle, done: set<Handle>)
    requires ns in m && next !in done
    requires AllPending(m, next, done) && NoSharedWaiter(m)
    ensures AllPending(m[ns := m[ns] + [next]], next + 1, done) && NoSharedWaiter(m[ns := m[ns] + [next]])
  {
    var m' := m[ns := m[ns] + [next]];
    // A waiter of the new table is the fresh handle, waiting on `ns`, or an old waiter.
    forall a, h {:trigger h in m'[a]} | a in m' && h in m'[a]
      ensures (a == ns && h == next) || (a in m && h in m[a])
    {
      if a != ns {
        assert m'[a] == m[a];
      } else if h != next {
        assert h in m[ns] + [next];
      }
    }
  }

  lemma RequestKeepsInv<V, E>(st: CacheState<V, E>, ns: string, bypass: bool)
    requires Inv(st)
    ensures Inv(RequestStep(st, ns, bypass).st)
  {
    var done := st.settled.Keys + st.bypassing;
    if bypass || ns in st.stored {
      FreshKeeps(st.inFlight, st.next, done);
      var r := RequestStep(st, ns, bypass).st;
      assert r.settled.Keys + r.bypassing == done + {st.next};
    } else if ns in st.inFlight {
      JoinKeeps(st.inFlight, ns, st.next, done);
    } else {
      StartKeeps(st.inFlight, ns, st.next, done);
    }
  }

  /** Settling releases waiters that were all pending, so each promise settles
      exactly once, and the invariant holds afterwards. */
  lemma SettleKeepsInv<V, E>(st: CacheState<V, E>, ns: string, outcome: Outcome<V, E>)
    requires Inv(st) && ns in st.inFlight
    ensures forall h :: h in st.inFlight[ns] ==> h !in st.settled
    ensures SettleStep(st, ns, outcome).settled.Keys == st.settled.Keys + set h | h in st.inFlight[ns]
    ensures Inv(SettleStep(st, ns, outcome))
  {
    var r := SettleStep(st, ns, outcome);
    assert r.settled.Keys + r.bypassing == st.settled.Keys + st.bypassing + set h | h in st.inFlight[ns];
  }

  lemma SettleBypassKeepsInv<V, E>(st: CacheState<V, E>, h: Handle, outcome: Outcome<V, E>)
    requires Inv(st) && h in st.bypassing
    ensures Inv(SettleBypassStep(st, h, outcome))
  {
    var r := SettleBypassStep(st, h, outcome);
    assert r.settled.Keys + r.bypassing == st.settled.Keys + st.bypassing;
  }

  lemma ClearKeepsInv<V, E>(st: CacheState<V, E>, ns: Option<string>)
    requires Inv(st)
    ensures Inv(ClearStep(st, ns))
  {
  }

  // ---------------------------------------------------------------------------
  // What callers observe.

  /** `n` non-bypassing requests for `ns`, one after the other. */
  function RequestMany<V, E>(st: CacheState<V, E>, ns: string, n: nat): (r: (CacheState<V, E>, seq<Handle>))
    decreases n
  {
    if n == 0 then (st, [])
    else
      var prev := RequestMany(st, ns, n - 1);
      var q := RequestStep(prev.0, ns, false);
      (q.st, prev.1 + [q.reply.h])
  }

  /** Single flight: `n` requests for a namespace with nothing stored and nothing
      in flight invoke the computation once, and all `n` calls wait on it. */
  lemma {:induction false} RequestsCoalesce<V, E>(st: CacheState<V, E>, ns: string, n: nat)
    requires Inv(st) && ns !in st.stored && ns !in st.inFlight && n > 0
    ensures var (st', hs) := RequestMany(st, ns, n);
      && Inv(st')
      && Count(st'.computeCount, ns) == Count(st.computeCount, ns) + 1
      && st'.stored == st.stored
      && ns in st'.inFlight && st'.inFlight[ns] == hs && |hs| == n
  {
    if n == 1 {
      RequestKeepsInv(st, ns, false);
    } else {
      RequestsCoalesce(st, ns, n - 1);
      var prev := RequestMany(st, ns, n - 1);
      RequestKeepsInv(prev.0, ns, false);
    }
  }

  /** All the calls that waited on one computation observe the same outcome. */
  lemma {:induction false} CoalescedCallsShareOutcome<V, E>(st: CacheState<V, E>, ns: string, n: nat, outcome: Outcome<V, E>)
    requires Inv(st) && ns !in st.stored && ns !in st.inFlight && n > 0
    ensures var (st', hs) := RequestMany(st, ns, n);
      ns in st'.inFlight &&
      var fin := SettleStep(st', ns, outcome);
      && |hs| == n
      && (forall i :: 0 <= i < n ==> hs[i] in fin.settled && fin.settled[hs[i]] == outcome)
      && Count(fin.computeCount, ns) == Count(st.computeCount, ns) + 1
  {
    RequestsCoalesce(st, ns, n);
  }

  /** A stored value is served and the new computation is not invoked. */
  lemma CacheHitDoesNotInvoke<V, E>(st: CacheState<V, E>, ns: string)
    requires ns in st.stored
    ensures var r := RequestStep(st, ns, false);
      r.reply == FromCache(st.next, st.stored[ns]) && r.st.computeCount == st.computeCount
  {
  }

  /** A failure does not poison the namespace: the next request starts afresh. */
  lemma FailureDoesNotPoison<V, E>(st: CacheState<V, E>, ns: string, e: E)
    requires Inv(st) && ns in st.inFlight
    ensures RequestStep(SettleStep(st, ns, Rejected(e)), ns, false).reply.Started?
  {
  }

  /** After `clearCache(ns)`, or after `clearCache()`, a request for a namespace
      with nothing in flight invokes its computation again. */
  lemma ClearForcesRecompute<V, E>(st: CacheState<V, E>, cleared: Option<string>, ns: string)
    requires ns !in st.inFlight && (cleared.None? || cleared == Some(ns))
    ensures RequestStep(ClearStep(st, cleared), ns, false).reply.Started?
  {
  }

  /** Clearing one namespace leaves every other namespace's stored value. */
  lemma ClearKeepsOthers<V, E>(st: CacheState<V, E>, cleared: string, ns: string)
    requires ns in st.stored && ns != cleared
    ensures RequestStep(ClearStep(st, Some(cleared)), ns, false).reply == FromCache(st.next, st.stored[ns])
  {
  }

  /** A bypassing request leaves everything non-bypassing callers can observe as
      it was: the next non-bypassing request gets the same kind of reply, with the
      same stored value, as it would have without it. */
  lemma BypassIsInvisible<V, E>(st: CacheState<V, E>, b: string, ns: string)
    ensures var after := RequestStep(st, b, true).st;
      var r, r' := RequestStep(after, ns, false), RequestStep(st, ns, false);
      && r.reply.FromCache? == r'.reply.FromCache?
      && r.reply.Joined? == r'.reply.Joined?
      && r.reply.Started? == r'.reply.Started?
      && (r.reply.FromCache? ==> r.reply.value == r'.reply.value)
  {
  }

  // ---------------------------------------------------------------------------
  // The cache object.

  class Cache<V, E> {
    var stored: map<string, V>
    var inFlight: map<string, seq<Handle>>
    var bypassing: set<Handle>
    var settled: map<Handle, Outcome<V, E>>
    var nextHandle: Handle
    ghost var computeCount: map<string, nat>

    ghost function State(): CacheState<V, E>
      reads this
    {
      CacheState(stored, inFlight, bypassing, settled, nextHandle, computeCount)
    }

    ghost predicate Valid()
      reads this
    {
      Inv(State())
    }

    constructor ()
      ensures Valid() && State() == Empty()
    {
      stored, inFlight, bypassing, settled := map[], map[], {}, map[];
      nextHandle := 0;
      computeCount := map[];
    }

    /** A request whose arguments have been checked. */
    method Request(ns: string, bypass: bool) returns (reply: Reply<V>)
      requires Valid()
      modifies this
      ensures Valid()
      ensures State() == RequestStep(old(State()), ns, bypass).st
      ensures reply == RequestStep(old(State()), ns, bypass).reply
    {
      ghost var post := RequestStep(State(), ns, bypass);
      RequestKeepsInv(State(), ns, bypass);
      var h := nextHandle;
      if bypass {
        bypassing := bypassing + {h};
        computeCount := computeCount[ns := Count(computeCount, ns) + 1];
        reply := Bypassed(h);
      } else if ns in stored {
        settled := settled[h := Resolved(stored[ns])];
        reply := FromCache(h, stored[ns]);
      } else if ns in inFlight {
        inFlight := inFlight[ns := inFlight[ns] + [h]];
        reply := Joined(h);
      } else {
        inFlight := inFlight[ns := [h]];
        computeCount := computeCount[ns := Count(computeCount, ns) + 1];
        reply := Started(h);
      }
      nextHandle := h + 1;
      assert State() == post.st;
    }

    /** `cache(...args)`: bad arguments throw before anything changes; good ones
        make a request. */
    method Call(args: seq<Val>) returns (r: Result<Reply<V>, ArgError>)
      requires Valid()
      modifies this
      ensures Valid()
      ensures ParseArgs(args).Err? ==> r == Err(ParseArgs(args).error) && State() == old(State())
      ensures ParseArgs(args).Ok? ==>
        var c := ParseArgs(args).value;
        r == Ok(RequestStep(old(State()), c.ns, c.bypass).reply) && State() == RequestStep(old(State()), c.ns, c.bypass).st
    {
      match ParseArgs(args)
      case Err(e) =>
        r := Err(e);
      case Ok(c) =>
        var reply := Request(c.ns, c.bypass);
        r := Ok(reply);
    }

    /** The shared computation for `ns` settles; returns the promises it releases. */
    method Settle(ns: string, outcome: Outcome<V, E>) returns (released: seq<Handle>)
      requires Valid() && ns in inFlight
      modifies this
      ensures Valid()
      ensures released == old(inFlight[ns])
      ensures State() == SettleStep(old(State()), ns, outcome)
    {
      ghost var post := SettleStep(State(), ns, outcome);
      SettleKeepsInv(State(), ns, outcome);
      released := inFlight[ns];
      settled := settled + map h | h in released :: outcome;
      inFlight := inFlight - {ns};
      if outcome.Resolved? {
        stored := stored[ns := outcome.value];
      }
      assert State() == post;
    }

    /** A bypassing call's own computation settles. */
    method SettleBypass(h: Handle, outcome: Outcome<V, E>)
      requires Valid() && h in bypassing
      modifies this
      ensures Valid()
      ensures State() == SettleBypassStep(old(State()), h, outcome)
    {
      SettleBypassKeepsInv(State(), h, outcome);
      settled := settled[h := outcome];
      bypassing := bypassing - {h};
    }

    /** `clearCache(ns)` or `clearCache()`. */
    method Clear(ns: Option<string>)
      requires Valid()
      modifies this
      ensures Valid()
      ensures State() == ClearStep(old(State()), ns)
    {
      ClearKeepsInv(State(), ns);
      if ns.Some? {
        stored := stored - {ns.value};
      } else {
        stored := map[];
      }
    }
  }
}
