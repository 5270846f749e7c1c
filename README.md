# node-appc `util`: the single-flight cache and `mergeDeep`

This project models two utilities of node-appc's `appc.util`, as its test suite
`test/test-util.js` asserts them. It states their behaviour in Dafny and proves it.

- **`cache(namespace, [bypass,] fn)` and `clearCache([namespace])`** form a
  namespaced single-flight cache.
  - The first caller for a namespace runs `fn`, and its value is stored.
  - Later callers get the stored value and their own `fn` is never run.
  - Callers that arrive while a computation is in flight wait on that same run.
    It is invoked once, and every waiter gets its value or its error.
  - A truthy second argument bypasses the cache: the call runs its own `fn`, alone.
  - `clearCache(ns)` forgets one namespace's value; `clearCache()` forgets them all.
  - Bad arguments throw a `TypeError` synchronously, with a fixed message.
- **`mergeDeep(dest, source)`** deep-merges plain objects.
  - Source values win.
  - `undefined` source values are skipped.
  - `null`s, arrays and functions are copied as they are.
  - A nested object replaces a `null` or array destination value.
  - A source that is not an object gives back `dest`.

JavaScript runs the cache on one cooperative thread. So in this model it is a state
machine whose steps are the table updates made between suspension points:
- a request (`RequestStep`);
- the settling of a shared computation (`SettleStep`);
- the settling of a bypassing call's own computation (`SettleBypassStep`);
- a clear (`ClearStep`).

Every call receives a handle, which stands for the promise it returned. The state
records how each such promise settled. The class `SingleFlight.Cache` holds the
tables as fields its methods update in place, and each method is proved to perform
its step. The invariant `SingleFlight.Inv` is proved to hold initially and after
every step:
- a namespace never has both a stored value and a computation in flight;
- every waiting promise is still pending;
- no promise waits on two computations.

The module `CacheScenarios` replays each cache test of the suite on a fresh cache,
with the results each test expects stated in the ensures clauses. Four of its
scenarios go beyond the suite and exercise the model's own choices:
`RetriesAfterFailure`, `ClearKeepsOtherNamespaces`, `IssueBesideBypass` and
`BypassBesideCoalescing`.

Modules:
- `Wrappers`: `Option` and `Result`.
- `JsValue`: JavaScript values as data, truthiness, and argument positions.
- `MergeDeep`: `mergeDeep` as a pure recursive function, with its lemmas.
- `CacheArgs`: argument checking for `cache()`.
- `SingleFlight`: the cache's steps, the invariant, the lemmas, and the class.
- `CacheScenarios`: the tests, as callers of the class.

## Model

| member | source | states |
|---|---|---|
| MergeDeep.MergeDeep | test/test-util.js:5-52 | A non-object source returns `dest` unchanged. An object source gives an object with `dest`'s keys plus the source's defined keys. Every defined non-object source value wins as it is. A nested object source value gives an object holding all of its defined keys. A key the source omits, or sets to `undefined`, keeps `dest`'s value. |
| MergeDeep.MergeDeepNested | test/test-util.js:24-52 | A nested object source value is merged recursively into what `dest` held at that key, or into nothing when `dest` had no object there. |
| MergeDeep.MergeDeepPlain | test/test-util.js:24-52 | A defined non-object source value (a number, an array, `null` or a function) appears unchanged in the result. |
| MergeDeep.MergeDeepCoversSource | test/test-util.js:24-52 | The source wins at every depth: the result agrees with every defined value of the source, through all nested objects. |
| MergeDeep.MergeIntoNonObjectCopies | test/test-util.js:10-13 | Merging a source without `undefined` properties into `null`, or into any non-object, yields exactly the source. |
| MergeDeep.NullDestIsEmptyObject | test/test-util.js:10-13 | A `null` destination behaves exactly like `{}`. |
| MergeDeep.MergeDeepKeepsNoUndef | test/test-util.js:35-51 | If `dest` holds no `undefined` property at any depth, neither does the result: `undefined` source values never appear. |
| MergeDeep.MergeDeepIdempotent | test/test-util.js:24-52 | Merging the same source a second time changes nothing. |
| MergeDeep.MergesTwoObjects | test/test-util.js:5-8 | `mergeDeep({a: 1}, {b: 2})` equals `{a: 1, b: 2}`. |
| MergeDeep.CreatesDestObject | test/test-util.js:10-13 | `mergeDeep(null, {b: 2})` equals `{b: 2}`. |
| MergeDeep.ReturnsDestForNonObjectSource | test/test-util.js:15-22 | `mergeDeep(orig)` and `mergeDeep(orig, 'foo')` both give back `orig`, for every `orig`. |
| MergeDeep.NestedExampleKeys | test/test-util.js:27-51 | The nested example's result has exactly the keys a, b, c, d, f and g: the `undefined` key e is dropped. |
| MergeDeep.NestedExampleObjects | test/test-util.js:27-51 | In the nested example, `{fn: fn}` replaces `null` at d, keeping the function by identity, and `{foo: 'bar'}` replaces `[]` at g. |
| MergeDeep.NestedExampleNumbers | test/test-util.js:27-51 | In the nested example, a is overwritten with 2 and b is added as 3. |
| MergeDeep.NestedExampleCopies | test/test-util.js:27-51 | In the nested example, the array `['x', 'y', 'z']` at c and the `null` at f are copied. |
| MergeDeep.MergesNestedProperties | test/test-util.js:24-52 | The nested example merges to exactly the expected object. |
| CacheArgs.ParseArgs | test/test-util.js:60-78 | The namespace error is raised exactly when the first argument is not a non-empty string. The function error is raised exactly when the namespace is good but neither the second nor the third argument is a function. When the second argument is a function, the call does not bypass. Otherwise the third argument is the function and the bypass flag is the truthiness of the second. |
| CacheArgs.RejectsBadArguments | test/test-util.js:60-78 | `cache()` and `cache(123)` fail with the namespace error, and `cache('foo', 'bar')` and `cache('foo', true, 'bar')` with the function error. The two messages are exactly the asserted ones. |
| CacheArgs.FlagPositionDoesNotChangeValidation | test/test-util.js:70-78 | For any non-function flag, inserting it in the second position accepts or rejects the same calls, and picks the same function. |
| CacheArgs.ParsesPlainCall | test/test-util.js:80-89 | `cache(ns, fn)` with a non-empty namespace is a non-bypassing request for `ns`. |
| CacheArgs.ParsesBypassCall | test/test-util.js:110-127 | `cache(ns, true, fn)` with a non-empty namespace is a bypassing request for `ns`. |
| SingleFlight.RequestStep | test/test-util.js:80-177 | A request gets the next handle and leaves stored values alone. It is served from the cache exactly when it does not bypass and a value is stored. It joins exactly when it does not bypass, nothing is stored, and a computation is in flight; it starts one exactly when neither holds, and it bypasses exactly when flagged. The computation count grows by one exactly for starts and bypasses. A hit settles at once with the stored value; joining appends the caller as a waiter; starting makes the caller the only waiter; a bypass only records its own pending promise. |
| SingleFlight.SettleStep | test/test-util.js:129-192 | Every waiter settles with the same outcome and no other promise settles. The computation leaves the in-flight table. A success is stored under the namespace; a failure stores nothing. |
| SingleFlight.SettleBypassStep | test/test-util.js:110-127 | A bypassing call's computation settles only that call's promise. Stored values and in-flight computations are unchanged. |
| SingleFlight.ClearStep | test/test-util.js:200-253 | `clearCache(ns)` removes exactly `ns`'s stored value, and `clearCache()` removes every stored value. Nothing else changes. |
| SingleFlight.EmptyInv | test/test-util.js:56-58 | The invariant holds for the empty cache. |
| SingleFlight.FreshKeeps | test/test-util.js:80-127 | Handing out a fresh handle that does not wait keeps every waiter pending. |
| SingleFlight.StartKeeps | test/test-util.js:129-152 | Registering a computation whose only waiter is the fresh handle keeps every waiter pending and unshared. |
| SingleFlight.JoinKeeps | test/test-util.js:129-152 | Appending the fresh handle as one more waiter keeps every waiter pending and unshared. |
| SingleFlight.RequestKeepsInv | test/test-util.js:80-177 | Every request keeps the invariant. |
| SingleFlight.SettleKeepsInv | test/test-util.js:129-192 | Settling keeps the invariant. Every released waiter was still pending, so each promise settles exactly once. The settled promises are the old ones plus the waiters. |
| SingleFlight.SettleBypassKeepsInv | test/test-util.js:110-127 | Settling a bypassing call keeps the invariant. |
| SingleFlight.ClearKeepsInv | test/test-util.js:200-253 | Clearing keeps the invariant. |
| SingleFlight.RequestsCoalesce | test/test-util.js:129-177 | For any `n > 0`, `n` requests for a namespace with nothing stored and nothing in flight invoke the computation once. All `n` calls wait on it as its waiters, in order, and the invariant holds. |
| SingleFlight.CoalescedCallsShareOutcome | test/test-util.js:129-177 | When that computation settles, each of the `n` calls settles with its outcome, and the namespace's computation count has grown by exactly one. |
| SingleFlight.CacheHitDoesNotInvoke | test/test-util.js:91-108 | A non-bypassing request for a namespace with a stored value resolves to that value and invokes nothing. |
| SingleFlight.FailureDoesNotPoison | test/test-util.js:179-192 | After a computation fails, the next request for its namespace starts a new computation. |
| SingleFlight.ClearForcesRecompute | test/test-util.js:200-253 | After `clearCache(ns)` or `clearCache()`, a request for `ns` starts a new computation when none is in flight. |
| SingleFlight.ClearKeepsOthers | test/test-util.js:200-219 | `clearCache('foo')` leaves every other namespace's stored value to be served. |
| SingleFlight.BypassIsInvisible | test/test-util.js:110-127 | After a bypassing request, the next non-bypassing request gets the same kind of reply, and the same stored value, as it would have without it. |
| SingleFlight.Cache.constructor | test/test-util.js:56-58 | A new cache satisfies the invariant and holds the empty state: nothing stored, in flight or settled. |
| SingleFlight.Cache.Request | test/test-util.js:80-177 | Performs `RequestStep` in place on the fields, returns its reply, and keeps the invariant. |
| SingleFlight.Cache.Call | test/test-util.js:60-177 | Bad arguments return the argument error and leave the state unchanged. Good arguments perform `RequestStep` for the parsed namespace and flag. |
| SingleFlight.Cache.Settle | test/test-util.js:129-192 | Performs `SettleStep` in place, returns exactly the released waiters, and keeps the invariant. |
| SingleFlight.Cache.SettleBypass | test/test-util.js:110-127 | Performs `SettleBypassStep` in place and keeps the invariant. |
| SingleFlight.Cache.Clear | test/test-util.js:200-253 | Performs `ClearStep` in place and keeps the invariant. |
| CacheScenarios.Await | test/test-util.js:80-192 | Awaiting one call on a cache with nothing in flight returns the argument error with the state unchanged, or returns the call's outcome. That outcome is the stored value on a hit, else the computation's outcome. The stored value is replaced only by a non-bypassing success. The count grows exactly when the computation ran. |
| CacheScenarios.RejectsBadArguments | test/test-util.js:60-78 | The four bad calls throw the expected errors and leave the cache empty. |
| CacheScenarios.CachesValue | test/test-util.js:80-89 | The first `cache('foo', () => obj)` resolves to `obj`. |
| CacheScenarios.PullsFromCache | test/test-util.js:91-108 | Both calls resolve to `obj`, and only the first computation ran. |
| CacheScenarios.BypassesCache | test/test-util.js:110-127 | The bypassing call resolves to `obj2` while `obj` stays stored. |
| CacheScenarios.QueuesUpCalls | test/test-util.js:129-177 | For any `n > 0`, `n` calls issued before the first computation settles all resolve to `obj`, and the computation ran exactly once. |
| CacheScenarios.CatchesErrors | test/test-util.js:179-192 | A failing computation rejects the call with that same error and stores nothing. |
| CacheScenarios.RetriesAfterFailure | test/test-util.js:181-183 | Beyond the suite: after the failing call of the error test, the next call runs its own computation and resolves to its value. |
| CacheScenarios.ClearsNamespace | test/test-util.js:200-219 | After `clearCache('foo')`, `cache('foo', () => obj2)` resolves to `obj2`. |
| CacheScenarios.ClearKeepsOtherNamespaces | test/test-util.js:209 | Beyond the suite: `clearCache('foo')` does not make `bar` recompute: `bar` still resolves to its stored `obj`. |
| CacheScenarios.IssueBoth | test/test-util.js:223-232 | `cache('foo', ...)` and `cache('bar', ...)` issued together each start their own computation. |
| CacheScenarios.BothComputed | test/test-util.js:223-234 | When both computations settle with `obj`, both calls resolve to `obj` and nothing remains in flight. |
| CacheScenarios.ClearsAllNamespaces | test/test-util.js:221-253 | After `clearCache()`, both namespaces run their new computations and resolve to `obj2`. |
| CacheScenarios.IssueBesideBypass | test/test-util.js:119 | Beyond the suite, which waits for the first call to settle before bypassing: a plain call, a bypassing call and a second plain call for `foo`: the first starts, the second bypasses, and the third joins the first. |
| CacheScenarios.BypassBesideCoalescing | test/test-util.js:119 | Beyond the suite: with a bypass issued while a computation is in flight, the bypassing call gets its own value. The two plain calls share one run and its value. The computation ran twice in all. |

## Left out

- The implementation `src/index.js` is not part of this model. The behaviour
  modelled is what `test/test-util.js` asserts, plus the choices below where the
  tests are silent.
- `sha1()` (test/test-util.js:256-268): a cryptographic hash from a library that is not shown.
- `randomBytes()` (test/test-util.js:270-294): randomness from a source that is not shown.
- Promise scheduling, microtask order and the mocha test runner. These are the `done`
  callbacks, the chai assertions and the `afterEach(clearCache)` hooks.
  - Asynchrony is replaced by explicit steps: a request, then a settle.
  - The outcome of a caller's computation is a parameter of the settle step.
    The computation's code is never run by the model.
- Synchronous and promise-returning computations (test/test-util.js:129-177) are one
  model: the computation is invoked at the request and settles later. A synchronous
  throw is a rejection.
- `SingleFlight.Cache`: the computation count is a ghost field. The ghost count
  stands for the tests' own `count` variable (test/test-util.js:131, 136, 161).
- `SingleFlight.SettleBypassStep`: a bypassing call never writes its value back to
  the cache. This is a choice. The tests only check what a bypassing call resolves
  to, and the other behaviour, storing the bypass result, is not modelled.
- `SingleFlight.ClearStep`: clearing does not touch computations in flight. A
  computation that started before a clear still stores its value when it succeeds.
  This is a choice.
- `SingleFlight.SettleStep`: a failure removes the computation from the in-flight
  table and stores nothing, so the namespace is not poisoned. This is a choice; the
  tests do not retry after a failure.
- `SingleFlight.RequestStep`: a bypassing call neither joins nor registers an
  in-flight computation. This is a choice. No test issues a bypass while a
  computation is in flight: the bypass test waits for the first call to settle.
- `SingleFlight.RequestStep`: any stored value is served, `null` included. Whether
  the implementation treats falsy stored values as missing is not known.
- `CacheArgs.ParseArgs`: a non-boolean flag is taken by its truthiness, and a
  function passed both second and third is the second. `clearCache` with a
  non-string argument is not modelled.
- JavaScript numbers are modelled as unbounded integers. Floating point, `NaN` and
  `-0` are not modelled.
- Objects are unordered maps. Property order, prototypes and non-plain objects
  (class instances, `Date`, ...) are not modelled.
- `MergeDeep.MergeDeep` is a pure function. The implementation may update `dest`
  in place and return it; that update and the aliasing it creates are not
  modelled. The identity of the returned object is modelled as value equality,
  which is what `ReturnsDestForNonObjectSource` states.
- `MergeDeep.MergeDeep`: any non-object destination (`null`, an array, a scalar,
  `undefined`) is replaced by `{}` when the source is an object. The tests show
  only `null` at the top level, and `null` and `[]` nested.
- `MergeDeep.MergeDeep`: three more cases are choices the tests do not pin down.
  - A non-object `dest` with a non-object source comes back as it is, so
    `MergeDeep(Null, Undef) == Null`; it is not first replaced by `{}`.
  - An array as the top-level source counts as a non-object, so `dest` comes back,
    although `typeof []` is `'object'` in JavaScript.
  - A source array where `dest` already holds an array replaces it; the two are
    not concatenated or merged index by index.
- Thrown `TypeError` objects are modelled as the error kind and its message.
