/** Argument handling of `cache(namespace, [bypass,] fn)`: the checks made before
    anything else happens, and where the optional bypass flag sits. */
module CacheArgs {
  import opened Wrappers
  import opened JsValue

  /** The two `TypeError`s a call can throw synchronously. */
  datatype ArgError = BadNamespace | BadFn

  function Message(e: ArgError): string
  {
    match e
    case BadNamespace => "Expected namespace to be a non-empty string"
    case BadFn => "Expected fn to be a function"
  }

  /** A well-formed call: the namespace, whether the cache is bypassed, and the
      computation (a function, known by its identity). */
  datatype Call = Call(ns: string, bypass: bool, fn: nat)

  predicate IsNamespace(v: Val)
  {
    v.Str? && v.s != ""
  }

  /** Reads the arguments. When the second argument is a function it is the
      computation and the cache is not bypassed; otherwise the second argument is
      the bypass flag (taken by its truthiness) and the third is the computation. */
  function ParseArgs(args: seq<Val>): (r: Result<Call, ArgError>)
    // The namespace is checked first.
    ensures r == Err(BadNamespace) <==> !IsNamespace(Arg(args, 0))
    // With a good namespace, the call fails exactly when neither the second nor the
    // third argument position holds the function the call expects there.
    ensures r == Err(BadFn) <==> IsNamespace(Arg(args, 0)) && !Arg(args, 1).Fn? && !Arg(args, 2).Fn?
    ensures r.Ok? ==> r.value.ns != "" && Arg(args, 0) == Str(r.value.ns)
    // Two-argument form: `cache(ns, fn)` never bypasses.
    ensures r.Ok? && Arg(args, 1).Fn? ==> Arg(args, 1) == Fn(r.value.fn) && !r.value.bypass
    // Three-argument form: `cache(ns, flag, fn)`.
    ensures r.Ok? && !Arg(args, 1).Fn? ==> Arg(args, 2) == Fn(r.value.fn) && r.value.bypass == Truthy(Arg(args, 1))
  {
    var ns := Arg(args, 0);
    if !IsNamespace(ns) then Err(BadNamespace)
    else if Arg(args, 1).Fn? then Ok(Call(ns.s, false, Arg(args, 1).id))
    else if Arg(args, 2).Fn? then Ok(Call(ns.s, Truthy(Arg(args, 1)), Arg(args, 2).id))
    else Err(BadFn)
  }

  /** `cache()` and `cache(123)` throw the namespace error; `cache('foo', 'bar')` and
      `cache('foo', true, 'bar')` throw the function error. */
  lemma RejectsBadArguments()
    ensures ParseArgs([]) == Err(BadNamespace)
    ensures ParseArgs([Num(123)]) == Err(BadNamespace)
    ensures ParseArgs([Str("foo"), Str("bar")]) == Err(BadFn)
    ensures ParseArgs([Str("foo"), Bool(true), Str("bar")]) == Err(BadFn)
    ensures Message(BadNamespace) == "Expected namespace to be a non-empty string"
    ensures Message(BadFn) == "Expected fn to be a function"
  {
  }

  /** Whether or not a bypass flag is passed in the second position, the same
      computation argument is accepted or rejected, and the same function is run. */
  lemma FlagPositionDoesNotChangeValidation(ns: Val, flag: Val, f: Val)
    requires !flag.Fn?
    ensures ParseArgs([ns, f]).Ok? <==> ParseArgs([ns, flag, f]).Ok?
    ensures ParseArgs([ns, f]).Ok? ==> ParseArgs([ns, f]).value.fn == ParseArgs([ns, flag, f]).value.fn
    ensures ParseArgs([ns, f]).Err? ==> ParseArgs([ns, f]) == ParseArgs([ns, flag, f])
  {
    assert Arg([ns, flag, f], 1) == flag;
    assert Arg([ns, flag, f], 2) == f;
    assert Arg([ns, f], 1) == f && Arg([ns, f], 2) == Undef;
  }

  /** `cache(ns, fn)` with a non-empty namespace is a non-bypassing request. */
  lemma ParsesPlainCall(ns: string, f: nat)
    requires ns != ""
    ensures ParseArgs([Str(ns), Fn(f)]) == Ok(Call(ns, false, f))
  {
  }

  /** `cache(ns, true, fn)` with a non-empty namespace is a bypassing request. */
  lemma ParsesBypassCall(ns: string, f: nat)
    requires ns != ""
    ensures ParseArgs([Str(ns), Bool(true), Fn(f)]) == Ok(Call(ns, true, f))
  {
  }
}
