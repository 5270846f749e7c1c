/** `mergeDeep(dest, source)`: deep merge of plain objects. */
module MergeDeep {
  import opened JsValue

  /** The properties that `dest` contributes: its own when it is a plain object,
      none when it is anything else (`null`, an array, a scalar, `undefined`),
      since such a `dest` is replaced by a fresh `{}`. */
  function BaseFields(dest: Val): map<string, Val>
  {
    if dest.Obj? then dest.fields else map[]
  }

  /** The keys of a source object whose value is not `undefined`. */
  function DefinedKeys(s: map<string, Val>): set<string>
  {
    set k | k in s && !s[k].Undef?
  }

  function MergeDeep(dest: Val, src: Val): (r: Val)
    decreases src
    // A source that is not a plain object leaves `dest` as it is.
    ensures !src.Obj? ==> r == dest
    // Otherwise the result is an object holding the union of the keys,
    // minus the source keys whose value is `undefined` and that `dest` lacks.
    ensures src.Obj? ==> r.Obj? && r.fields.Keys == BaseFields(dest).Keys + DefinedKeys(src.fields)
    // The source wins for every defined value that is not a plain object:
    // scalars, `null`, arrays (copied as they are) and functions (by identity).
    ensures src.Obj? ==> forall k :: k in src.fields && !src.fields[k].Undef? && !src.fields[k].Obj? ==>
      r.fields[k] == src.fields[k]
    // A plain-object source value becomes a plain object in the result, whatever
    // `dest` held there, and it carries every key the source object defines.
    ensures src.Obj? ==> forall k :: k in src.fields && src.fields[k].Obj? ==>
      r.fields[k].Obj? && DefinedKeys(src.fields[k].fields) <= r.fields[k].fields.Keys
    // Keys the source does not define keep the value `dest` had.
    ensures src.Obj? ==> forall k :: k in BaseFields(dest) && (k !in src.fields || src.fields[k].Undef?) ==>
      r.fields[k] == BaseFields(dest)[k]
  {
    match src
    case Obj(s) =>
      var d := BaseFields(dest);
      Obj(map k | k in d.Keys + DefinedKeys(s) :: MergeKey(d, s, k))
    case _ => dest
  }

  /** The merged value of one key. */
  function MergeKey(d: map<string, Val>, s: map<string, Val>, k: string): Val
    requires k in d.Keys + DefinedKeys(s)
    decreases Obj(s), 0
  {
    if k in s && !s[k].Undef? then
      if s[k].Obj? then MergeDeep(if k in d then d[k] else Undef, s[k]) else s[k]
    else d[k]
  }

  /** The value `dest` holds at `k`, `undefined` when it has none. */
  function DestAt(dest: Val, k: string): Val
  {
    if k in BaseFields(dest) then BaseFields(dest)[k] else Undef
  }

  /** A nested plain-object source value is merged into what `dest` held at that key. */
  lemma MergeDeepNested(dest: Val, src: Val, k: string)
    requires src.Obj? && k in src.fields && src.fields[k].Obj?
    ensures MergeDeep(dest, src).fields[k] == MergeDeep(DestAt(dest, k), src.fields[k])
  {
    var d := BaseFields(dest);
    assert MergeDeep(dest, src).fields[k] == MergeKey(d, src.fields, k);
  }

  /** A defined source value that is not a plain object is copied into the result. */
  lemma MergeDeepPlain(dest: Val, src: Val, k: string)
    requires src.Obj? && k in src.fields && !src.fields[k].Undef? && !src.fields[k].Obj?
    ensures k in MergeDeep(dest, src).fields && MergeDeep(dest, src).fields[k] == src.fields[k]
  {
  }

  /** No plain object anywhere inside `v` (through nested plain objects) holds an
      `undefined` property. Arrays are opaque here: mergeDeep copies them whole. */
  predicate NoUndefFields(v: Val)
    decreases v
  {
    v.Obj? ==> forall k :: k in v.fields ==> !v.fields[k].Undef? && NoUndefFields(v.fields[k])
  }

  /** `r` agrees with the source `src` everywhere `src` says something: every
      defined non-object value is there unchanged, and every nested plain object is
      a plain object agreeing in turn with its source object. */
  predicate Covers(r: Val, src: Val)
    requires src.Obj?
    decreases src
  {
    r.Obj? &&
    forall k :: k in src.fields && !src.fields[k].Undef? ==>
      k in r.fields &&
      if src.fields[k].Obj? then Covers(r.fields[k], src.fields[k])
      else r.fields[k] == src.fields[k]
  }

  /** The source wins at every depth. */
  lemma {:induction false} MergeDeepCoversSource(dest: Val, src: Val)
    requires src.Obj?
    ensures Covers(MergeDeep(dest, src), src)
    decreases src
  {
    var r := MergeDeep(dest, src);
    forall k | k in src.fields && !src.fields[k].Undef? && src.fields[k].Obj?
      ensures Covers(r.fields[k], src.fields[k])
    {
      MergeDeepNested(dest, src, k);
      MergeDeepCoversSource(DestAt(dest, k), src.fields[k]);
    }
  }

  /** Merging a source into `null` (or into any other non-object) yields a fresh
      object equal to the source, as long as the source has no `undefined`
      properties: a deep copy. */
  lemma {:induction false} MergeIntoNonObjectCopies(dest: Val, src: Val)
    requires !dest.Obj? && src.Obj? && NoUndefFields(src)
    ensures MergeDeep(dest, src) == src
    decreases src
  {
    var r := MergeDeep(dest, src);
    forall k | k in src.fields
      ensures r.fields[k] == src.fields[k]
    {
      if src.fields[k].Obj? {
        MergeDeepNested(dest, src, k);
        MergeIntoNonObjectCopies(Undef, src.fields[k]);
      }
    }
    assert r.fields == src.fields;
  }

  /** A `null` destination behaves like an empty object. */
  lemma NullDestIsEmptyObject(src: Val)
    requires src.Obj?
    ensures MergeDeep(Null, src) == MergeDeep(Obj(map[]), src)
  {
  }

  /** Merging never introduces an `undefined` property. */
  lemma {:induction false} MergeDeepKeepsNoUndef(dest: Val, src: Val)
    requires NoUndefFields(dest)
    ensures NoUndefFields(MergeDeep(dest, src))
    decreases src
  {
    if src.Obj? {
      var r := MergeDeep(dest, src);
      forall k | k in r.fields
        ensures !r.fields[k].Undef? && NoUndefFields(r.fields[k])
      {
        if k in src.fields && !src.fields[k].Undef? && src.fields[k].Obj? {
          MergeDeepNested(dest, src, k);
          MergeDeepKeepsNoUndef(DestAt(dest, k), src.fields[k]);
        }
      }
    }
  }

  /** Merging the same source a second time changes nothing. */
  lemma {:induction false} MergeDeepIdempotent(dest: Val, src: Val)
    ensures MergeDeep(MergeDeep(dest, src), src) == MergeDeep(dest, src)
    decreases src
  {
    if src.Obj? {
      var r := MergeDeep(dest, src);
      var r2 := MergeDeep(r, src);
      forall k | k in r.fields
        ensures r2.fields[k] == r.fields[k]
      {
        if k in src.fields && !src.fields[k].Undef? && src.fields[k].Obj? {
          MergeDeepNested(dest, src, k);
          MergeDeepNested(r, src, k);
          MergeDeepIdempotent(DestAt(dest, k), src.fields[k]);
        }
      }
      assert r2.fields == r.fields;
    }
  }

  /** `mergeDeep({ a: 1 }, { b: 2 })` is `{ a: 1, b: 2 }`. */
  lemma MergesTwoObjects()
    ensures MergeDeep(Obj(map["a" := Num(1)]), Obj(map["b" := Num(2)]))
         == Obj(map["a" := Num(1), "b" := Num(2)])
  {
    var r := MergeDeep(Obj(map["a" := Num(1)]), Obj(map["b" := Num(2)]));
    assert r.fields.Keys == {"a", "b"};
  }

  /** `mergeDeep(null, { b: 2 })` is `{ b: 2 }`. */
  lemma CreatesDestObject()
    ensures MergeDeep(Null, Obj(map["b" := Num(2)])) == Obj(map["b" := Num(2)])
  {
    var r := MergeDeep(Null, Obj(map["b" := Num(2)]));
    assert r.fields.Keys == {"b"};
  }

  /** `mergeDeep(orig)` and `mergeDeep(orig, 'foo')` give back `orig`. */
  lemma ReturnsDestForNonObjectSource(orig: Val)
    ensures MergeDeep(orig, Undef) == orig
    ensures MergeDeep(orig, Str("foo")) == orig
  {
  }

  /** The nested example's `dest`, `source`, and its expected result, for the
      function object `fn`. */
  function NestedDest(): Val
  {
    Obj(map["a" := Num(1), "d" := Null, "g" := Arr([])])
  }

  function NestedSource(fn: nat): Val
  {
    Obj(map["a" := Num(2), "b" := Num(3), "c" := Arr([Str("x"), Str("y"), Str("z")]),
            "d" := Obj(map["fn" := Fn(fn)]), "e" := Undef, "f" := Null,
            "g" := Obj(map["foo" := Str("bar")])])
  }

  function NestedExpected(fn: nat): Val
  {
    Obj(map["a" := Num(2), "b" := Num(3), "c" := Arr([Str("x"), Str("y"), Str("z")]),
            "d" := Obj(map["fn" := Fn(fn)]), "f" := Null,
            "g" := Obj(map["foo" := Str("bar")])])
  }

  /** The `undefined` key `e` is dropped; every other key of either side is kept. */
  lemma NestedExampleKeys(fn: nat)
    ensures MergeDeep(NestedDest(), NestedSource(fn)).fields.Keys == {"a", "b", "c", "d", "f", "g"}
  {
    var s := NestedSource(fn).fields;
    assert DefinedKeys(s) == {"a", "b", "c", "d", "f", "g"} by {
      assert s["e"].Undef?;
    }
  }

  /** The object values replace `null` (at `d`) and `[]` (at `g`), the function
      inside kept by identity. */
  lemma NestedExampleObjects(fn: nat)
    ensures MergeDeep(NestedDest(), NestedSource(fn)).fields["d"] == Obj(map["fn" := Fn(fn)])
    ensures MergeDeep(NestedDest(), NestedSource(fn)).fields["g"] == Obj(map["foo" := Str("bar")])
  {
    var s := NestedSource(fn).fields;
    MergeDeepNested(NestedDest(), NestedSource(fn), "d");
    MergeIntoNonObjectCopies(Null, s["d"]);
    MergeDeepNested(NestedDest(), NestedSource(fn), "g");
    MergeIntoNonObjectCopies(Arr([]), s["g"]);
  }

  /** The plain values win: `a` overwritten and `b` added... */
  lemma NestedExampleNumbers(fn: nat)
    ensures var r := MergeDeep(NestedDest(), NestedSource(fn)).fields;
      "a" in r && r["a"] == Num(2) && "b" in r && r["b"] == Num(3)
  {
    MergeDeepPlain(NestedDest(), NestedSource(fn), "a");
    MergeDeepPlain(NestedDest(), NestedSource(fn), "b");
  }

  /** ...and the array at `c` and the `null` at `f` copied. */
  lemma NestedExampleCopies(fn: nat)
    ensures var r := MergeDeep(NestedDest(), NestedSource(fn)).fields;
      "c" in r && r["c"] == Arr([Str("x"), Str("y"), Str("z")]) && "f" in r && r["f"] == Null
  {
    MergeDeepPlain(NestedDest(), NestedSource(fn), "c");
    MergeDeepPlain(NestedDest(), NestedSource(fn), "f");
  }

  /** An object with exactly the expected keys and values is the expected result. */
  lemma IsNestedExpected(r: map<string, Val>, fn: nat)
    requires r.Keys == {"a", "b", "c", "d", "f", "g"}
    requires r["a"] == Num(2) && r["b"] == Num(3) && r["c"] == Arr([Str("x"), Str("y"), Str("z")]) && r["f"] == Null
    requires r["d"] == Obj(map["fn" := Fn(fn)]) && r["g"] == Obj(map["foo" := Str("bar")])
    ensures Obj(r) == NestedExpected(fn)
  {
    assert r == NestedExpected(fn).fields;
  }

  /** The nested example: a number overwritten, new keys added, an array copied,
      an object replacing `null` and `[]`, an `undefined` skipped, a `null` copied
      and a function kept by identity. */
  lemma MergesNestedProperties(fn: nat)
    ensures MergeDeep(NestedDest(), NestedSource(fn)) == NestedExpected(fn)
  {
    var r := MergeDeep(NestedDest(), NestedSource(fn));
    NestedExampleKeys(fn);
    NestedExampleObjects(fn);
    NestedExampleNumbers(fn);
    NestedExampleCopies(fn);
    IsNestedExpected(r.fields, fn);
  }
}
