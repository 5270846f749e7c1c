/** The JavaScript values that the utilities receive and return, as plain data. */
module JsValue {

  /** A JavaScript value. Objects are maps from property name to value (property
      order is not kept); a function is known only by its identity, so two `Fn`
      values are equal exactly when they are the same function object. */
  datatype Val =
    | Undef
    | Null
    | Bool(b: bool)
    | Num(n: int)
    | Str(s: string)
    | Arr(items: seq<Val>)
    | Obj(fields: map<string, Val>)
    | Fn(id: nat)

  /** JavaScript truthiness: `undefined`, `null`, `false`, `0` and `""` are falsy,
      everything else (every array, object and function included) is truthy. */
  predicate Truthy(v: Val)
  {
    match v
    case Undef => false
    case Null => false
    case Bool(b) => b
    case Num(n) => n != 0
    case Str(s) => s != ""
    case _ => true
  }

  /** The argument at position `i` of a call, `undefined` when the caller passed fewer. */
  function Arg(args: seq<Val>, i: nat): Val
  {
    if i < |args| then args[i] else Undef
  }
}
