/** The parts of Rego's semantics the shipped rules depend on. */
module Rego {
  import opened Values

  /** What evaluating a document gives: a value, nothing, or a conflict error. */
  datatype Eval = Value(v: Json) | Undefined | Conflict

  /** An expression fails only when it is undefined or `false`; `""`, `0` and `null` hold. */
  predicate Holds(v: Option<Json>) {
    v.Some? && v.value != Bool(false)
  }

  /** `collection[key]` for the key types that can hit: an object by string, an array by whole number. */
  function Index(v: Option<Json>, key: Json): Option<Json> {
    if v.None? then None
    else match (v.value, key)
      case (Obj(_), Str(k)) => Member(v, k)
      case (Arr(items), Num(n)) =>
        if n % ONE == 0 && 0 <= n / ONE < |items| then Some(items[n / ONE]) else None
      case _ => None
  }

  /** `some x in collection`: the elements of an array, the values of an object, nothing otherwise. */
  function Elements(v: Option<Json>): set<Json> {
    if v.None? then {}
    else match v.value
      case Arr(items) => set x | x in items
      case Obj(fields) => fields.Values
      case _ => {}
  }

  /** Values of different types compare by type: null < boolean < number < string < array < object. */
  function TypeRank(v: Json): nat {
    match v
    case Null => 0
    case Bool(_) => 1
    case Num(_) => 2
    case Str(_) => 3
    case Arr(_) => 4
    case Obj(_) => 5
  }

  /** `v > n` for a number n of units. */
  predicate GreaterThan(v: Json, units: int) {
    if v.Num? then v.units > units else TypeRank(v) > 2
  }

  /** Two groups of definitions of one complete rule: those that are defined must agree. */
  function Both(x: Eval, y: Eval): Eval {
    match (x, y)
    case (Undefined, _) => y
    case (_, Undefined) => x
    case (Value(a), Value(b)) => if a == b then x else Conflict
    case _ => Conflict
  }

  /** The default stands in when no definition is defined. */
  function OrDefault(x: Eval, default_: Json): Eval {
    if x.Undefined? then Value(default_) else x
  }

  function Defined(v: Option<Json>): Eval {
    if v.Some? then Value(v.value) else Undefined
  }
}
