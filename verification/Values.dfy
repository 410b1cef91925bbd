/** Values shared by every component: optional results, JSON value trees, and Go's open property maps. */
module Values {

  datatype Option<+T> = None | Some(value: T)

  datatype Result<+T, +E> = Ok(value: T) | Err(error: E)

  /** The number 1 in the units of Json.Num. */
  const ONE: nat := Pow2(1074)

  function Pow2(n: nat): (p: nat)
    ensures p > 0
  {
    if n == 0 then 1 else 2 * Pow2(n - 1)
  }

  /** A decoded JSON value. Object key order is not part of the value. Every finite float64 is a whole multiple
      of 2^-1074, so a number is that multiple: equality and order are those of the numbers. */
  datatype Json =
    | Null
    | Bool(b: bool)
    | Num(units: int)
    | Str(s: string)
    | Arr(items: seq<Json>)
    | Obj(fields: map<string, Json>)

  /** A Go `map[string]any`. A nil map and an empty one both have length 0 and differ only when encoded. */
  datatype GoMap = NilMap | Props(m: map<string, Json>) {
    function Entries(): map<string, Json> {
      if NilMap? then map[] else m
    }

    predicate IsEmpty() {
      Entries() == map[]
    }

    /** Reading a missing key, or any key of a nil map, yields nothing. */
    function Get(key: string): Option<Json> {
      if key in Entries() then Some(Entries()[key]) else None
    }

    /** The idiom `v, _ := m[key].(string)`. */
    function GetString(key: string): string {
      match Get(key)
      case Some(Str(s)) => s
      case _ => ""
    }
  }

  /** Member lookup `v.key`; undefined when `v` is not an object or has no such key. */
  function Member(v: Option<Json>, key: string): Option<Json> {
    if v.Some? && v.value.Obj? && key in v.value.fields then Some(v.value.fields[key]) else None
  }

  function At2(v: Json, a: string, b: string): Option<Json> {
    Member(Member(Some(v), a), b)
  }

  function At3(v: Json, a: string, b: string, c: string): Option<Json> {
    Member(At2(v, a, b), c)
  }
}
