/** JSON values as Python's json module and Go's encoding/json see them; key order is not kept. */
module Json {
  datatype Json =
    | Null
    | Bool(b: bool)
    | Int(n: int)
    | Float(r: real)
    | Str(s: string)
    | Arr(items: seq<Json>)
    | Obj(fields: map<string, Json>)

  /** Python truth value. */
  predicate Truthy(j: Json) {
    match j
    case Null => false
    case Bool(b) => b
    case Int(n) => n != 0
    case Float(r) => r != 0.0
    case Str(s) => s != []
    case Arr(xs) => xs != []
    case Obj(m) => m != map[]
  }

  /** The values that count as false. */
  lemma FalsyValues(j: Json)
    ensures !Truthy(j) <==>
      || j == Null || j == Bool(false) || j == Int(0) || j == Float(0.0)
      || j == Str("") || j == Arr([]) || j == Obj(map[])
  {}

  /** d.get(key, fallback) on the fields of an object. */
  function Get(m: map<string, Json>, key: string, fallback: Json): Json {
    if key in m then m[key] else fallback
  }

  /** The text of a string field, "" when it is absent or not a string. */
  function StrField(m: map<string, Json>, key: string): string {
    if key in m && m[key].Str? then m[key].s else ""
  }
}
