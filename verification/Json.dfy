/** JSON values as the program sees them after decoding. */
module Json {

  datatype Json =
    | Null
    | Bool(b: bool)
    | Int(n: int)
    | Real(r: real)
    | Str(s: string)
    | List(elems: seq<Json>)
    | Obj(fields: Object)

  type Object = map<string, Json>

  /** `isinstance(j, int)`: a bool is an int. */
  predicate IsInt(j: Json) {
    j.Int? || j.Bool?
  }

  function IntValue(j: Json): int
    requires IsInt(j)
  {
    match j
    case Int(n) => n
    case Bool(b) => if b then 1 else 0
  }

  /** `j == n`: numbers compare by value, whatever their type. */
  predicate EqualsInt(j: Json, n: int) {
    match j
    case Int(m) => m == n
    case Bool(b) => (if b then 1 else 0) == n
    case Real(r) => r == n as real
    case _ => false
  }

  /** `bool(j)`. */
  predicate Truthy(j: Json) {
    match j
    case Null => false
    case Bool(b) => b
    case Int(n) => n != 0
    case Real(r) => r != 0.0
    case Str(s) => s != ""
    case List(elems) => elems != []
    case Obj(fields) => fields != map[]
  }

  /** `d.get(key)`; None stands for a missing key and for an explicit null. */
  function Get(d: Object, key: string): Json {
    if key in d then d[key] else Null
  }
}
