/** JSON values as the two languages' parsers return them; the order of an object's members is not kept. */
module JsonValues {
  import opened Options

  datatype Json =
    | Null
    | Bool(flag: bool)
    | Num(number: real)
    | Str(text: string)
    | Arr(items: seq<Json>)
    | Obj(members: map<string, Json>)

  function Member(m: map<string, Json>, key: string): Option<Json> {
    if key in m then Some(m[key]) else None
  }

  function TextMember(m: map<string, Json>, key: string): Option<string> {
    match Member(m, key)
    case Some(Str(text)) => Some(text)
    case _ => None
  }

  /** `dict.get(key, default)` */
  function Get(m: map<string, Json>, key: string, default: Json): Json {
    if key in m then m[key] else default
  }

  /** Python's truth value of a parsed JSON value. */
  predicate Truthy(j: Json) {
    match j
    case Null => false
    case Bool(b) => b
    case Num(n) => n != 0.0
    case Str(s) => s != ""
    case Arr(items) => items != []
    case Obj(members) => members != map[]
  }

  /** Python's `j == n` for an integer n: a float may equal it, and `true` equals 1. */
  predicate EqualsNumber(j: Json, n: real) {
    match j
    case Num(x) => x == n
    case Bool(b) => (if b then 1.0 else 0.0) == n
    case _ => false
  }
}
