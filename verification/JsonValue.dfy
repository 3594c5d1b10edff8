/** Decoded JSON and Python's view of it. */
module JsonValue {
  import opened Common

  /** JSON without NaN and infinities. */
  datatype Json =
    | Null | Bool(b: bool) | Int(i: int) | Real(r: real) | Str(s: string)
    | Arr(items: seq<Json>) | Obj(fields: map<string, Json>)

  function Get(m: map<string, Json>, k: string): Option<Json> {
    if k in m then Some(m[k]) else None
  }

  /** Python's `m.get(k)`: a missing key reads like null. */
  function Lookup(m: map<string, Json>, k: string): Json {
    if k in m then m[k] else Null
  }

  predicate NonBlankText(v: Json) {
    v.Str? && !Blank(v.s)
  }

  /** The value up to Python's `==`: true, 1 and 1.0 are the same number. */
  function Canon(v: Json): Json
    decreases v
  {
    match v
    case Bool(b) => Real(if b then 1.0 else 0.0)
    case Int(i) => Real(i as real)
    case Arr(items) => Arr(seq(|items|, i requires 0 <= i < |items| => Canon(items[i])))
    case Obj(fields) => Obj(map k | k in fields :: Canon(fields[k]))
    case _ => v
  }

  predicate EqualsNumber(v: Json, n: int) {
    Canon(v) == Real(n as real)
  }
}
