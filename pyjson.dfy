/** Decoded JSON values as Python holds them after `response.json()`, with the parts of
    Python's semantics the tide code depends on: truthiness, `a or b`, `dict.get` and `float()`. */
module PyJson {
  import opened Wrappers
  import opened PyText

  /** JSON integers and floats are both numbers here; `null` is Python's None. */
  datatype Json =
    | Null
    | Bool(b: bool)
    | Num(n: real)
    | Str(s: string)
    | List(items: seq<Json>)
    | Obj(fields: map<string, Json>)

  /** Python truthiness: None, False, 0, "" and empty containers are false. */
  predicate Truthy(v: Json)
  {
    match v
    case Null => false
    case Bool(b) => b
    case Num(n) => n != 0.0
    case Str(s) => s != ""
    case List(xs) => xs != []
    case Obj(m) => m != map[]
  }

  /** Python's `a or b`: the first operand when it is truthy, else the second. */
  function Or(a: Json, b: Json): (r: Json)
    ensures r == a || r == b
    ensures Truthy(r) <==> Truthy(a) || Truthy(b)
    ensures Truthy(a) ==> r == a
    ensures !Truthy(a) ==> r == b
  {
    if Truthy(a) then a else b
  }

  /** `d.get(key)` on a dict: the value, or None when the key is absent. */
  function Get(d: map<string, Json>, key: string): (r: Json)
    ensures key !in d ==> r == Null
    ensures r != Null ==> key in d && d[key] == r
    ensures key in d ==> r == d[key]
  {
    if key in d then d[key] else Null
  }

  /** Python's `float(v)`, with an exception (TypeError or ValueError) as None:
      numbers convert, booleans become 1.0 and 0.0, strings are parsed,
      None, lists and dicts are refused. */
  function ToFloat(v: Json): (r: Option<real>)
    ensures v.Num? ==> r == Some(v.n)
    ensures (v.Null? || v.List? || v.Obj?) ==> r == None
    ensures v.Str? ==> r == ParseFloat(v.s)
    ensures v.Bool? ==> r == Some(if v.b then 1.0 else 0.0)
  {
    match v
    case Num(n) => Some(n)
    case Bool(b) => Some(if b then 1.0 else 0.0)
    case Str(s) => ParseFloat(s)
    case _ => None
  }
}
