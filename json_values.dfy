/** Decoded JSON documents as Python sees them after `json.load`. */
module JsonValues {
  import opened Decimal

  /** A decoded JSON value: None, bool, int, str, list or dict. */
  datatype Json =
    | Null
    | Bool(b: bool)
    | Int(i: int)
    | Str(s: string)
    | Arr(items: seq<Json>)
    | Obj(fields: Object)

  /** A decoded JSON object (a Python dict with string keys). */
  type Object = map<string, Json>

  /** Python truthiness: None, False, 0, "", [] and {} are false, everything else is true. */
  predicate Truthy(j: Json) {
    match j
    case Null => false
    case Bool(b) => b
    case Int(i) => i != 0
    case Str(s) => s != ""
    case Arr(xs) => xs != []
    case Obj(m) => m != map[]
  }

  /** `m.get(k)`: the stored value, or None when the key is absent. */
  function Get(m: Object, k: string): (v: Json)
    ensures k in m ==> v == m[k]
    ensures k !in m ==> v == Null
  {
    if k in m then m[k] else Null
  }

  /** `m.get(k, d)`: the stored value (even an explicit null), or `d` when the key is absent. */
  function GetOr(m: Object, k: string, d: Json): (v: Json)
    ensures k in m ==> v == m[k]
    ensures k !in m ==> v == d
  {
    if k in m then m[k] else d
  }

  /** `str(v)` as an f-string or the csv module renders a value; `repr` of a list or dict is the given function. */
  function PyStr(containerRepr: Json -> string, v: Json): (s: string)
    ensures v.Str? ==> s == v.s
    ensures v.Int? && v.i >= 0 ==> s == Digits(v.i) && Decode(s) == v.i
  {
    match v
    case Null => "None"
    case Bool(b) => if b then "True" else "False"
    case Int(i) => if i < 0 then "-" + Digits(-i) else DecodeDigits(i); Digits(i)
    case Str(s) => s
    case _ => containerRepr(v)
  }
}
