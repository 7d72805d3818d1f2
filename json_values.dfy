/**
 * JSON documents as Python holds them after `json.loads`, with Python's truthiness,
 * `dict.get` and `float()` as the service applies them to extracted invoice fields.
 */
module JsonValues {
  import opened Wrappers

  /** A JSON value; numbers are kept exactly as reals. */
  datatype Json =
    | JNull
    | JBool(b: bool)
    | JNum(n: real)
    | JStr(s: string)
    | JArr(items: seq<Json>)
    | JObj(fields: map<string, Json>)

  /** The empty object `{}`. */
  const EmptyObject: Json := JObj(map[])

  /** Python truthiness: `None`, `False`, zero, `""`, `[]` and `{}` are false. */
  predicate Truthy(j: Json) {
    match j
    case JNull => false
    case JBool(b) => b
    case JNum(n) => n != 0.0
    case JStr(s) => s != ""
    case JArr(items) => items != []
    case JObj(fields) => fields != map[]
  }

  /** Python's `a or b`. */
  function Or(a: Json, b: Json): (r: Json)
    ensures Truthy(a) ==> r == a
    ensures !Truthy(a) ==> r == b
  {
    if Truthy(a) then a else b
  }

  /** `d.get(key)`: the value under `key`, or `None` when the key is missing. */
  function Get(d: map<string, Json>, key: string): (r: Json)
    ensures key in d ==> r == d[key]
    ensures key !in d ==> r == JNull
  {
    if key in d then d[key] else JNull
  }

  /**
   * `float(v or 0)`, the way the service reads an amount: a missing or falsy value counts
   * as 0, a number is itself, `True` is 1.0, a string goes through `parse` (Python's float
   * syntax, an external parameter here), and anything else raises (`None`).
   */
  function AmountOf(v: Json, parse: string -> Option<real>): (r: Option<real>)
    ensures !Truthy(v) ==> r == Some(0.0)
    ensures v.JNum? ==> r == Some(v.n)
    ensures v == JBool(true) ==> r == Some(1.0)
    ensures v.JStr? && v.s != "" ==> r == parse(v.s)
    ensures v.JArr? || v.JObj? ==> (r.Some? <==> !Truthy(v))
  {
    if !Truthy(v) then Some(0.0)
    else match v
      case JNum(n) => Some(n)
      case JBool(_) => Some(1.0)
      case JStr(s) => parse(s)
      case _ => None
  }
}
