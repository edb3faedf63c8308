/**
 * A decoded JSON document as `resp.json()` hands it to the fetch functions,
 * together with the few pieces of Python semantics they rely on: truthiness,
 * `isinstance(v, (int, float))`, `dict.get` and `float(v)`.
 */
module Json {
  import opened Wrappers
  import Numeral

  /** JSON integers and floats are both `JNum`; a JSON object is a Python dict. */
  datatype Json =
    | JNull
    | JBool(b: bool)
    | JNum(n: real)
    | JStr(s: string)
    | JArr(items: seq<Json>)
    | JObj(fields: map<string, Json>)

  /** Python's `bool(v)`: None, False, 0, "", [] and {} are falsy. */
  predicate Truthy(v: Json) {
    match v
    case JNull => false
    case JBool(b) => b
    case JNum(n) => n != 0.0
    case JStr(s) => s != ""
    case JArr(items) => items != []
    case JObj(fields) => fields != map[]
  }

  /** `isinstance(v, (int, float))`; a JSON boolean decodes to a Python bool, which is an int. */
  predicate IsNumber(v: Json) {
    v.JNum? || v.JBool?
  }

  /** `m.get(k, default)` on a dict. */
  function Get(m: map<string, Json>, k: string, default: Json): Json {
    if k in m then m[k] else default
  }

  /** The last element of a non-empty list, Python's `xs[-1]`. */
  function Last(items: seq<Json>): Json
    requires |items| > 0
  {
    items[|items| - 1]
  }

  /** Python's `float(v)`; `None` where it raises (None, lists, dicts, non-numeric strings). */
  function ToFloat(v: Json): (r: Option<real>)
    ensures r.Some? <==> IsNumber(v) || (v.JStr? && Numeral.ParseFloat(v.s).Some?)
    ensures v.JNum? ==> r == Some(v.n)
    ensures v.JBool? ==> r == Some(if v.b then 1.0 else 0.0)
  {
    match v
    case JNum(n) => Some(n)
    case JBool(b) => Some(if b then 1.0 else 0.0)
    case JStr(s) => Numeral.ParseFloat(s)
    case _ => None
  }
}
