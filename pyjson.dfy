/** Decoded JSON values as Python code sees them after `response.json()`:
    truthiness, `dict.get`, and `str()` inside f-strings. */
module PyJson {
  import opened Wrappers
  import opened PyText

  /** A decoded JSON document (numbers are integers here). */
  datatype Json =
    | JNull
    | JBool(b: bool)
    | JInt(i: int)
    | JStr(s: string)
    | JList(items: seq<Json>)
    | JDict(fields: map<string, Json>)

  /** `bool(x)` of a decoded value. */
  predicate Truthy(j: Json) {
    match j
    case JNull => false
    case JBool(b) => b
    case JInt(i) => i != 0
    case JStr(s) => s != ""
    case JList(xs) => xs != []
    case JDict(m) => m != map[]
  }

  /** `bool(x)` of the result of `.get(key)`: a missing key yields `None`, which is falsy. */
  predicate TruthyOpt(o: Option<Json>) {
    o.Some? && Truthy(o.value)
  }

  /** `d.get(key)` on a value known to be a dict. */
  function Get(j: Json, key: string): (r: Option<Json>)
    requires j.JDict?
    ensures r.Some? <==> key in j.fields
    ensures r.Some? ==> r.value == j.fields[key]
  {
    if key in j.fields then Some(j.fields[key]) else None
  }

  /** `str(x)`, as an f-string renders it. `repr` stands for Python's rendering
      of lists and dicts, a library routine that is not part of this model. */
  function Str(j: Json, repr: Json -> string): string {
    match j
    case JNull => "None"
    case JBool(b) => if b then "True" else "False"
    case JInt(i) => Decimal(i)
    case JStr(s) => s
    case _ => repr(j)
  }
}
