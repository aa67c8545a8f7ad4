/**
 * JSON values as they arrive from the trace API and as they are stored in a
 * session, together with Python's truthiness and `str()` on them.
 */
module JsonValues {
  import opened Wrappers

  /** A decoded JSON document. Numbers are integers only (floats are not modelled). */
  datatype Json =
    | JNull
    | JBool(b: bool)
    | JNumber(n: int)
    | JString(s: string)
    | JArray(elems: seq<Json>)
    | JObject(fields: map<string, Json>)

  /** Python's truth value of the decoded object: `None`, `False`, `0`, `""`, `[]`, `{}` are false. */
  predicate Truthy(j: Json) {
    match j
    case JNull => false
    case JBool(b) => b
    case JNumber(n) => n != 0
    case JString(s) => s != ""
    case JArray(e) => e != []
    case JObject(f) => f != map[]
  }

  /** `d.get(key)` followed by a truth test: the key is present and its value is truthy. */
  predicate TruthyField(j: Option<Json>) {
    j.Some? && Truthy(j.value)
  }

  /** `dict.get(key)` on a JSON object: `None` for an absent key. */
  function Get(fields: map<string, Json>, key: string): (r: Option<Json>)
    ensures r.Some? <==> key in fields
    ensures r.Some? ==> r.value == fields[key]
  {
    if key in fields then Some(fields[key]) else None
  }

  /**
   * Python's `str(x)`. A string is its own text; for every other value the text
   * is produced by `render`, which stands for the interpreter's `repr`-style printing
   * and is not modelled.
   */
  function Show(j: Json, render: Json -> string): (r: string)
    ensures j.JString? ==> r == j.s
  {
    if j.JString? then j.s else render(j)
  }
}
