/**
 * JSON values as `json.loads` returns them. The parser itself is not modelled:
 * operations that call `json.loads` take it as a parameter
 * `loads: string -> Option<Json>` (None where Python raises JSONDecodeError).
 */
module Json {
  import opened Wrappers

  datatype Json =
    | JNull
    | JBool(b: bool)
    | JNum(n: real)
    | JStr(s: string)
    | JArr(items: seq<Json>)
    | JObj(fields: map<string, Json>)

  /** `obj.get(key, default)`. */
  function Get(fields: map<string, Json>, key: string, default: Json): Json {
    if key in fields then fields[key] else default
  }

  /** The value Python uses in `-` and `<`: an int/float, or a bool as 0/1.
      None where Python raises TypeError. */
  function AsNumber(j: Json): (r: Option<real>)
    ensures j.JNum? ==> r == Some(j.n)
    ensures !j.JNum? && !j.JBool? ==> r.None?
  {
    match j
    case JNum(n) => Some(n)
    case JBool(b) => Some(if b then 1.0 else 0.0)
    case _ => None
  }

  /** A text field: the JSON string, or `default` for any other value. */
  function TextOr(j: Json, default: string): string {
    if j.JStr? then j.s else default
  }

  /** An optional text field (`obj.get("speaker")`): Some for a JSON string, None otherwise. */
  function OptText(j: Json): Option<string> {
    if j.JStr? then Some(j.s) else None
  }

  /** Python truthiness of a JSON value. */
  predicate Truthy(j: Json) {
    match j
    case JNull => false
    case JBool(b) => b
    case JNum(n) => n != 0.0
    case JStr(s) => s != ""
    case JArr(xs) => xs != []
    case JObj(m) => m != map[]
  }

  /** The elements seen by `for x in j: x.get(...)` when no exception is raised:
      a list of objects, or an empty dict / string (nothing to iterate).
      None where the loop raises (a non-iterable, or an element that is not a dict). */
  function ObjectsIn(j: Json): (r: Option<seq<map<string, Json>>>)
    ensures j.JArr? && r.Some? ==> |r.value| == |j.items|
    ensures j.JArr? && (forall i :: 0 <= i < |j.items| ==> j.items[i].JObj?) ==> r.Some?
  {
    match j
    case JArr(xs) =>
      if forall i :: 0 <= i < |xs| ==> xs[i].JObj?
      then Some(seq(|xs|, i requires 0 <= i < |xs| && xs[i].JObj? => xs[i].fields))
      else None
    case JObj(m) => if m == map[] then Some([]) else None
    case JStr(s) => if s == "" then Some([]) else None
    case _ => None
  }

  /** `result.get(key, [])` iterated as above; None when `result` is not a dict. */
  function ListField(result: Json, key: string): Option<seq<map<string, Json>>> {
    if result.JObj? then ObjectsIn(Get(result.fields, key, JArr([]))) else None
  }
}
