/**
 * The JSON values that travel in request bodies, envelopes and payloads,
 * with the Python truthiness the handlers test them with.
 */
module JsonValue {

  datatype Json =
    | JNull
    | JBool(b: bool)
    | JInt(i: int)
    | JStr(s: string)
    | JArr(items: seq<Json>)
    | JObj(fields: map<string, Json>)

  /** `bool(v)` in Python: None, False, 0, "", [] and {} are falsy. */
  predicate Truthy(j: Json)
  {
    match j
    case JNull => false
    case JBool(b) => b
    case JInt(i) => i != 0
    case JStr(s) => s != ""
    case JArr(xs) => xs != []
    case JObj(m) => m != map[]
  }

  /** `d.get(key, default)`. */
  function Get(m: map<string, Json>, key: string, default: Json): (r: Json)
    ensures key in m ==> r == m[key]
    ensures key !in m ==> r == default
  {
    if key in m then m[key] else default
  }

  /** Values Python can use as dictionary keys or set members: not lists or dicts. */
  predicate Hashable(j: Json)
  {
    !j.JArr? && !j.JObj?
  }

  /** Python's `True == 1` and `False == 0` hash alike, so they share one dictionary entry. */
  function HashKey(j: Json): (k: Json)
    ensures !k.JBool?
    ensures Hashable(j) ==> Hashable(k)
    ensures j.JStr? ==> k == j
  {
    match j
    case JBool(b) => JInt(if b then 1 else 0)
    case _ => j
  }
}
