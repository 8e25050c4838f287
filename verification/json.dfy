/**
 * The JSON values that travel between the clients and the server, with the
 * two Python operations the server applies to a request body: truthiness and
 * the `key in value` test.
 */
module Json {
  import opened Wrappers
  import opened Text

  /** A decoded JSON document. Numbers are integers here. */
  datatype Json =
    | JNull
    | JBool(b: bool)
    | JNum(n: int)
    | JStr(s: string)
    | JArr(items: seq<Json>)
    | JObj(fields: map<string, Json>)

  /** Python's `not value` for the decoded document. */
  predicate Falsy(j: Json) {
    match j
    case JNull => true
    case JBool(b) => !b
    case JNum(n) => n == 0
    case JStr(s) => s == ""
    case JArr(items) => |items| == 0
    case JObj(fields) => |fields| == 0
  }

  /** Python's `key in value` for a string key; None where Python raises TypeError
      (numbers, booleans and None are not containers). */
  function PyIn(key: string, j: Json): (r: Option<bool>)
    ensures r.None? <==> (j.JNull? || j.JBool? || j.JNum?)
    ensures j.JObj? ==> r == Some(key in j.fields)
    ensures j.JArr? ==> (r == Some(true) <==> exists i :: 0 <= i < |j.items| && j.items[i] == JStr(key))
    ensures j.JStr? ==> (r == Some(true) <==> Contains(j.s, key))
  {
    match j
    case JObj(fields) => Some(key in fields)
    case JArr(items) => Some(JStr(key) in items)
    case JStr(s) => Some(Contains(s, key))
    case _ => None
  }
}
