/** A JSON-like value as Python's json module produces it: objects keep the
    order of their members (Python dicts iterate in insertion order), so an
    object is a sequence of key/value pairs, looked up by first match. */
module Json {
  import opened Wrappers
  import Text

  datatype Json =
    | JNull
    | JBool(b: bool)
    | JNum(n: int)
    | JStr(s: string)
    | JArr(items: seq<Json>)
    | JObj(fields: seq<(string, Json)>)

  /** The keys of an object, in iteration order. */
  function Keys(fields: seq<(string, Json)>): (ks: seq<string>)
    ensures |ks| == |fields|
    ensures forall i :: 0 <= i < |fields| ==> ks[i] == fields[i].0
  {
    if fields == [] then [] else [fields[0].0] + Keys(fields[1..])
  }

  /** `key in d`. */
  predicate Has(fields: seq<(string, Json)>, key: string) {
    key in Keys(fields)
  }

  /** d.get(key): the value stored under key, None when it is absent. */
  function Get(fields: seq<(string, Json)>, key: string): (r: Option<Json>)
    ensures r.Some? <==> Has(fields, key)
  {
    if fields == [] then None
    else if fields[0].0 == key then Some(fields[0].1)
    else Get(fields[1..], key)
  }

  /** d.get(key, default). */
  function GetOr(fields: seq<(string, Json)>, key: string, default: Json): (r: Json)
    ensures !Has(fields, key) ==> r == default
  {
    match Get(fields, key)
    case Some(v) => v
    case None => default
  }

  /** Python truthiness of a value: None, False, 0, "", [] and {} are false. */
  predicate Truthy(j: Json) {
    match j
    case JNull => false
    case JBool(b) => b
    case JNum(n) => n != 0
    case JStr(s) => s != []
    case JArr(items) => items != []
    case JObj(fields) => fields != []
  }

  /** str() of a scalar, as an f-string renders it; None for a list or a dict,
      whose Python rendering this model does not reproduce. */
  function Str(j: Json): (r: Option<string>)
    ensures j.JStr? ==> r == Some(j.s)
    ensures r.None? <==> (j.JArr? || j.JObj?)
  {
    match j
    case JNull => Some("None")
    case JBool(b) => Some(if b then "True" else "False")
    case JNum(n) => Some(Text.IntToString(n))
    case JStr(s) => Some(s)
    case JArr(_) => None
    case JObj(_) => None
  }
}
