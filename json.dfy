/**
 * The parsed JSON that the Elasticsearch client returns and the parsed YAML
 * configuration values, as one tree. An object is an ordered entry sequence,
 * since a Python dict iterates its keys in insertion order.
 */
module Json {
  import opened Wrappers
  import OrderedMap

  datatype Json =
    | JNull
    | JBool(b: bool)
    | JInt(n: int)
    | JStr(s: string)
    | JList(items: seq<Json>)
    | JObj(fields: OrderedMap.Entries<Json>)

  /**
   * `j[k]` where `j` should be a dict: None where Python raises (a KeyError
   * for a missing key, a TypeError when `j` is not a dict).
   */
  function Field(j: Json, k: string): (r: Option<Json>)
    ensures r.Some? <==> j.JObj? && k in OrderedMap.Keys(j.fields)
    ensures j.JObj? ==> r == OrderedMap.Get(j.fields, k)
    ensures r.Some? ==> r.value < j
  {
    if !j.JObj? then None
    else match OrderedMap.IndexOf(j.fields, k)
      case None => None
      case Some(i) => Some(j.fields[i].1)
  }

  /** Python's truth value of a parsed JSON value (`if x:`). */
  predicate Truthy(j: Json)
  {
    match j
    case JNull => false
    case JBool(b) => b
    case JInt(n) => n != 0
    case JStr(s) => s != []
    case JList(items) => items != []
    case JObj(fields) => fields != []
  }
}
