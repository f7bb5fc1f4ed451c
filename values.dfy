/**
 * The Python values the client handles: what `json.loads` produces from an
 * Imgur response body, and what callers pass as form fields.
 * Floating-point numbers are not modelled.
 */
module PyValues {
  import opened Wrappers

  datatype Value =
    | VNone
    | VBool(b: bool)
    | VInt(i: int)
    | VStr(s: string)
    | VList(items: seq<Value>)
      /** a JSON object, its members in the order they were decoded */
    | VDict(entries: seq<(string, Value)>)

  /** Python truthiness: `if v:` */
  predicate Truthy(v: Value) {
    match v
    case VNone => false
    case VBool(b) => b
    case VInt(i) => i != 0
    case VStr(s) => s != ""
    case VList(xs) => xs != []
    case VDict(es) => es != []
  }

  /**
   * `key in d` / `d[key]` on a decoded JSON object. A repeated member
   * keeps its last value, as `json.loads` does.
   */
  function Lookup(entries: seq<(string, Value)>, key: string): (r: Option<Value>)
    ensures r.None? <==> forall k :: 0 <= k < |entries| ==> entries[k].0 != key
    ensures r.Some? ==> exists k :: 0 <= k < |entries| && entries[k] == (key, r.value)
                          && forall j :: k < j < |entries| ==> entries[j].0 != key
  {
    if entries == [] then None
    else if entries[|entries| - 1].0 == key then Some(entries[|entries| - 1].1)
    else Lookup(entries[..|entries| - 1], key)
  }
}
