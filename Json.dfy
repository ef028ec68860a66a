/**
 * Decoded JSON values, as `json.loads` hands them to the relays and the
 * tools, and how a Python `for` loop walks one of them.
 */
module Json {
  import opened Common

  /** Numbers are kept as integers; the relays never compute with them. */
  datatype Json =
    | JNull
    | JBool(b: bool)
    | JNum(n: int)
    | JStr(s: string)
    | JArr(items: seq<Json>)
    | JObj(fields: map<string, Json>)

  /**
   * What `for x in v` walks over when every element is then used as an
   * object, or `None` when the loop raises before its first use of an element.
   * An array yields its items and a string its one-character strings. Scalars
   * are not iterable. An object yields its keys; since a key is a string, the
   * first use of it as an object raises, so a non-empty object gives `None`
   * (the order of keys is not modelled).
   */
  function Elements(v: Json): (r: Option<seq<Json>>)
    ensures v.JArr? ==> r == Some(v.items)
    ensures r.Some? && !v.JArr? ==> forall k :: 0 <= k < |r.value| ==> r.value[k].JStr?
  {
    match v
    case JArr(items) => Some(items)
    case JStr(s) => Some(seq(|s|, i requires 0 <= i < |s| => JStr([s[i]])))
    case JObj(fields) => if |fields| == 0 then Some([]) else None
    case _ => None
  }
}
