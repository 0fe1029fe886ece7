/** JSON values as the JSON-RPC responses deliver them after decoding.
    Objects are maps: Python's decoder keeps the last of duplicate keys, and
    nothing in the model depends on key order. Numbers are integers only. */
module JsonValue {
  import opened Wrappers
  import opened Numerals

  datatype Json =
    | JNull
    | JBool(b: bool)
    | JNum(n: int)
    | JStr(s: string)
    | JArr(items: seq<Json>)
    | JObj(fields: map<string, Json>)

  /** `obj[key]` on a decoded value: defined only when the value is an object
      holding that key (a list, string or number raises, a missing key raises
      KeyError). */
  function Field(j: Json, key: string): (r: Option<Json>)
    ensures r.Some? <==> j.JObj? && key in j.fields
    ensures r.Some? ==> r.value == j.fields[key]
  {
    match j
    case JObj(m) => if key in m then Some(m[key]) else None
    case _ => None
  }

  /** Reads a QUANTITY field back as `int(field, 16)` would. */
  function QuantityField(j: Json, key: string): Option<int>
  {
    match Field(j, key)
    case Some(JStr(s)) => ParseHex(s)
    case _ => None
  }

  /** A field written as `hex(n)` reads back as `n`. */
  lemma QuantityRoundTrip(j: Json, key: string, n: int)
    requires Field(j, key) == Some(JStr(Hex(n)))
    ensures QuantityField(j, key) == Some(n)
  {
    HexRoundTrip(n);
  }
}
