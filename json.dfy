/**
 * The JSON values serde_json hands to a derived `Deserialize`, and the field
 * lookup a derived struct visitor performs on a JSON object: it walks every
 * entry, deserialises the value of a known key at its first occurrence,
 * rejects a second occurrence of that key, and skips unknown keys.
 */
module Json {

  /** A parsed JSON value. An object keeps its entries in text order, duplicates included. */
  datatype Json =
    | JNull
    | JBool(b: bool)
    | JNumber(n: int)
    | JString(s: string)
    | JArray(elems: seq<Json>)
    | JObject(entries: seq<(string, Json)>)

  /** What the walk over an object's entries found for one key. */
  datatype Lookup = Absent | Unique(value: Json) | Repeated

  /** Does `key` occur in the entry at index `i`? */
  predicate KeyAt(entries: seq<(string, Json)>, i: int, key: string)
  {
    0 <= i < |entries| && entries[i].0 == key
  }

  /**
   * The walk of a derived struct visitor over `entries`, for the field named `key`.
   * Absent exactly when no entry has the key, Repeated exactly when two do, and
   * otherwise Unique with the value of the one entry that has it.
   */
  function FindField(entries: seq<(string, Json)>, key: string): (r: Lookup)
    ensures r.Absent? <==> forall i :: 0 <= i < |entries| ==> !KeyAt(entries, i, key)
    ensures r.Repeated? <==> exists i, j :: 0 <= i < j < |entries| && KeyAt(entries, i, key) && KeyAt(entries, j, key)
    ensures r.Unique? ==> exists i :: 0 <= i < |entries| && entries[i] == (key, r.value)
  {
    if |entries| == 0 then Absent
    else
      var rest := FindField(entries[1..], key);
      assert forall i :: 1 <= i < |entries| ==> (KeyAt(entries, i, key) <==> KeyAt(entries[1..], i - 1, key));
      assert forall i :: 0 <= i < |entries| - 1 ==> (KeyAt(entries[1..], i, key) <==> KeyAt(entries, i + 1, key));
      if entries[0].0 != key then
        rest
      else
        assert KeyAt(entries, 0, key);
        if rest.Absent? then
          Unique(entries[0].1)
        else
          var j :| 0 <= j < |entries| - 1 && KeyAt(entries[1..], j, key);
          assert KeyAt(entries, j + 1, key);
          Repeated
  }
}
