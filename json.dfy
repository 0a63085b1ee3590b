/** JSON values as Python's `json` module hands them to the handler, and the few
    Python operations the handler applies to them: truthiness (`if x`, `not x`),
    `dict.get` and `dict.keys()`.

    A Python dict keeps its keys in insertion order, so an object is an ordered
    list of (key, value) fields. */
module Json {

  datatype Option<+T> = None | Some(value: T)

  /** null, true/false, integers, strings, lists and dicts */
  datatype Json =
    | JNull
    | JBool(b: bool)
    | JInt(i: int)
    | JString(s: string)
    | JArray(elems: seq<Json>)
    | JObject(fields: seq<(string, Json)>)

  /** Python truthiness: None is false, a bool is itself, a number is true when
      non-zero, and a string, list or dict is true when non-empty. */
  predicate Truthy(j: Json)
    // exactly six values are falsy, and every other value is truthy
    ensures !Truthy(j) <==>
      j == JNull || j == JBool(false) || j == JInt(0) ||
      j == JString("") || j == JArray([]) || j == JObject([])
  {
    match j
    case JNull => false
    case JBool(b) => b
    case JInt(i) => i != 0
    case JString(s) => s != ""
    case JArray(elems) => elems != []
    case JObject(fields) => fields != []
  }

  /** `list(d.keys())`: the keys of a dict, in insertion order */
  function Keys(fields: seq<(string, Json)>): (ks: seq<string>)
    ensures |ks| == |fields|
    ensures forall i :: 0 <= i < |fields| ==> ks[i] == fields[i].0
  {
    if fields == [] then [] else [fields[0].0] + Keys(fields[1..])
  }

  /** A Python dict never holds the same key twice. */
  ghost predicate DistinctKeys(fields: seq<(string, Json)>) {
    forall i, j :: 0 <= i < j < |fields| ==> fields[i].0 != fields[j].0
  }

  /** `d.get(key)`: the value stored under `key`, or None when the key is absent.
      It finds the first field with that key, which for a dict (distinct keys)
      is the only one. */
  function Get(fields: seq<(string, Json)>, key: string): (r: Option<Json>)
    ensures r.None? <==> key !in Keys(fields)
    ensures r.Some? ==> (key, r.value) in fields
  {
    if fields == [] then None
    else if fields[0].0 == key then Some(fields[0].1)
    else Get(fields[1..], key)
  }

  /** `d.get(key, default)` */
  function GetDefault(fields: seq<(string, Json)>, key: string, default: Json): (r: Json)
    ensures key !in Keys(fields) ==> r == default
    ensures key in Keys(fields) ==> (key, r) in fields
  {
    match Get(fields, key)
    case Some(v) => v
    case None => default
  }

  /** In a dict, looking up a stored key gives back the value stored with it. */
  lemma {:induction false} GetStoredKey(fields: seq<(string, Json)>, i: nat)
    requires DistinctKeys(fields) && i < |fields|
    ensures Get(fields, fields[i].0) == Some(fields[i].1)
  {
    if i > 0 {
      assert fields[0].0 != fields[i].0;
      assert fields[1..][i - 1] == fields[i];
      GetStoredKey(fields[1..], i - 1);
    }
  }
}
