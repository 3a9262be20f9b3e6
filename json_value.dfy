/**
 * JSON-like values as the watcher receives them from the extraction and
 * mapping services (the result of `response.json()`), together with the two
 * Python operations the core applies to them: `dict.get` and truthiness.
 *
 * A `JObject` stands for a Python dict: its fields are kept in insertion
 * order, and the keys of a dict built by a JSON decoder are distinct.
 * A JSON number with a fraction or an exponent decodes to a float, kept here
 * as its exact real value (`JFloat`).
 */
module JsonValue {
  import opened Wrappers

  datatype Json =
    | JNull
    | JBool(b: bool)
    | JInt(n: int)
    | JFloat(x: real)
    | JStr(s: string)
    | JList(items: seq<Json>)
    | JObject(fields: seq<(string, Json)>)

  type Fields = seq<(string, Json)>

  /** `k in d` for a dict given by its (key, value) pairs. */
  predicate HasKey<V>(fs: seq<(string, V)>, k: string)
  {
    exists i :: 0 <= i < |fs| && fs[i].0 == k
  }

  /** The keys of a dict are pairwise distinct. */
  predicate DistinctKeys<V>(fs: seq<(string, V)>)
  {
    forall i, j :: 0 <= i < j < |fs| ==> fs[i].0 != fs[j].0
  }

  /** The value stored under `k`, or `None` when `k` is not a key. */
  function Lookup<V(==)>(fs: seq<(string, V)>, k: string): (r: Option<V>)
    ensures r.None? <==> !HasKey(fs, k)
    ensures r.Some? ==> exists i :: 0 <= i < |fs| && fs[i] == (k, r.value)
  {
    if fs == [] then None
    else if fs[0].0 == k then Some(fs[0].1)
    else
      var r := Lookup(fs[1..], k);
      assert forall i :: 0 < i < |fs| ==> fs[i] == fs[1..][i - 1];
      r
  }

  /** Python's `d.get(k, default)`: the default only when the key is absent. */
  function GetOr(fs: Fields, k: string, default: Json): (r: Json)
    ensures !HasKey(fs, k) ==> r == default
    ensures HasKey(fs, k) ==> Lookup(fs, k) == Some(r)
  {
    match Lookup(fs, k)
    case Some(v) => v
    case None => default
  }

  /** Python's `d.get(k)`: a missing key reads as `None`. */
  function Get(fs: Fields, k: string): Json
  {
    GetOr(fs, k, JNull)
  }

  /** Python's `bool(v)`: None, False, 0, 0.0, "", [] and {} are falsy. */
  predicate Truthy(v: Json)
  {
    match v
    case JNull => false
    case JBool(b) => b
    case JInt(n) => n != 0
    case JFloat(x) => x != 0.0
    case JStr(s) => s != ""
    case JList(xs) => xs != []
    case JObject(fs) => fs != []
  }

  /** The keys of a dict, in order. */
  function Keys<V>(fs: seq<(string, V)>): (ks: seq<string>)
    ensures |ks| == |fs|
    ensures forall i :: 0 <= i < |fs| ==> ks[i] == fs[i].0
  {
    if fs == [] then [] else [fs[0].0] + Keys(fs[1..])
  }
}
