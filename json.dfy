/** JSON values as the exporter sees them after `response.json()`: Python's
    None, bool, int, str, list and dict. A dict is an association list in
    insertion order, because Python dicts iterate in insertion order and the
    exporter's dict comprehension keeps that order. */
module JsonValues {
  import opened Errors

  datatype Json =
    | JNull
    | JBool(b: bool)
    | JNum(n: int)
    | JStr(s: string)
    | JArr(items: seq<Json>)
    | JObj(fields: seq<(string, Json)>)

  /** The keys of an object, in order. */
  function Keys(fields: seq<(string, Json)>): (ks: seq<string>)
    ensures |ks| == |fields|
    ensures forall i :: 0 <= i < |fields| ==> ks[i] == fields[i].0
  {
    if fields == [] then [] else [fields[0].0] + Keys(fields[1..])
  }

  /** No key occurs twice: the shape every Python dict has. */
  predicate UniqueKeys(fields: seq<(string, Json)>)
  {
    forall i, j :: 0 <= i < j < |fields| ==> fields[i].0 != fields[j].0
  }

  /** Every object at every depth has unique keys. */
  predicate WellFormed(j: Json)
  {
    match j
    case JArr(items) => forall x :: x in items ==> WellFormed(x)
    case JObj(fields) => UniqueKeys(fields) && forall kv :: kv in fields ==> WellFormed(kv.1)
    case _ => true
  }

  /** `d[key]` / `d.get(key)` on a dict: the value stored under the first
      occurrence of `key`, or None when the key is absent. */
  function Lookup(fields: seq<(string, Json)>, key: string): (r: Option<Json>)
    ensures r.None? <==> key !in Keys(fields)
    ensures r.Some? ==> exists i :: 0 <= i < |fields| && fields[i] == (key, r.value)
                                    && key !in Keys(fields[..i])
  {
    if fields == [] then None
    else if fields[0].0 == key then Some(fields[0].1)
    else
      var r := Lookup(fields[1..], key);
      if r.Some? then
        ghost var i :| 0 <= i < |fields[1..]| && fields[1..][i] == (key, r.value) && key !in Keys(fields[1..][..i]);
        assert fields[i + 1] == (key, r.value);
        assert Keys(fields[..i + 1]) == [fields[0].0] + Keys(fields[1..][..i]);
        r
      else r
  }
}
