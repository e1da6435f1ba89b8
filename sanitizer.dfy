/** `strip_metadata`: the recursive transform that removes the server's
    metadata keys from every object at every depth of a JSON value. */
module Sanitizer {
  import opened Errors
  import opened JsonValues

  /** The keys the exporter treats as server-internal metadata. */
  predicate IsMetadataKey(key: string)
  {
    key == "links" || key == "permissions" || key == "$type"
  }

  /** No metadata key anywhere in the value, inside arrays included. */
  predicate Clean(j: Json)
  {
    match j
    case JArr(items) => forall x :: x in items ==> Clean(x)
    case JObj(fields) => forall kv :: kv in fields ==> !IsMetadataKey(kv.0) && Clean(kv.1)
    case _ => true
  }

  /** strip_metadata: lists mapped element by element, dicts rebuilt without
      the metadata keys, every other value returned as it is. */
  function Strip(j: Json): (r: Json)
    ensures r.JArr? <==> j.JArr?
    ensures r.JObj? <==> j.JObj?
  {
    match j
    case JArr(items) => JArr(StripItems(items))
    case JObj(fields) => JObj(StripFields(fields))
    case _ => j
  }

  /** The list comprehension `[strip_metadata(item) for item in data]`. */
  function StripItems(items: seq<Json>): (r: seq<Json>)
    ensures |r| == |items|
    ensures forall i :: 0 <= i < |items| ==> r[i] == Strip(items[i])
  {
    if items == [] then [] else [Strip(items[0])] + StripItems(items[1..])
  }

  /** The dict comprehension: surviving keys in their original order, each
      mapped to its stripped value. */
  function StripFields(fields: seq<(string, Json)>): (r: seq<(string, Json)>)
    ensures |r| <= |fields|
    ensures forall kv :: kv in r ==> !IsMetadataKey(kv.0)
  {
    if fields == [] then []
    else
      var k, v := fields[0].0, fields[0].1;
      assert fields[0] in fields && v < fields[0];
      (if IsMetadataKey(k) then [] else [(k, Strip(v))]) + StripFields(fields[1..])
  }
}

module SanitizerProofs {
  import opened Errors
  import opened JsonValues
  import opened Sanitizer

  /** null, booleans, numbers and strings pass through unchanged. */
  lemma StripKeepsScalars(j: Json)
    requires !j.JArr? && !j.JObj?
    ensures Strip(j) == j
  {
  }

  /** A list becomes a list of the same length whose element i is the
      stripped element i. */
  lemma StripMapsLists(items: seq<Json>)
    ensures Strip(JArr(items)).JArr?
    ensures |Strip(JArr(items)).items| == |items|
    ensures forall i :: 0 <= i < |items| ==> Strip(JArr(items)).items[i] == Strip(items[i])
  {
  }

  /** Stripping an object works key by key: stripping a concatenation is the
      concatenation of the strips, so surviving keys keep their relative order. */
  lemma {:induction false} StripFieldsAppend(a: seq<(string, Json)>, b: seq<(string, Json)>)
    ensures StripFields(a + b) == StripFields(a) + StripFields(b)
  {
    if a == [] {
      assert a + b == b;
    } else {
      var k, v := a[0].0, a[0].1;
      var head := if IsMetadataKey(k) then [] else [(k, Strip(v))];
      assert (a + b)[0] == a[0];
      assert (a + b)[1..] == a[1..] + b;
      assert StripFields(a + b) == head + StripFields(a[1..] + b);
      assert StripFields(a) == head + StripFields(a[1..]);
      StripFieldsAppend(a[1..], b);
    }
  }

  /** A single key-value pair is dropped exactly when its key is metadata. */
  lemma StripFieldsSingle(k: string, v: Json)
    ensures StripFields([(k, v)]) == if IsMetadataKey(k) then [] else [(k, Strip(v))]
  {
  }

  /** Looking a key up in a stripped object: a metadata key is gone, any other
      key finds the stripped version of its original value, or nothing if it
      was absent. */
  lemma {:induction false} StripLookup(fields: seq<(string, Json)>, key: string)
    ensures Lookup(StripFields(fields), key) ==
      if IsMetadataKey(key) then None
      else match Lookup(fields, key)
        case None => None
        case Some(v) => Some(Strip(v))
  {
    if fields != [] {
      var k, v := fields[0].0, fields[0].1;
      StripLookup(fields[1..], key);
      if IsMetadataKey(k) {
        assert StripFields(fields) == StripFields(fields[1..]);
      } else {
        var rest := StripFields(fields[1..]);
        assert StripFields(fields) == [(k, Strip(v))] + rest;
        assert ([(k, Strip(v))] + rest)[1..] == rest;
      }
    }
  }

  /** Stripping removes the metadata keys at every depth. */
  lemma {:induction false} StripRemovesMetadata(j: Json)
    ensures Clean(Strip(j))
    decreases j
  {
    match j
    case JArr(items) =>
      forall x | x in StripItems(items)
        ensures Clean(x)
      {
        var i :| 0 <= i < |items| && StripItems(items)[i] == x;
        StripRemovesMetadata(items[i]);
      }
    case JObj(fields) =>
      StripFieldsRemoveMetadata(fields);
    case _ =>
  }

  lemma {:induction false} StripFieldsRemoveMetadata(fields: seq<(string, Json)>)
    ensures forall kv :: kv in StripFields(fields) ==> Clean(kv.1)
    decreases fields
  {
    if fields != [] {
      var (k, v) := fields[0];
      assert fields[0] in fields;
      assert v < fields[0];
      StripRemovesMetadata(v);
      StripFieldsRemoveMetadata(fields[1..]);
    }
  }

  /** The values stripping leaves unchanged are exactly the clean ones. */
  lemma {:induction false} StripFixedPoints(j: Json)
    ensures Strip(j) == j <==> Clean(j)
    decreases j
  {
    match j
    case JArr(items) =>
      forall i | 0 <= i < |items|
        ensures Strip(items[i]) == items[i] <==> Clean(items[i])
      {
        StripFixedPoints(items[i]);
      }
      if Clean(j) {
        assert StripItems(items) == items;
      }
      if Strip(j) == j {
        forall x | x in items ensures Clean(x) {
          var i :| 0 <= i < |items| && items[i] == x;
          assert StripItems(items)[i] == items[i];
        }
      }
    case JObj(fields) =>
      StripFieldsFixedPoints(fields);
    case _ =>
  }

  lemma {:induction false} StripFieldsFixedPoints(fields: seq<(string, Json)>)
    ensures StripFields(fields) == fields <==>
            forall kv :: kv in fields ==> !IsMetadataKey(kv.0) && Clean(kv.1)
    decreases fields
  {
    if fields != [] {
      var (k, v) := fields[0];
      assert fields[0] in fields;
      assert v < fields[0];
      StripFixedPoints(v);
      StripFieldsFixedPoints(fields[1..]);
      assert forall kv :: kv in fields <==> kv == fields[0] || kv in fields[1..];
      if IsMetadataKey(k) {
        assert |StripFields(fields)| < |fields|;
      } else if StripFields(fields) == fields {
        assert StripFields(fields)[0] == fields[0];
        assert StripFields(fields)[1..] == StripFields(fields[1..]);
      }
    }
  }

  /** Stripping twice is stripping once. */
  lemma StripIdempotent(j: Json)
    ensures Strip(Strip(j)) == Strip(j)
  {
    StripRemovesMetadata(j);
    StripFixedPoints(Strip(j));
  }

  /** Stripping keeps every dict a dict: no key is duplicated by it. */
  lemma {:induction false} StripPreservesWellFormed(j: Json)
    requires WellFormed(j)
    ensures WellFormed(Strip(j))
    decreases j
  {
    match j
    case JArr(items) =>
      forall x | x in StripItems(items)
        ensures WellFormed(x)
      {
        var i :| 0 <= i < |items| && StripItems(items)[i] == x;
        assert items[i] in items;
        StripPreservesWellFormed(items[i]);
      }
    case JObj(fields) =>
      StripFieldsPreserveWellFormed(fields);
    case _ =>
  }

  lemma {:induction false} StripFieldsPreserveWellFormed(fields: seq<(string, Json)>)
    requires UniqueKeys(fields)
    requires forall kv :: kv in fields ==> WellFormed(kv.1)
    ensures UniqueKeys(StripFields(fields))
    ensures forall kv :: kv in StripFields(fields) ==> WellFormed(kv.1)
    decreases fields
  {
    if fields != [] {
      var k, v := fields[0].0, fields[0].1;
      assert fields[0] in fields && v < fields[0];
      StripPreservesWellFormed(v);
      assert forall kv :: kv in fields[1..] ==> kv in fields;
      StripFieldsPreserveWellFormed(fields[1..]);
      if !IsMetadataKey(k) {
        var rest := StripFields(fields[1..]);
        StripFieldsKeys(fields[1..]);
        forall i | 0 <= i < |fields[1..]|
          ensures Keys(fields[1..])[i] != k
        {
          assert fields[1..][i] == fields[i + 1];
        }
        assert StripFields(fields) == [(k, Strip(v))] + rest;
        forall a, b | 0 <= a < b < |StripFields(fields)|
          ensures StripFields(fields)[a].0 != StripFields(fields)[b].0
        {
          if a == 0 {
            assert rest[b - 1] in rest;
          }
        }
      }
    }
  }

  /** Every key of a stripped object was a key of the original. */
  lemma {:induction false} StripFieldsKeys(fields: seq<(string, Json)>)
    ensures forall kv :: kv in StripFields(fields) ==> kv.0 in Keys(fields)
  {
    if fields != [] {
      StripFieldsKeys(fields[1..]);
      assert Keys(fields) == [fields[0].0] + Keys(fields[1..]);
    }
  }

  /** The worked example: {"a":1,"b":{"links":[],"c":2}} becomes
      {"a":1,"b":{"c":2}}. */
  lemma StripExample()
    ensures Strip(JObj([("a", JNum(1)), ("b", JObj([("links", JArr([])), ("c", JNum(2))]))]))
         == JObj([("a", JNum(1)), ("b", JObj([("c", JNum(2))]))])
  {
    var inner := [("links", JArr([])), ("c", JNum(2))];
    assert StripFields(inner[1..]) == [("c", JNum(2))];
    assert StripFields(inner) == [("c", JNum(2))];
    var outer := [("a", JNum(1)), ("b", JObj(inner))];
    assert StripFields(outer[1..]) == [("b", JObj([("c", JNum(2))]))];
  }
}
