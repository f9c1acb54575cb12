/**
 * JSON values as the GraphQL client hands them over, and the two dict operations
 * the core relies on: `d.get(key)` and `d[key] = value`.
 * A dict is an ordered list of entries: Python dicts keep insertion order.
 */
module Json {
  import opened Wrappers

  datatype Json =
    | Obj(fields: seq<(string, Json)>)
    | Arr(elems: seq<Json>)
    | Str(s: string)
    | Num(n: int)
    | Bool(b: bool)
    | Null

  type Fields = seq<(string, Json)>

  /** A value that is neither a dict nor a list. */
  predicate IsScalar(j: Json) {
    !j.Obj? && !j.Arr?
  }

  /** The keys of a dict, as a set. */
  function KeySet(fs: Fields): set<string> {
    set i | 0 <= i < |fs| :: fs[i].0
  }

  /** No key occurs twice, as in every dict Python builds. */
  predicate UniqueKeys(fs: Fields) {
    forall i, j :: 0 <= i < j < |fs| ==> fs[i].0 != fs[j].0
  }

  /** The position of the entry for `key`, or |fs| when there is none. */
  function KeyIndex(fs: Fields, key: string): (i: nat)
    ensures i <= |fs|
    ensures forall j :: 0 <= j < i ==> fs[j].0 != key
    ensures i < |fs| ==> fs[i].0 == key
  {
    if fs == [] then 0
    else if fs[0].0 == key then 0
    else 1 + KeyIndex(fs[1..], key)
  }

  /** Any position that satisfies KeyIndex's contract is KeyIndex. */
  lemma KeyIndexUnique(fs: Fields, key: string, i: nat)
    requires i <= |fs|
    requires forall j :: 0 <= j < i ==> fs[j].0 != key
    requires i < |fs| ==> fs[i].0 == key
    ensures KeyIndex(fs, key) == i
  {
  }

  /**
   * `d.get(key)`: Some of the value stored under key (a stored null is Some(Null)), None when
   * the key is absent. Of repeated keys the first entry is read; dicts built by Python have none.
   */
  function Get(fs: Fields, key: string): (r: Option<Json>)
    ensures r.None? <==> key !in KeySet(fs)
  {
    var i := KeyIndex(fs, key);
    if i < |fs| then Some(fs[i].1)
    else None
  }

  /** `d[key] = value`. */
  function Put(fs: Fields, key: string, value: Json): Fields {
    var i := KeyIndex(fs, key);
    if i < |fs| then fs[i := (key, value)] else fs + [(key, value)]
  }

  /**
   * After `d[key] = value` the key reads as value and every other key as before; an existing
   * entry keeps its position, a new key is appended at the end.
   */
  lemma PutReads(fs: Fields, key: string, value: Json)
    ensures Get(Put(fs, key, value), key) == Some(value)
    ensures forall k :: k != key ==> Get(Put(fs, key, value), k) == Get(fs, k)
    ensures key in KeySet(fs) ==>
      |Put(fs, key, value)| == |fs| && forall i :: 0 <= i < |fs| ==> Put(fs, key, value)[i].0 == fs[i].0
    ensures key !in KeySet(fs) ==> Put(fs, key, value) == fs + [(key, value)]
    ensures KeySet(Put(fs, key, value)) == KeySet(fs) + {key}
    ensures forall i :: 0 <= i < |Put(fs, key, value)| ==> Put(fs, key, value)[i] == (key, value) || Put(fs, key, value)[i] in fs
  {
    var i := KeyIndex(fs, key);
    var r := Put(fs, key, value);
    KeyIndexUnique(r, key, i);
    forall k | k != key
      ensures Get(r, k) == Get(fs, k)
    {
      var j := KeyIndex(fs, k);
      KeyIndexUnique(r, k, if j < |fs| then j else |r|);
    }
    assert KeySet(r) == KeySet(fs) + {key} by {
      forall k | k in KeySet(r) ensures k in KeySet(fs) + {key} {
        var j :| 0 <= j < |r| && r[j].0 == k;
        if j != i { assert r[j] == fs[j]; }
      }
      forall k | k in KeySet(fs) + {key} ensures k in KeySet(r) {
        if k == key { assert r[i].0 == k; }
        else {
          var j :| 0 <= j < |fs| && fs[j].0 == k;
          assert r[j].0 == k;
        }
      }
    }
  }
}
