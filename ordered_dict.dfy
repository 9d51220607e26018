/**
 * Python's `dict` with its insertion order: a sequence of key/value entries whose keys are
 * pairwise distinct. Assigning to a key already present replaces its value in place; a new key
 * goes to the end.
 */
module OrderedDict {
  import opened Outcomes
  import opened Text

  datatype Entry<K, V> = Entry(key: K, value: V)

  function Keys<K, V>(d: seq<Entry<K, V>>): (ks: seq<K>)
    ensures |ks| == |d| && forall i :: 0 <= i < |d| ==> ks[i] == d[i].key
  {
    if d == [] then [] else [d[0].key] + Keys(d[1..])
  }

  predicate Valid<K(==), V>(d: seq<Entry<K, V>>)
  {
    NoDuplicates(Keys(d))
  }

  /** `d.get(key)` */
  function Get<K(==), V>(d: seq<Entry<K, V>>, key: K): (r: Option<V>)
    ensures r.None? <==> key !in Keys(d)
  {
    if d == [] then None
    else if d[0].key == key then Some(d[0].value)
    else Get(d[1..], key)
  }

  /** `d.get(key, default)` */
  function ValueOr<K(==), V>(d: seq<Entry<K, V>>, key: K, default: V): V
  {
    match Get(d, key)
    case Some(v) => v
    case None => default
  }

  /** `d[key] = value` */
  function Put<K(==), V>(d: seq<Entry<K, V>>, key: K, value: V): seq<Entry<K, V>>
  {
    if d == [] then [Entry(key, value)]
    else if d[0].key == key then [Entry(key, value)] + d[1..]
    else [d[0]] + Put(d[1..], key, value)
  }

  /** After `d[key] = value` the key reads back as `value` and every other key as before. */
  lemma {:induction false} PutGet<K(!new), V>(d: seq<Entry<K, V>>, key: K, value: V)
    ensures Get(Put(d, key, value), key) == Some(value)
    ensures forall k :: k != key ==> Get(Put(d, key, value), k) == Get(d, k)
  {
    if d != [] && d[0].key != key {
      PutGet(d[1..], key, value);
    }
  }

  /** A key already present keeps its place; a new key goes to the end. */
  lemma {:induction false} PutKeys<K, V>(d: seq<Entry<K, V>>, key: K, value: V)
    ensures key in Keys(d) ==> Keys(Put(d, key, value)) == Keys(d)
    ensures key !in Keys(d) ==> Keys(Put(d, key, value)) == Keys(d) + [key]
  {
    if d != [] && d[0].key != key {
      PutKeys(d[1..], key, value);
      assert Keys(d) == [d[0].key] + Keys(d[1..]);
      assert Keys(Put(d, key, value)) == [d[0].key] + Keys(Put(d[1..], key, value));
    }
  }

  /** `d[key] = value` keeps the keys distinct. */
  lemma PutFacts<K(!new), V>(d: seq<Entry<K, V>>, key: K, value: V)
    ensures Get(Put(d, key, value), key) == Some(value)
    ensures forall k :: k != key ==> Get(Put(d, key, value), k) == Get(d, k)
    ensures key in Keys(d) ==> Keys(Put(d, key, value)) == Keys(d)
    ensures key !in Keys(d) ==> Keys(Put(d, key, value)) == Keys(d) + [key]
    ensures Valid(d) ==> Valid(Put(d, key, value))
  {
    PutGet(d, key, value);
    PutKeys(d, key, value);
  }
}
