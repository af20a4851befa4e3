/** A JavaScript `Map`: key/value pairs kept in insertion order. `set` on a present
    key replaces the value in place, `set` on a new key appends, `delete` removes the
    entry, and `values()` lists the values in insertion order. */
module OrderedMap {
  import opened Wrappers

  /** The value stored under `k`, if any. */
  function Get<K(==), V>(m: seq<(K, V)>, k: K): (r: Option<V>)
    ensures r.Some? ==> exists i :: 0 <= i < |m| && m[i] == (k, r.value)
    ensures r.None? ==> forall i :: 0 <= i < |m| ==> m[i].0 != k
    decreases |m|
  {
    if |m| == 0 then None
    else if m[0].0 == k then Some(m[0].1)
    else Get(m[1..], k)
  }

  /** `map.has(k)`. */
  predicate Has<K(==), V>(m: seq<(K, V)>, k: K) {
    Get(m, k).Some?
  }

  /** No key occurs twice, which every JavaScript `Map` satisfies. */
  predicate DistinctKeys<K(==), V>(m: seq<(K, V)>)
    decreases |m|
  {
    |m| == 0 || (!Has(m[1..], m[0].0) && DistinctKeys(m[1..]))
  }

  /** The keys, in insertion order. */
  function Keys<K(==), V>(m: seq<(K, V)>): (r: seq<K>)
    ensures |r| == |m|
    ensures forall i :: 0 <= i < |m| ==> r[i] == m[i].0
    decreases |m|
  {
    if |m| == 0 then [] else [m[0].0] + Keys(m[1..])
  }

  /** `Array.from(map.values())`. */
  function Values<K(==), V>(m: seq<(K, V)>): (r: seq<V>)
    ensures |r| == |m|
    ensures forall i :: 0 <= i < |m| ==> r[i] == m[i].1
    decreases |m|
  {
    if |m| == 0 then [] else [m[0].1] + Values(m[1..])
  }

  /** The set of keys present. */
  function KeySet<K(==,!new), V>(m: seq<(K, V)>): (r: set<K>)
    ensures forall k :: k in r <==> Has(m, k)
    decreases |m|
  {
    if |m| == 0 then {} else {m[0].0} + KeySet(m[1..])
  }

  /** `map.set(k, v)`. */
  function Set<K(==,!new), V>(m: seq<(K, V)>, k: K, v: V): (r: seq<(K, V)>)
    ensures Get(r, k) == Some(v)
    ensures forall k' :: k' != k ==> Get(r, k') == Get(m, k')
    ensures DistinctKeys(m) ==> DistinctKeys(r)
    ensures Has(m, k) ==> Keys(r) == Keys(m)
    ensures !Has(m, k) ==> r == m + [(k, v)]
    decreases |m|
  {
    if |m| == 0 then [(k, v)]
    else if m[0].0 == k then [(k, v)] + m[1..]
    else
      var rest := Set(m[1..], k, v);
      assert m == [m[0]] + m[1..];
      [m[0]] + rest
  }

  /** `map.delete(k)`. */
  function Delete<K(==,!new), V>(m: seq<(K, V)>, k: K): (r: seq<(K, V)>)
    ensures forall k' :: k' != k ==> Get(r, k') == Get(m, k')
    ensures DistinctKeys(m) ==> DistinctKeys(r) && !Has(r, k)
    ensures !Has(m, k) ==> r == m
    ensures |r| == if Has(m, k) then |m| - 1 else |m|
    decreases |m|
  {
    if |m| == 0 then []
    else if m[0].0 == k then m[1..]
    else
      var rest := Delete(m[1..], k);
      assert m == [m[0]] + m[1..];
      [m[0]] + rest
  }

  /** In a map without repeated keys there are exactly as many entries as keys:
      `values()` yields one value per key. */
  lemma {:induction false} DistinctKeysCount<K(!new), V>(m: seq<(K, V)>)
    requires DistinctKeys(m)
    ensures |KeySet(m)| == |m|
    decreases |m|
  {
    if |m| > 0 {
      DistinctKeysCount(m[1..]);
      assert m[0].0 !in KeySet(m[1..]);
    }
  }

  /** In a map without repeated keys, looking up the key of any entry finds that entry. */
  lemma {:induction false} GetAt<K, V>(m: seq<(K, V)>, i: nat)
    requires DistinctKeys(m)
    requires i < |m|
    ensures Get(m, m[i].0) == Some(m[i].1)
    decreases i
  {
    if i > 0 {
      GetAt(m[1..], i - 1);
      assert m[1..][i - 1] == m[i];
      assert m[0].0 != m[i].0 by {
        assert Has(m[1..], m[i].0);
      }
    }
  }
}
