/**
 * JavaScript's `Map`: a finite map whose iteration order is the order in which
 * keys were first inserted. `set` on a present key keeps its position; `delete`
 * removes the key and keeps the order of the rest.
 */
module OrderedMaps {

  ghost predicate Distinct<K>(s: seq<K>) {
    forall i, j :: 0 <= i < j < |s| ==> s[i] != s[j]
  }

  /** The tail of a list without repetitions has none, and lacks the head. */
  lemma DistinctTail<K>(s: seq<K>)
    requires Distinct(s) && s != []
    ensures Distinct(s[1..]) && s[0] !in s[1..]
  {
    forall i, j | 0 <= i < j < |s[1..]|
      ensures s[1..][i] != s[1..][j]
    {
      assert s[1..][i] == s[i + 1] && s[1..][j] == s[j + 1];
    }
  }

  /** `s` with every occurrence of `k` removed, order kept. */
  function Without<K(==,!new)>(s: seq<K>, k: K): (r: seq<K>)
    ensures forall x :: x in r <==> x in s && x != k
    ensures |r| <= |s|
  {
    if |s| == 0 then [] else (if s[0] == k then [] else [s[0]]) + Without(s[1..], k)
  }

  /** Removing a key from a list without repetitions leaves a list without repetitions. */
  lemma {:induction false} WithoutDistinct<K(!new)>(s: seq<K>, k: K)
    requires Distinct(s)
    ensures Distinct(Without(s, k))
  {
    if |s| > 0 {
      WithoutDistinct(s[1..], k);
      var rest := Without(s[1..], k);
      assert s[0] !in rest by {
        assert s[0] !in s[1..];
      }
    }
  }

  datatype OMap<K(==,!new), V> = OMap(keys: seq<K>, vals: map<K, V>) {

    /** `keys` lists every key of `vals` exactly once. */
    ghost predicate Valid() {
      Distinct(keys) && forall k :: k in vals <==> k in keys
    }

    /** `Map.prototype.size`. */
    function Size(): nat {
      |keys|
    }

    /** `Map.prototype.set`. */
    function Put(k: K, v: V): (r: OMap<K, V>)
      requires Valid()
      ensures r.Valid()
      ensures r.vals == vals[k := v]
      ensures r.keys == if k in vals then keys else keys + [k]
    {
      if k in vals then OMap(keys, vals[k := v]) else OMap(keys + [k], vals[k := v])
    }

    /** `Map.prototype.delete`. */
    function Remove(k: K): (r: OMap<K, V>)
      requires Valid()
      ensures r.Valid()
      ensures r.vals == vals - {k}
      ensures r.keys == Without(keys, k)
    {
      WithoutDistinct(keys, k);
      OMap(Without(keys, k), vals - {k})
    }

    /** `Array.from(m.values())`: the values in iteration order. */
    function Values(): (r: seq<V>)
      requires Valid()
      ensures |r| == |keys|
      ensures forall i :: 0 <= i < |keys| ==> r[i] == vals[keys[i]]
    {
      seq(|keys|, i requires 0 <= i < |keys| && keys[i] in vals => vals[keys[i]])
    }
  }

  function Empty<K(==,!new), V>(): (r: OMap<K, V>)
    ensures r.Valid() && r.keys == [] && r.vals == map[]
  {
    OMap([], map[])
  }

  /** A map is empty exactly when its size is 0. */
  lemma SizeZeroIffEmpty<K(!new), V>(m: OMap<K, V>)
    requires m.Valid()
    ensures m.Size() == 0 <==> m.vals == map[]
  {
    if m.Size() == 0 {
      assert forall k :: k !in m.vals;
    } else {
      assert m.keys[0] in m.vals;
    }
  }
}
