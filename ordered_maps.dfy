/**
 * A JavaScript `Map`: a dictionary that remembers the order in which its
 * keys were first inserted. `set` on a present key replaces the value in
 * place; `delete` removes the key and keeps the order of the others.
 */
module OrderedMaps {
  import opened Wrappers

  predicate Distinct<K(==)>(s: seq<K>) {
    forall i, j :: 0 <= i < j < |s| ==> s[i] != s[j]
  }

  /** `s` without the occurrences of `x`, order kept. */
  function Without<K(==)>(s: seq<K>, x: K): (r: seq<K>)
    ensures forall i :: 0 <= i < |r| ==> r[i] in s && r[i] != x
    ensures forall i :: 0 <= i < |s| && s[i] != x ==> s[i] in r
    ensures Distinct(s) ==> Distinct(r)
    ensures x !in s ==> r == s
  {
    if s == [] then []
    else
      var rest := Without(s[1..], x);
      if s[0] == x then
        assert forall i :: 1 <= i < |s| ==> s[i] == s[1..][i - 1];
        rest
      else
        var r := [s[0]] + rest;
        assert forall i :: 1 <= i < |s| ==> s[i] == s[1..][i - 1];
        assert forall i :: 1 <= i < |r| ==> r[i] == rest[i - 1];
        assert Distinct(s) ==> Distinct(r) by {
          if Distinct(s) {
            assert s[0] !in s[1..];
            forall i, j | 0 <= i < j < |r| ensures r[i] != r[j] {
              if i == 0 { assert r[j] in rest; }
              else { assert r[i] == rest[i - 1] && r[j] == rest[j - 1]; }
            }
          }
        }
        assert x !in s ==> r == s by {
          if x !in s {
            assert s == [s[0]] + s[1..];
          }
        }
        r
  }

  lemma {:induction false} DistinctCard<K>(s: seq<K>)
    requires Distinct(s)
    ensures |set x | x in s| == |s|
  {
    if s != [] {
      DistinctCard(s[1..]);
      assert (set x | x in s) == {s[0]} + (set x | x in s[1..]);
    }
  }

  datatype OrderedMap<K(==), V> = OrderedMap(keys: seq<K>, entries: map<K, V>) {

    ghost predicate Valid() {
      Distinct(keys) && entries.Keys == set k | k in keys
    }

    /** `map.size`: the number of keys, which equals the number of entries. */
    function Size(): (n: nat)
      requires Valid()
      ensures n == |entries|
    {
      DistinctCard(keys);
      |keys|
    }

    /** `map.get(k)`. */
    function Get(k: K): (r: Option<V>)
      ensures r.Some? <==> k in entries
      ensures r.Some? ==> r.value == entries[k]
    {
      if k in entries then Some(entries[k]) else None
    }

    /** `map.set(k, v)`. */
    function Set(k: K, v: V): (m: OrderedMap<K, V>)
      requires Valid()
      ensures m.Valid()
      ensures m.entries == entries[k := v]
      ensures k in entries ==> m.keys == keys
      ensures k !in entries ==> m.keys == keys + [k]
    {
      if k in entries then OrderedMap(keys, entries[k := v])
      else OrderedMap(keys + [k], entries[k := v])
    }

    /** `map.delete(k)`. */
    function Delete(k: K): (m: OrderedMap<K, V>)
      requires Valid()
      ensures m.Valid()
      ensures m.entries == entries - {k}
      ensures m.keys == Without(keys, k)
    {
      OrderedMap(Without(keys, k), entries - {k})
    }
  }

  function Empty<K(==), V>(): (m: OrderedMap<K, V>)
    ensures m.Valid() && m.keys == [] && m.entries == map[]
  {
    OrderedMap([], map[])
  }
}
