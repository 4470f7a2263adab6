/**
 * A JavaScript `Map` as a value: the entries plus the keys in first-insertion
 * order. `set` on a present key replaces its value in place, `delete`
 * removes the key from the order, and iteration follows the order.
 */
module OrderedMap {

  datatype OMap<K(==, !new), V> = OMap(keys: seq<K>, vals: map<K, V>) {

    ghost predicate Valid() {
      Distinct(keys) && (forall k :: k in vals <==> k in keys)
    }

    predicate Has(k: K) {
      k in vals
    }

    /** `map.set(k, v)`. */
    function Put(k: K, v: V): (m: OMap<K, V>)
      requires Valid()
      ensures m.Valid()
      ensures m.vals == vals[k := v]
      ensures k in vals ==> m.keys == keys
      ensures k !in vals ==> m.keys == keys + [k]
    {
      if k in vals then OMap(keys, vals[k := v])
      else
        DistinctSnoc(keys, k);
        OMap(keys + [k], vals[k := v])
    }

    /** `map.delete(k)`. */
    function Remove(k: K): (m: OMap<K, V>)
      requires Valid()
      ensures m.Valid()
      ensures m.vals == vals - {k}
      ensures forall x :: x in m.keys <==> x in keys && x != k
    {
      var ks := Without(keys, k);
      WithoutDistinct(keys, k);
      OMap(ks, vals - {k})
    }

    /** `Array.from(map.values())`. */
    function Values(): (vs: seq<V>)
      requires Valid()
      ensures |vs| == |keys|
      ensures forall i :: 0 <= i < |keys| ==> vs[i] == vals[keys[i]]
    {
      seq(|keys|, i requires 0 <= i < |keys| => vals[keys[i]])
    }
  }

  function Empty<K(==, !new), V>(): (m: OMap<K, V>)
    ensures m.Valid() && m.keys == [] && m.vals == map[]
  {
    OMap([], map[])
  }

  function Without<K(==, !new)>(s: seq<K>, k: K): (r: seq<K>)
    ensures forall x :: x in r <==> x in s && x != k
    ensures |r| <= |s|
  {
    if s == [] then [] else (if s[0] == k then [] else [s[0]]) + Without(s[1..], k)
  }

  /** Positions `i` and `j` of `s` exist and hold different elements. */
  predicate Apart<K(==)>(s: seq<K>, i: int, j: int) {
    0 <= i < |s| && 0 <= j < |s| && s[i] != s[j]
  }

  /**
   * No element occurs twice. Stated through `Apart`, so that a proof names
   * the pair of positions it compares.
   */
  predicate Distinct<K(==)>(s: seq<K>) {
    forall i, j :: 0 <= i < j < |s| ==> Apart(s, i, j)
  }

  /** Two positions of a list without repeats hold different elements. */
  lemma DistinctAt<K>(s: seq<K>, i: int, j: int)
    requires Distinct(s) && 0 <= i < |s| && 0 <= j < |s| && i != j
    ensures s[i] != s[j]
  {
    if i < j {
      assert Apart(s, i, j);
    } else {
      assert Apart(s, j, i);
    }
  }

  /** A list without repeats stays so with a new element at its end. */
  lemma DistinctSnoc<K>(s: seq<K>, k: K)
    requires Distinct(s) && k !in s
    ensures Distinct(s + [k])
  {
    var r := s + [k];
    forall i, j | 0 <= i < j < |r| ensures Apart(r, i, j) {
      if j < |s| {
        assert Apart(s, i, j);
      } else {
        assert r[i] in s;
      }
    }
  }

  /** A prefix of a list without repeats has none. */
  lemma DistinctPrefix<K>(s: seq<K>, n: int)
    requires Distinct(s) && 0 <= n <= |s|
    ensures Distinct(s[..n])
  {
    var r := s[..n];
    forall i, j | 0 <= i < j < |r| ensures Apart(r, i, j) {
      assert Apart(s, i, j);
    }
  }

  /** A suffix of a list without repeats has none, and holds none of the elements before it. */
  lemma DistinctSuffix<K>(s: seq<K>, n: int)
    requires Distinct(s) && 0 <= n <= |s|
    ensures Distinct(s[n..])
    ensures forall i :: 0 <= i < n ==> s[i] !in s[n..]
  {
    var r := s[n..];
    forall i, j | 0 <= i < j < |r| ensures Apart(r, i, j) {
      assert Apart(s, n + i, n + j);
    }
    forall i | 0 <= i < n ensures s[i] !in r {
      forall j | 0 <= j < |r| ensures r[j] != s[i] {
        assert Apart(s, i, n + j);
      }
    }
  }

  /** Removing an element keeps a list without repeats. */
  lemma {:induction false} WithoutDistinct<K(!new)>(s: seq<K>, k: K)
    requires Distinct(s)
    ensures Distinct(Without(s, k))
  {
    if s != [] {
      DistinctSuffix(s, 1);
      WithoutDistinct(s[1..], k);
      var rest := Without(s[1..], k);
      assert s[0] !in rest;
      if s[0] != k {
        var r := [s[0]] + rest;
        forall i, j | 0 <= i < j < |r| ensures Apart(r, i, j) {
          if i == 0 {
            assert r[j] == rest[j - 1];
          } else {
            assert r[i] == rest[i - 1] && r[j] == rest[j - 1];
            assert Apart(rest, i - 1, j - 1);
          }
        }
        assert Without(s, k) == r;
      } else {
        assert Without(s, k) == rest;
      }
    }
  }

  /** Building a map by `set` over a list keeps each key at its first position and its last value. */
  function FromList<K(==, !new), V>(pairs: seq<(K, V)>): (m: OMap<K, V>)
    ensures m.Valid()
    decreases |pairs|
  {
    if pairs == [] then Empty()
    else FromList(pairs[..|pairs| - 1]).Put(pairs[|pairs| - 1].0, pairs[|pairs| - 1].1)
  }

  /** A key is present after building from a list exactly when some pair carries it. */
  lemma {:induction false} FromListHas<K(!new), V>(pairs: seq<(K, V)>, k: K)
    ensures k in FromList(pairs).vals <==> exists i :: 0 <= i < |pairs| && pairs[i].0 == k
    decreases |pairs|
  {
    if pairs != [] {
      var n := |pairs| - 1;
      var init := pairs[..n];
      FromListHas(init, k);
      if k in FromList(init).vals {
        var i :| 0 <= i < |init| && init[i].0 == k;
        assert pairs[i].0 == k;
      }
      if exists i :: 0 <= i < |pairs| && pairs[i].0 == k {
        var i :| 0 <= i < |pairs| && pairs[i].0 == k;
        if i < n {
          assert init[i].0 == k;
        }
      }
    }
  }

  /** The value stored for a key is the one from its last pair: a later `set` overwrites. */
  lemma {:induction false} FromListLast<K(!new), V>(pairs: seq<(K, V)>, i: int)
    requires 0 <= i < |pairs|
    requires forall j :: i < j < |pairs| ==> pairs[j].0 != pairs[i].0
    ensures pairs[i].0 in FromList(pairs).vals && FromList(pairs).vals[pairs[i].0] == pairs[i].1
    decreases |pairs|
  {
    var n := |pairs| - 1;
    if i < n {
      var init := pairs[..n];
      assert init[i] == pairs[i];
      FromListLast(init, i);
    }
  }

  /** With pairwise distinct keys the map keeps the list's keys, and its values, in list order. */
  lemma {:induction false} FromListDistinct<K(!new), V>(pairs: seq<(K, V)>)
    requires forall i, j :: 0 <= i < j < |pairs| ==> pairs[i].0 != pairs[j].0
    ensures var m := FromList(pairs);
      |m.keys| == |pairs| && forall i :: 0 <= i < |pairs| ==> m.keys[i] == pairs[i].0 && m.vals[m.keys[i]] == pairs[i].1
    decreases |pairs|
  {
    if pairs != [] {
      var n := |pairs| - 1;
      var init := pairs[..n];
      FromListDistinct(init);
      FromListHas(init, pairs[n].0);
      var m := FromList(pairs);
      forall i | 0 <= i < |pairs| ensures m.keys[i] == pairs[i].0 && m.vals[m.keys[i]] == pairs[i].1 {
        if i < n {
          assert init[i] == pairs[i];
        }
      }
    }
  }
}
