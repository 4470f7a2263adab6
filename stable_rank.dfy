/**
 * `Array.prototype.sort((a, b) => key(b) - key(a))` over a list, stated on
 * positions: the sort is stable, so the result orders positions by
 * non-increasing key and, among equal keys, by original position. Memory
 * retrieval and the per-tick turn order both sort this way.
 */
module StableRank {

  /** Position `a` precedes position `b` in a stable descending sort by `key`. */
  predicate Before(key: seq<real>, a: nat, b: nat)
    requires a < |key| && b < |key|
  {
    key[a] > key[b] || (key[a] == key[b] && a < b)
  }

  predicate InRange(key: seq<real>, s: seq<nat>) {
    forall p :: 0 <= p < |s| ==> s[p] < |key|
  }

  /** Every earlier position of `s` precedes every later one. */
  predicate SortedBy(key: seq<real>, s: seq<nat>)
    requires InRange(key, s)
  {
    forall p, q :: 0 <= p < q < |s| ==> Before(key, s[p], s[q])
  }

  /** Inserts position `i`, larger than all positions in `order`, at its stable place. */
  function Insert(key: seq<real>, order: seq<nat>, i: nat): (r: seq<nat>)
    requires i < |key| && InRange(key, order) && SortedBy(key, order)
    requires forall p :: 0 <= p < |order| ==> order[p] < i
    ensures |r| == |order| + 1
    ensures forall x :: x in r <==> x in order || x == i
    ensures InRange(key, r) && SortedBy(key, r)
  {
    if order == [] then [i]
    else if key[order[0]] < key[i] then
      assert forall q :: 0 <= q < |order| ==> key[order[q]] <= key[order[0]];
      [i] + order
    else
      var rest := Insert(key, order[1..], i);
      assert forall q :: 0 <= q < |rest| ==> Before(key, order[0], rest[q]) by {
        forall q | 0 <= q < |rest| ensures Before(key, order[0], rest[q]) {
          assert rest[q] in rest;
        }
      }
      [order[0]] + rest
  }

  /** The stable descending order of positions `0 .. n-1`. */
  function Rank(key: seq<real>, n: nat): (r: seq<nat>)
    requires n <= |key|
    ensures |r| == n
    ensures forall x: int :: x in r <==> 0 <= x < n
    ensures InRange(key, r) && SortedBy(key, r)
  {
    if n == 0 then []
    else
      var prev := Rank(key, n - 1);
      assert forall p :: 0 <= p < |prev| ==> prev[p] < n - 1 by {
        forall p | 0 <= p < |prev| ensures prev[p] < n - 1 {
          assert prev[p] in prev;
        }
      }
      Insert(key, prev, n - 1)
  }

  lemma BeforeAsymmetric(key: seq<real>, a: nat, b: nat)
    requires a < |key| && b < |key|
    ensures !(Before(key, a, b) && Before(key, b, a))
    ensures Before(key, a, b) || Before(key, b, a) || a == b
  {
  }

  /**
   * A stable descending sort is unique: any list of positions that holds the
   * same positions as `Rank` and is sorted by `Before` equals it.
   */
  lemma {:induction false} SortedUnique(key: seq<real>, s: seq<nat>, t: seq<nat>)
    requires InRange(key, s) && SortedBy(key, s)
    requires InRange(key, t) && SortedBy(key, t)
    requires forall x :: x in s <==> x in t
    ensures s == t
  {
    if s != [] {
      assert s[0] in s;
      assert t != [];
      assert t[0] in t;
      var p :| 0 <= p < |s| && s[p] == t[0];
      var q :| 0 <= q < |t| && t[q] == s[0];
      if p > 0 && q > 0 {
        BeforeAsymmetric(key, s[0], t[0]);
      }
      assert s[0] == t[0];
      forall x ensures x in s[1..] <==> x in t[1..] {
        if x in s[1..] {
          var i :| 1 <= i < |s| && s[i] == x;
          assert Before(key, s[0], s[i]);
          assert x in t;
        }
        if x in t[1..] {
          var i :| 1 <= i < |t| && t[i] == x;
          assert Before(key, t[0], t[i]);
          assert x in s;
        }
      }
      SortedUnique(key, s[1..], t[1..]);
      assert s == [s[0]] + s[1..] && t == [t[0]] + t[1..];
    } else {
      HeadIn(t);
    }
  }

  lemma HeadIn<T>(t: seq<T>)
    ensures t != [] ==> t[0] in t
  {
  }

  /** In a stable descending order the keys never increase. */
  lemma SortedKeysNonIncreasing(key: seq<real>, s: seq<nat>, p: int, q: int)
    requires InRange(key, s) && SortedBy(key, s)
    requires 0 <= p < q < |s|
    ensures key[s[p]] >= key[s[q]]
    ensures key[s[p]] == key[s[q]] ==> s[p] < s[q]
  {
    assert Before(key, s[p], s[q]);
  }
}
