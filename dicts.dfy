/**
 * Python dicts where their insertion order matters, as association lists: a key
 * keeps the position of its first insertion and the value of its last one.
 */
module Dicts {
  import opened Wrappers

  type Dict<K, V> = seq<(K, V)>

  function Keys<K, V>(d: Dict<K, V>): (ks: seq<K>)
    ensures |ks| == |d|
    ensures forall i :: 0 <= i < |d| ==> ks[i] == d[i].0
  {
    seq(|d|, i requires 0 <= i < |d| => d[i].0)
  }

  ghost predicate DistinctKeys<K, V>(d: Dict<K, V>) {
    forall i, j :: 0 <= i < j < |d| ==> d[i].0 != d[j].0
  }

  /** Position of key `k`, if present. */
  function IndexOf<K(==), V>(d: Dict<K, V>, k: K): (r: Option<nat>)
    ensures r.Some? ==> r.value < |d| && d[r.value].0 == k
    ensures r.None? <==> k !in Keys(d)
  {
    if d == [] then None
    else if d[|d| - 1].0 == k && IndexOf(d[..|d| - 1], k).None? then Some(|d| - 1)
    else if IndexOf(d[..|d| - 1], k).Some? then IndexOf(d[..|d| - 1], k)
    else None
  }

  /** `d.get(k)`. */
  function Get<K(==), V>(d: Dict<K, V>, k: K): Option<V> {
    match IndexOf(d, k)
    case None => None
    case Some(i) => Some(d[i].1)
  }

  /** `d[k] = v`. */
  function Insert<K(==, !new), V>(d: Dict<K, V>, k: K, v: V): (r: Dict<K, V>)
    requires DistinctKeys(d)
    ensures DistinctKeys(r)
    ensures k in Keys(r)
    ensures Get(r, k) == Some(v)
    ensures k in Keys(d) ==> Keys(r) == Keys(d)
    ensures k !in Keys(d) ==> Keys(r) == Keys(d) + [k]
    ensures forall k' :: k' != k ==> Get(r, k') == Get(d, k')
  {
    match IndexOf(d, k)
    case Some(i) =>
      var r := d[i := (k, v)];
      assert Keys(r) == Keys(d);
      GetUnique(r, i);
      forall k' | k' != k ensures Get(r, k') == Get(d, k') {
        GetSameKeys(d, r, k');
      }
      r
    case None =>
      var r := d + [(k, v)];
      assert Keys(r) == Keys(d) + [k];
      GetUnique(r, |d|);
      forall k' | k' != k ensures Get(r, k') == Get(d, k') {
        GetExtend(d, k, v, k');
      }
      r
  }

  /** Setting a new key appends it. */
  lemma InsertNew<K(!new), V>(d: Dict<K, V>, k: K, v: V)
    requires DistinctKeys(d) && k !in Keys(d)
    ensures Insert(d, k, v) == d + [(k, v)]
  {
  }

  lemma GetUnique<K, V>(d: Dict<K, V>, i: nat)
    requires DistinctKeys(d)
    requires i < |d|
    ensures Get(d, d[i].0) == Some(d[i].1)
  {
    var j := IndexOf(d, d[i].0);
  }

  lemma GetSameKeys<K, V>(d: Dict<K, V>, r: Dict<K, V>, k: K)
    requires |r| == |d|
    requires forall j :: 0 <= j < |d| ==> r[j].0 == d[j].0
    requires forall j :: 0 <= j < |d| && d[j].0 == k ==> r[j] == d[j]
    ensures Get(r, k) == Get(d, k)
  {
    IndexOfSameKeys(d, r, k);
  }

  lemma {:induction false} IndexOfSameKeys<K, V>(d: Dict<K, V>, r: Dict<K, V>, k: K)
    requires |r| == |d|
    requires forall j :: 0 <= j < |d| ==> r[j].0 == d[j].0
    ensures IndexOf(r, k) == IndexOf(d, k)
  {
    if d != [] {
      IndexOfSameKeys(d[..|d| - 1], r[..|r| - 1], k);
    }
  }

  lemma GetExtend<K, V>(d: Dict<K, V>, k: K, v: V, k': K)
    requires k' != k
    ensures Get(d + [(k, v)], k') == Get(d, k')
  {
    assert (d + [(k, v)])[..|d|] == d;
  }

  /** A dict comprehension `{k: v for (k, v) in pairs}`. */
  function FromPairs<K(==, !new), V>(pairs: seq<(K, V)>): (r: Dict<K, V>)
    ensures DistinctKeys(r)
  {
    if pairs == [] then []
    else Insert(FromPairs(pairs[..|pairs| - 1]), pairs[|pairs| - 1].0, pairs[|pairs| - 1].1)
  }

  /** A dict comprehension over distinct keys keeps every pair in place. */
  lemma {:induction false} FromDistinctPairs<K(!new), V>(pairs: seq<(K, V)>)
    requires DistinctKeys(pairs)
    ensures FromPairs(pairs) == pairs
  {
    if pairs != [] {
      var init := pairs[..|pairs| - 1];
      FromDistinctPairs(init);
      var p := pairs[|pairs| - 1];
      assert p.0 !in Keys(init) by {
        forall i | 0 <= i < |init| ensures init[i].0 != p.0 { }
      }
      assert FromPairs(pairs) == Insert(init, p.0, p.1);
      InsertNew(init, p.0, p.1);
      assert init + [p] == pairs;
    }
  }

  /** A Python dict whose order does not matter: `{key(x): x for x in xs}` as a Dafny map; later entries win. */
  function MapBy<K(==), V>(xs: seq<V>, key: V -> K): (m: map<K, V>)
    ensures forall x :: x in xs ==> key(x) in m
    ensures forall k :: k in m ==> exists x :: x in xs && key(x) == k && m[k] == x
  {
    if xs == [] then map[] else MapBy(xs[..|xs| - 1], key)[key(xs[|xs| - 1]) := xs[|xs| - 1]]
  }

  /** The entry of the LAST element with a given key is the one kept. */
  lemma {:induction false} MapByLastWins<K, V>(xs: seq<V>, key: V -> K, j: nat)
    requires j < |xs|
    requires forall k :: j < k < |xs| ==> key(xs[k]) != key(xs[j])
    ensures MapBy(xs, key)[key(xs[j])] == xs[j]
  {
    if j < |xs| - 1 {
      MapByLastWins(xs[..|xs| - 1], key, j);
    }
  }
}
