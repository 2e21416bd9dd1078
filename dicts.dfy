/**
 * Python dictionaries as insertion-ordered association lists.
 *
 * A Python `dict` remembers the order in which keys were first inserted;
 * assigning to a present key keeps its position. `Items` is that list of
 * entries. `Get` reads the last entry with a key and `Put` rewrites every
 * entry with the key, so the lookup laws below hold for any list, not only
 * for lists with distinct keys.
 */
module Dicts {
  import opened Wrappers

  type Items<K, V> = seq<(K, V)>

  /** `d.get(k)`: the value of the last entry whose key is `k`. */
  function Get<K(==), V>(d: Items<K, V>, k: K): (r: Option<V>)
    ensures r.None? <==> forall i :: 0 <= i < |d| ==> d[i].0 != k
    ensures r.Some? ==> exists i :: 0 <= i < |d| && d[i] == (k, r.value)
  {
    if d == [] then None
    else if d[|d| - 1].0 == k then Some(d[|d| - 1].1)
    else Get(d[..|d| - 1], k)
  }

  /** `k in d` */
  predicate Has<K(==), V>(d: Items<K, V>, k: K) {
    Get(d, k).Some?
  }

  /** Every entry with key `k` rewritten to `(k, v)`, each in its place. */
  function Replace<K(==), V>(d: Items<K, V>, k: K, v: V): (r: Items<K, V>)
    ensures |r| == |d|
    ensures forall i :: 0 <= i < |d| ==> r[i] == (if d[i].0 == k then (k, v) else d[i])
  {
    if d == [] then []
    else Replace(d[..|d| - 1], k, v) + [if d[|d| - 1].0 == k then (k, v) else d[|d| - 1]]
  }

  /** `d[k] = v`: a present key keeps its position, a new key goes last. */
  function Put<K(==), V>(d: Items<K, V>, k: K, v: V): Items<K, V> {
    if Has(d, k) then Replace(d, k, v) else d + [(k, v)]
  }

  /** `d.update(e)`: the entries of `e` put into `d` one after another, in order. */
  function Update<K(==), V>(d: Items<K, V>, e: Items<K, V>): Items<K, V>
    decreases |e|
  {
    if e == [] then d else Put(Update(d, e[..|e| - 1]), e[|e| - 1].0, e[|e| - 1].1)
  }

  /** `d.pop(k, None)` for its effect on `d`: every entry with key `k` removed. */
  function Remove<K(==), V>(d: Items<K, V>, k: K): (r: Items<K, V>)
    ensures |r| <= |d|
  {
    if d == [] then []
    else if d[|d| - 1].0 == k then Remove(d[..|d| - 1], k)
    else Remove(d[..|d| - 1], k) + [d[|d| - 1]]
  }

  lemma {:induction false} GetReplace<K, V>(d: Items<K, V>, k: K, v: V, k': K)
    ensures Get(Replace(d, k, v), k') == if k' == k then (if Has(d, k) then Some(v) else None) else Get(d, k')
  {
    if d != [] {
      GetReplace(d[..|d| - 1], k, v, k');
      assert Replace(d, k, v)[..|d| - 1] == Replace(d[..|d| - 1], k, v);
    }
  }

  /** Writing a key makes it read back; every other key reads as before. */
  lemma GetPut<K, V>(d: Items<K, V>, k: K, v: V, k': K)
    ensures Get(Put(d, k, v), k') == if k' == k then Some(v) else Get(d, k')
  {
    if Has(d, k) {
      GetReplace(d, k, v, k');
    } else {
      assert (d + [(k, v)])[..|d|] == d;
    }
  }

  /** `update` is later-wins: a key of `e` reads as in `e`, any other key as in `d`. */
  lemma {:induction false} GetUpdate<K, V>(d: Items<K, V>, e: Items<K, V>, k: K)
    ensures Get(Update(d, e), k) == if Has(e, k) then Get(e, k) else Get(d, k)
  {
    if e != [] {
      var e' := e[..|e| - 1];
      GetUpdate(d, e', k);
      GetPut(Update(d, e'), e[|e| - 1].0, e[|e| - 1].1, k);
    }
  }

  /** `pop` removes exactly the popped key. */
  lemma {:induction false} GetRemove<K, V>(d: Items<K, V>, k: K, k': K)
    ensures Get(Remove(d, k), k') == if k' == k then None else Get(d, k')
  {
    if d != [] {
      var d' := d[..|d| - 1];
      GetRemove(d', k, k');
      if d[|d| - 1].0 != k {
        assert (Remove(d', k) + [d[|d| - 1]])[..|Remove(d', k)|] == Remove(d', k);
      }
    }
  }
}
