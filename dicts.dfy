/**
 * Python's `dict` as minibench uses it: a mapping that remembers the order in which its
 * keys were first inserted. Assigning to a key that is already present replaces its value
 * and keeps its place; iterating with `.items()`/`.values()` follows that order.
 */
module Dicts {
  import opened Wrappers

  /** The entries in iteration order. */
  type Dict<K, V> = seq<(K, V)>

  function Keys<K, V>(d: Dict<K, V>): (ks: seq<K>)
    ensures |ks| == |d|
    ensures forall i :: 0 <= i < |d| ==> ks[i] == d[i].0
  {
    seq(|d|, i requires 0 <= i < |d| => d[i].0)
  }

  /** `d.values()`. */
  function Values<K, V>(d: Dict<K, V>): (vs: seq<V>)
    ensures |vs| == |d|
    ensures forall i :: 0 <= i < |d| ==> vs[i] == d[i].1
  {
    seq(|d|, i requires 0 <= i < |d| => d[i].1)
  }

  /** `{k: f(v) for k, v in d.items()}`: the same keys in the same order, each value mapped by `f`. */
  function MapValues<K, V, W>(d: Dict<K, V>, f: V -> W): (r: Dict<K, W>)
    ensures |r| == |d|
    ensures forall i :: 0 <= i < |d| ==> r[i] == (d[i].0, f(d[i].1))
    decreases |d|
  {
    if d == [] then []
    else
      var init := d[..|d| - 1];
      var before := MapValues(init, f);
      var r := before + [(d[|d| - 1].0, f(d[|d| - 1].1))];
      assert forall i :: 0 <= i < |init| ==> r[i] == before[i] && init[i] == d[i];
      r
  }

  /** Putting a new key appends it. */
  lemma PutNew<K(!new), V>(d: Dict<K, V>, k: K, v: V)
    requires k !in Keys(d)
    ensures Put(d, k, v) == d + [(k, v)]
  {
    assert IndexOf(d, k) == |d|;
  }

  /** Mapping one more entry appends its mapped value. */
  lemma MapValuesStep<K, V, W>(d: Dict<K, V>, f: V -> W, i: nat)
    requires i < |d|
    ensures MapValues(d[..i + 1], f) == MapValues(d[..i], f) + [(d[i].0, f(d[i].1))]
  {
    assert d[..i + 1][..i] == d[..i];
  }

  /** No key appears twice, which holds of every dict built with `Put`. */
  ghost predicate UniqueKeys<K, V>(d: Dict<K, V>) {
    forall i, j :: 0 <= i < j < |d| ==> d[i].0 != d[j].0
  }

  /** The position of key `k`, or `|d|` when it is absent. */
  function IndexOf<K(==), V>(d: Dict<K, V>, k: K): (i: nat)
    ensures i <= |d|
    ensures i < |d| ==> d[i].0 == k
    ensures forall j :: 0 <= j < i ==> d[j].0 != k
    ensures i == |d| <==> k !in Keys(d)
    decreases |d|
  {
    if d == [] then 0 else if d[0].0 == k then 0 else 1 + IndexOf(d[1..], k)
  }

  /** `d.get(k)`. */
  function Get<K(==), V>(d: Dict<K, V>, k: K): (r: Option<V>)
    ensures r.Some? <==> k in Keys(d)
  {
    var i := IndexOf(d, k);
    if i < |d| then Some(d[i].1) else None
  }

  /**
   * `d[k] = v`: a new key is appended at the end, a present key keeps its position and
   * gets the new value, and every other key keeps its value.
   */
  function Put<K(==,!new), V>(d: Dict<K, V>, k: K, v: V): (r: Dict<K, V>)
    ensures Keys(r) == if k in Keys(d) then Keys(d) else Keys(d) + [k]
    ensures Get(r, k) == Some(v)
    ensures forall k' :: k' != k ==> Get(r, k') == Get(d, k')
    ensures UniqueKeys(d) ==> UniqueKeys(r)
  {
    var i := IndexOf(d, k);
    if i < |d| then
      var r := d[i := (k, v)];
      assert Keys(r) == Keys(d);
      forall k' | k' != k ensures Get(r, k') == Get(d, k') {
        SameKeysSameIndex(d, r, k');
      }
      r
    else
      var r := d + [(k, v)];
      assert Keys(r) == Keys(d) + [k];
      assert IndexOf(r, k) == |d| by {
        AppendIndex(d, k, v, k);
      }
      forall k' | k' != k ensures Get(r, k') == Get(d, k') {
        AppendIndex(d, k, v, k');
      }
      r
  }

  /** Two dicts with the same keys in the same order find every key at the same place. */
  lemma {:induction false} SameKeysSameIndex<K, V, W>(d: Dict<K, V>, e: Dict<K, W>, k: K)
    requires Keys(d) == Keys(e)
    ensures IndexOf(d, k) == IndexOf(e, k)
    decreases |d|
  {
    if d != [] {
      assert d[0].0 == Keys(d)[0] == Keys(e)[0] == e[0].0;
      if d[0].0 != k {
        assert Keys(d[1..]) == Keys(d)[1..];
        assert Keys(e[1..]) == Keys(e)[1..];
        SameKeysSameIndex(d[1..], e[1..], k);
      }
    }
  }

  /** Appending an entry does not move the keys before it. */
  lemma {:induction false} AppendIndex<K, V>(d: Dict<K, V>, k: K, v: V, k': K)
    requires k !in Keys(d)
    ensures IndexOf(d + [(k, v)], k') ==
      if k' in Keys(d) then IndexOf(d, k') else if k' == k then |d| else |d| + 1
    decreases |d|
  {
    var r := d + [(k, v)];
    if d != [] && d[0].0 != k' {
      assert r[1..] == d[1..] + [(k, v)];
      assert k !in Keys(d[1..]) by {
        assert Keys(d[1..]) == Keys(d)[1..];
      }
      AppendIndex(d[1..], k, v, k');
      assert k' in Keys(d[1..]) <==> k' in Keys(d) by {
        assert Keys(d) == [d[0].0] + Keys(d[1..]);
      }
    }
  }

  /** Looking a key up in a mapped dict finds the mapped value of the key's entry. */
  lemma GetMapValues<K, V, W>(d: Dict<K, V>, f: V -> W, k: K)
    ensures Get(MapValues(d, f), k) == if Get(d, k).Some? then Some(f(Get(d, k).value)) else None
  {
    var r := MapValues(d, f);
    assert Keys(r) == Keys(d);
    SameKeysSameIndex(d, r, k);
  }

  /** Assigning a key twice is the same as assigning it the second value once. */
  lemma PutPut<K(!new), V>(d: Dict<K, V>, k: K, v: V, w: V)
    ensures Put(Put(d, k, v), k, w) == Put(d, k, w)
  {
    var i := IndexOf(d, k);
    var r := Put(d, k, v);
    if i < |d| {
      SameKeysSameIndex(d, r, k);
    } else {
      AppendIndex(d, k, v, k);
    }
  }

  /**
   * A dict without repeated keys is the dict of its entries but the last, which holds no
   * other key, extended by the last.
   */
  lemma LastEntry<K, V>(d: Dict<K, V>, k: K)
    requires d != [] && UniqueKeys(d)
    ensures UniqueKeys(d[..|d| - 1]) && d[|d| - 1].0 !in Keys(d[..|d| - 1])
    ensures Keys(d) == Keys(d[..|d| - 1]) + [d[|d| - 1].0]
    ensures Get(d, k) == if k in Keys(d[..|d| - 1]) then Get(d[..|d| - 1], k)
                         else if k == d[|d| - 1].0 then Some(d[|d| - 1].1) else None
  {
    var init, last := d[..|d| - 1], d[|d| - 1];
    assert d == init + [last];
    forall j | 0 <= j < |init| ensures init[j].0 != last.0 {
      assert d[j] == init[j];
    }
    AppendIndex(init, last.0, last.1, k);
  }
}
