/** A Python dict: an insertion-ordered sequence of entries with distinct keys.
    Iteration visits entries in insertion order; assigning to a present key keeps
    its position, assigning to an absent key appends. */
module Dict {

  import opened Knowledge

  type Dict<K, V> = seq<(K, V)>

  /** The keys of `d`. */
  function Keys<K, V>(d: Dict<K, V>): (r: set<K>)
    ensures forall i :: 0 <= i < |d| ==> d[i].0 in r
  {
    if d == [] then {}
    else
      var rest := Keys(d[1..]);
      assert forall i :: 1 <= i < |d| ==> d[i] == d[1..][i - 1];
      {d[0].0} + rest
  }

  /** Every key in the key set is the key of some entry. */
  lemma {:induction false} KeysOnly<K, V>(d: Dict<K, V>, x: K)
    requires x in Keys(d)
    ensures exists i :: 0 <= i < |d| && d[i].0 == x
  {
    if d[0].0 != x {
      var tail := d[1..];
      KeysOnly(tail, x);
      var i :| 0 <= i < |tail| && tail[i].0 == x;
      assert d[i + 1].0 == x;
    }
  }

  /** No key occurs twice, as in every Python dict. */
  ghost predicate DistinctKeys<K, V>(d: Dict<K, V>)
  {
    forall i, j :: 0 <= i < j < |d| ==> d[i].0 != d[j].0
  }

  /** `d[k] = v`: a present key keeps its place, an absent key is appended. */
  function Set<K(==), V>(d: Dict<K, V>, k: K, v: V): (r: Dict<K, V>)
    ensures Keys(r) == Keys(d) + {k}
    ensures k in Keys(d) ==> |r| == |d|
    ensures k !in Keys(d) ==> r == d + [(k, v)]
  {
    if d == [] then [(k, v)]
    else if d[0].0 == k then [(k, v)] + d[1..]
    else
      [d[0]] + Set(d[1..], k, v)
  }

  /** Assigning to the key of entry `j` of a dict with distinct keys rewrites exactly that
      entry to `(k, v)` in place and leaves every other entry as it was. */
  lemma {:induction false} SetInPlace<K, V>(d: Dict<K, V>, k: K, v: V, j: nat)
    requires DistinctKeys(d) && j < |d| && d[j].0 == k
    ensures var r := Set(d, k, v);
      |r| == |d| && forall i :: 0 <= i < |d| ==> r[i] == (if d[i].0 == k then (k, v) else d[i])
  {
    if j == 0 {
      assert forall i :: 1 <= i < |d| ==> d[i].0 != k;
    } else {
      var tail := d[1..];
      assert d[0].0 != k;
      assert forall i :: 1 <= i < |d| ==> d[i] == tail[i - 1];
      SetInPlace(tail, k, v, j - 1);
    }
  }

  /** Assigning to a key no entry has appends the entry. */
  lemma {:induction false} SetAppends<K, V>(d: Dict<K, V>, k: K, v: V)
    requires forall i :: 0 <= i < |d| ==> d[i].0 != k
    ensures Set(d, k, v) == d + [(k, v)]
  {
    if d != [] {
      var tail := d[1..];
      assert forall i :: 1 <= i < |d| ==> d[i] == tail[i - 1];
      SetAppends(tail, k, v);
      assert d == [d[0]] + tail;
    }
  }

  /** Assignment keeps the keys distinct. */
  lemma SetKeepsDistinct<K, V>(d: Dict<K, V>, k: K, v: V)
    requires DistinctKeys(d)
    ensures DistinctKeys(Set(d, k, v))
  {
    var r := Set(d, k, v);
    if j :| 0 <= j < |d| && d[j].0 == k {
      SetInPlace(d, k, v, j);
      forall a, b | 0 <= a < b < |r| ensures r[a].0 != r[b].0 {
        if d[a].0 == k {
          assert d[b].0 != k && r[b] == d[b];
        } else if d[b].0 == k {
          assert r[a] == d[a];
        } else {
          assert r[a] == d[a] && r[b] == d[b];
        }
      }
    } else {
      SetAppends(d, k, v);
      forall a, b | 0 <= a < b < |r| ensures r[a].0 != r[b].0 {
        assert r[a] == d[a];
        if b < |d| {
          assert r[b] == d[b];
        } else {
          assert r[b] == (k, v) && d[a].0 != k;
        }
      }
    }
  }

  /** The first key in iteration order, as `next(iter(d.keys()))` on a non-empty dict. */
  function FirstKey<K, V>(d: Dict<K, V>): (r: Option<K>)
    ensures r.None? <==> Keys(d) == {}
    ensures r.Some? ==> r.value in Keys(d)
  {
    if d == [] then None else Some(d[0].0)
  }
}
