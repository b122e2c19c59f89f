/**
 * The `ORDER BY <column> DESC` of the ledger's list queries: the keys of a
 * table, as a sequence in non-increasing order of one integer column of their
 * rows. Rows with equal keys may come out in any order, as in SQL.
 */
module Ordering {

  predicate Distinct<T(==)>(s: seq<T>)
  {
    forall i, j :: 0 <= i < j < |s| ==> s[i] != s[j]
  }

  /** Every listed key names a row. */
  predicate AllIn<K, V>(ks: seq<K>, m: map<K, V>)
  {
    forall i :: 0 <= i < |ks| ==> ks[i] in m
  }

  /** The rows named by `ks` come in non-increasing order of `key`. */
  predicate SortedDesc<K, V>(ks: seq<K>, m: map<K, V>, key: V -> int)
    requires AllIn(ks, m)
  {
    forall i, j :: 0 <= i < j < |ks| ==> key(m[ks[i]]) >= key(m[ks[j]])
  }

  /** Inserts key `k` before the first listed row whose key is not larger. */
  function InsertDesc<K(!new), V>(ks: seq<K>, k: K, m: map<K, V>, key: V -> int): (r: seq<K>)
    requires k in m && AllIn(ks, m)
    ensures |r| == |ks| + 1 && AllIn(r, m)
    ensures forall x :: x in r <==> x == k || x in ks
    ensures Distinct(ks) && k !in ks ==> Distinct(r)
    ensures SortedDesc(ks, m, key) ==> SortedDesc(r, m, key)
    decreases |ks|
  {
    if ks == [] || key(m[ks[0]]) <= key(m[k]) then [k] + ks
    else
      var tail := InsertDesc(ks[1..], k, m, key);
      assert forall i :: 0 <= i < |tail| ==> tail[i] == k || tail[i] in ks[1..];
      assert Distinct(ks) && k !in ks ==> ks[0] !in tail;
      assert SortedDesc(ks, m, key) ==> forall i :: 0 <= i < |tail| ==> key(m[tail[i]]) <= key(m[ks[0]]);
      [ks[0]] + tail
  }

  /**
   * Lists every key of `m` once, in non-increasing order of `key` of its row,
   * together with the rows themselves.
   */
  method SortedRows<K(!new), V>(m: map<K, V>, key: V -> int) returns (ks: seq<K>, rows: seq<V>)
    ensures |ks| == |rows| == |m| && AllIn(ks, m)
    ensures forall i :: 0 <= i < |ks| ==> rows[i] == m[ks[i]]
    ensures Distinct(ks)
    ensures forall k :: k in m <==> k in ks
    ensures SortedDesc(ks, m, key)
  {
    ks := [];
    var rest := m.Keys;
    while rest != {}
      invariant AllIn(ks, m) && Distinct(ks) && SortedDesc(ks, m, key)
      invariant rest <= m.Keys
      invariant forall k :: k in ks <==> k in m && k !in rest
      invariant |ks| + |rest| == |m|
      decreases |rest|
    {
      var k :| k in rest;
      ks := InsertDesc(ks, k, m, key);
      rest := rest - {k};
    }
    rows := seq(|ks|, i requires 0 <= i < |ks| => m[ks[i]]);
  }
}
