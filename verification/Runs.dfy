/** Collapsing rows that come ordered by a key into one total per key, in key order. */
module Runs {
  import opened Grouping
  import opened Ranking

  predicate OrderLaw<K>(less: (K, K) -> bool, a: K, b: K, c: K) {
    !less(a, a) && (less(a, b) && less(b, c) ==> less(a, c))
  }

  ghost predicate StrictOrder<K(!new)>(less: (K, K) -> bool) {
    forall a, b, c :: OrderLaw(less, a, b, c)
  }

  ghost predicate Rising<K(!new), M(!new)>(less: (K, K) -> bool, rows: seq<Group<K, M>>) {
    forall i, j :: 0 <= i < j < |rows| ==> less(rows[i].key, rows[j].key)
  }

  /** The key comes with the last row or after it. */
  ghost predicate Next<T, K>(less: (K, K) -> bool, ts: seq<T>, t: T, key: T -> K) {
    ts != [] ==> key(ts[|ts|-1]) == key(t) || less(key(ts[|ts|-1]), key(t))
  }

  // ----- totals in a list

  /** The groups stand in key order, the last one the group of the last row. */
  ghost predicate RowsInOrder<T(!new), K(!new), M(!new)>(less: (K, K) -> bool, rows: seq<Group<K, M>>, ts: seq<T>,
                                                         key: T -> K)
  {
    && Rising(less, rows)
    && (rows != [] <==> ts != [])
    && (rows != [] ==> rows[|rows|-1].key == key(ts[|ts|-1]))
  }

  lemma BeyondTheLast<K(!new), M(!new)>(less: (K, K) -> bool, rows: seq<Group<K, M>>, k: K)
    requires StrictOrder(less) && Rising(less, rows)
    requires rows != [] ==> less(rows[|rows|-1].key, k)
    ensures (forall i :: 0 <= i < |rows| ==> less(rows[i].key, k)) && !HasKey(rows, k)
  {
    forall i | 0 <= i < |rows| ensures less(rows[i].key, k) && rows[i].key != k {
      assert i < |rows| - 1 ==> less(rows[i].key, rows[|rows|-1].key);
      assert OrderLaw(less, rows[i].key, rows[|rows|-1].key, k) && OrderLaw(less, k, k, k);
    }
  }

  lemma RowOpens<T(!new), K(!new), M(!new)>(less: (K, K) -> bool, rows: seq<Group<K, M>>, ts: seq<T>, t: T, key: T -> K,
                                            total: M)
    requires StrictOrder(less) && RowsInOrder(less, rows, ts, key) && Next(less, ts, t, key)
    requires ts != [] ==> key(ts[|ts|-1]) != key(t)
    ensures RowsInOrder(less, rows + [Group(key(t), total)], ts + [t], key) && !HasKey(rows, key(t))
  {
    BeyondTheLast(less, rows, key(t));
  }

  lemma RowGoesOn<T(!new), K(!new), M(!new)>(less: (K, K) -> bool, rows: seq<Group<K, M>>, ts: seq<T>, t: T,
                                             key: T -> K, total: M)
    requires RowsInOrder(less, rows, ts, key) && ts != [] && key(ts[|ts|-1]) == key(t)
    ensures RowsInOrder(less, rows[|rows|-1 := Group(key(t), total)], ts + [t], key)
  {
  }

  // ----- totals in a map, with the keys listed as they first appear

  /** A key not before the last listed is listed last, or comes last. */
  lemma ListGrows<K(!new)>(less: (K, K) -> bool, order: seq<K>, keys: set<K>, k: K)
    requires StrictOrder(less) && Increasing(less, order) && Lists(order, keys)
    requires order != [] ==> order[|order|-1] == k || less(order[|order|-1], k)
    ensures var more := if k in keys then order else order + [k];
            Lists(more, keys + {k}) && Increasing(less, more) && more != [] && more[|more|-1] == k
  {
    forall i | 0 <= i < |order| ensures order[i] == k || less(order[i], k) {
      assert i < |order| - 1 ==> less(order[i], order[|order|-1]);
      assert OrderLaw(less, order[i], order[|order|-1], k);
    }
    assert OrderLaw(less, k, k, k);
    if k in keys {
      LastListed(less, order, k);
    }
  }

  lemma LastListed<K(!new)>(less: (K, K) -> bool, order: seq<K>, k: K)
    requires StrictOrder(less) && Increasing(less, order) && k in order
    requires order[|order|-1] == k || less(order[|order|-1], k)
    ensures order[|order|-1] == k
  {
    var i :| 0 <= i < |order| && order[i] == k;
    assert OrderLaw(less, order[i], order[|order|-1], order[i]);
  }

  /** Keys listed in order, the last one the key of the last row. */
  ghost predicate InOrder<T(!new), K(!new)>(less: (K, K) -> bool, order: seq<K>, keys: set<K>, ts: seq<T>,
                                            key: T -> K)
  {
    && Lists(order, keys)
    && Increasing(less, order)
    && (order != [] <==> ts != [])
    && (order != [] ==> order[|order|-1] == key(ts[|ts|-1]))
  }

  lemma OrderGrows<T(!new), K(!new)>(less: (K, K) -> bool, order: seq<K>, keys: set<K>, ts: seq<T>, t: T, key: T -> K)
    requires StrictOrder(less) && InOrder(less, order, keys, ts, key) && Next(less, ts, t, key)
    ensures InOrder(less, if key(t) in keys then order else order + [key(t)], keys + {key(t)}, ts + [t], key)
  {
    ListGrows(less, order, keys, key(t));
  }
}
