/**
 GROUP BY with additive aggregates.  A grouping lists each key that occurs exactly
 once, in whatever order, with the sum of its group; summing any selection of groups
 is summing the members selected by the same condition.
 */
module Grouping {
  import opened Positions

  /** What an aggregate adds with: counts, amounts, maxima, or a record of several. */
  datatype Monoid<!M> = Monoid(zero: M, plus: (M, M) -> M)

  predicate Law<M(==)>(g: Monoid<M>, a: M, b: M, c: M) {
    && g.plus(g.zero, a) == a
    && g.plus(a, b) == g.plus(b, a)
    && g.plus(g.plus(a, b), c) == g.plus(a, g.plus(b, c))
  }

  ghost predicate Lawful<M(!new)>(g: Monoid<M>) {
    forall a, b, c :: Law(g, a, b, c)
  }

  lemma ZeroPlus<M(!new)>(g: Monoid<M>, a: M)
    requires Lawful(g)
    ensures g.plus(g.zero, a) == a && g.plus(a, g.zero) == a
  {
    assert Law(g, a, g.zero, a);
  }

  lemma PlusMoves<M(!new)>(g: Monoid<M>, a: M, b: M, c: M)
    requires Lawful(g)
    ensures g.plus(g.plus(a, b), c) == g.plus(a, g.plus(b, c)) == g.plus(b, g.plus(a, c))
  {
    assert Law(g, a, b, c) && Law(g, b, a, c);
  }

  function Sum<T, M>(g: Monoid<M>, q: seq<T>, f: T -> M): M {
    if q == [] then g.zero else g.plus(f(q[0]), Sum(g, q[1..], f))
  }

  /** Plain addition of one figure of each member. */
  function Added<T>(q: seq<T>, f: T -> real): real {
    if q == [] then 0.0 else f(q[0]) + Added(q[1..], f)
  }

  datatype Group<K, M> = Group(key: K, total: M)

  function TotalOf<K, M>(): Group<K, M> -> M {
    (r: Group<K, M>) => r.total
  }

  /** Members of one group. */
  function KeyIs<T, K(==)>(key: T -> K, k: K): T -> bool {
    (t: T) => key(t) == k
  }

  function KeyIsNot<T, K(==)>(key: T -> K, k: K): T -> bool {
    (t: T) => key(t) != k
  }

  /** Members whose key meets a condition. */
  function Where<T, K>(key: T -> K, p: K -> bool): T -> bool {
    (t: T) => p(key(t))
  }

  /** Groups whose key meets a condition. */
  function GroupWhere<K, M>(p: K -> bool): Group<K, M> -> bool {
    (r: Group<K, M>) => p(r.key)
  }

  ghost predicate DistinctKeys<K, M>(rows: seq<Group<K, M>>) {
    forall i, j :: 0 <= i < j < |rows| ==> rows[i].key != rows[j].key
  }

  ghost predicate HasKey<K, M>(rows: seq<Group<K, M>>, k: K) {
    exists i :: 0 <= i < |rows| && rows[i].key == k
  }

  ghost predicate IsGroupBy<T(!new), K, M>(g: Monoid<M>, rows: seq<Group<K, M>>, ts: seq<T>,
                                           key: T -> K, f: T -> M)
  {
    && DistinctKeys(rows)
    && (forall t :: t in ts ==> HasKey(rows, key(t)))
    && (forall i :: 0 <= i < |rows| ==> OneGroup(g, rows[i], ts, key, f))
  }

  ghost predicate OneGroup<T(!new), K, M>(g: Monoid<M>, r: Group<K, M>, ts: seq<T>, key: T -> K, f: T -> M) {
    && Filter(ts, KeyIs(key, r.key)) != []
    && r.total == Sum(g, Filter(ts, KeyIs(key, r.key)), f)
  }

  lemma InGroup<T(!new), K>(ts: seq<T>, key: T -> K, k: K, t: T)
    ensures t in Filter(ts, KeyIs(key, k)) <==> t in ts && key(t) == k
  {
  }

  // ----- filters

  lemma {:induction false} FilterCommutes<T(!new)>(q: seq<T>, a: T -> bool, b: T -> bool)
    ensures Filter(Filter(q, a), b) == Filter(Filter(q, b), a)
  {
    if q != [] {
      FilterCommutes(q[1..], a, b);
      FilterAppend(if a(q[0]) then [q[0]] else [], Filter(q[1..], a), b);
      FilterAppend(if b(q[0]) then [q[0]] else [], Filter(q[1..], b), a);
    }
  }

  lemma FilterOne<T(!new)>(a: T, keep: T -> bool)
    ensures Filter([a], keep) == if keep(a) then [a] else []
  {
    assert [a][1..] == [];
  }

  lemma FilterTwo<T(!new)>(a: T, b: T, keep: T -> bool)
    ensures Filter([a, b], keep) == (if keep(a) then [a] else []) + (if keep(b) then [b] else [])
  {
    assert [a, b] == [a] + [b];
    FilterAppend([a], [b], keep);
    FilterOne(a, keep);
    FilterOne(b, keep);
  }

  lemma {:induction false} FilterSame<T(!new)>(q: seq<T>, a: T -> bool, b: T -> bool)
    requires forall x :: x in q ==> a(x) == b(x)
    ensures Filter(q, a) == Filter(q, b)
  {
    if q != [] {
      FilterSame(q[1..], a, b);
    }
  }

  /** Filtering twice is filtering by both conditions. */
  lemma {:induction false} FilterBoth<T(!new)>(q: seq<T>, a: T -> bool, b: T -> bool, both: T -> bool)
    requires forall x :: x in q ==> both(x) == (a(x) && b(x))
    ensures Filter(Filter(q, a), b) == Filter(q, both)
  {
    if q != [] {
      FilterBoth(q[1..], a, b, both);
      FilterAppend(if a(q[0]) then [q[0]] else [], Filter(q[1..], a), b);
    }
  }

  // ----- sums

  lemma SumCons<T, M>(g: Monoid<M>, t: T, q: seq<T>, f: T -> M)
    ensures Sum(g, [t] + q, f) == g.plus(f(t), Sum(g, q, f))
  {
    assert ([t] + q)[1..] == q;
  }

  lemma {:induction false} SumAppend<T, M(!new)>(g: Monoid<M>, a: seq<T>, b: seq<T>, f: T -> M)
    requires Lawful(g)
    ensures Sum(g, a + b, f) == g.plus(Sum(g, a, f), Sum(g, b, f))
  {
    if a == [] {
      assert a + b == b;
      ZeroPlus(g, Sum(g, b, f));
    } else {
      assert (a + b)[1..] == a[1..] + b;
      SumAppend(g, a[1..], b, f);
      PlusMoves(g, f(a[0]), Sum(g, a[1..], f), Sum(g, b, f));
    }
  }

  lemma SumOne<T, M(!new)>(g: Monoid<M>, t: T, f: T -> M)
    requires Lawful(g)
    ensures Sum(g, [t], f) == f(t)
  {
    assert [t][1..] == [];
    ZeroPlus(g, f(t));
  }

  lemma {:induction false} SumSplits<T(!new), M(!new)>(g: Monoid<M>, q: seq<T>, a: T -> bool, b: T -> bool, f: T -> M)
    requires Lawful(g) && forall x :: x in q ==> b(x) == !a(x)
    ensures Sum(g, q, f) == g.plus(Sum(g, Filter(q, a), f), Sum(g, Filter(q, b), f))
  {
    if q == [] {
      ZeroPlus(g, g.zero);
    } else {
      assert b(q[0]) == !a(q[0]);
      SumSplits(g, q[1..], a, b, f);
      var x, s, t := f(q[0]), Sum(g, Filter(q[1..], a), f), Sum(g, Filter(q[1..], b), f);
      PlusMoves(g, x, s, t);
      PlusMoves(g, s, x, t);
      if a(q[0]) {
        assert Filter(q, b) == Filter(q[1..], b);
        SumCons(g, q[0], Filter(q[1..], a), f);
      } else {
        assert Filter(q, a) == Filter(q[1..], a);
        SumCons(g, q[0], Filter(q[1..], b), f);
      }
    }
  }

  lemma {:induction false} SumSame<T(!new), M>(g: Monoid<M>, q: seq<T>, f: T -> M, h: T -> M)
    requires forall x :: x in q ==> f(x) == h(x)
    ensures Sum(g, q, f) == Sum(g, q, h)
  {
    if q != [] {
      SumSame(g, q[1..], f, h);
    }
  }

  lemma SumMoves<T, M(!new)>(g: Monoid<M>, a: seq<T>, t: T, b: seq<T>, f: T -> M)
    requires Lawful(g)
    ensures Sum(g, a + [t] + b, f) == g.plus(f(t), Sum(g, a + b, f))
  {
    assert a + [t] + b == a + ([t] + b);
    SumAppend(g, a, [t] + b, f);
    SumCons(g, t, b, f);
    SumAppend(g, a, b, f);
    PlusMoves(g, Sum(g, a, f), f(t), Sum(g, b, f));
  }

  lemma RemoveFrom<T(!new)>(q: seq<T>, r: seq<T>, i: nat)
    requires q != [] && multiset(q) == multiset(r) && i < |r| && r[i] == q[0]
    ensures multiset(q[1..]) == multiset(r[..i] + r[i+1..])
  {
    TailMultiset(q);
    WithoutOne(r, i);
  }

  lemma WithoutOne<T>(r: seq<T>, i: nat)
    requires i < |r|
    ensures multiset(r[..i] + r[i+1..]) == multiset(r) - multiset{r[i]}
  {
    assert r == r[..i] + [r[i]] + r[i+1..];
  }

  /** The order of the members does not matter. */
  lemma {:induction false} SumPermutes<T(!new), M(!new)>(g: Monoid<M>, q: seq<T>, r: seq<T>, f: T -> M)
    requires Lawful(g) && multiset(q) == multiset(r)
    ensures Sum(g, q, f) == Sum(g, r, f)
    decreases |q|
  {
    if q == [] {
      assert |r| == |multiset(r)| == 0;
    } else {
      assert q[0] in multiset(r);
      var i :| 0 <= i < |r| && r[i] == q[0];
      RemoveFrom(q, r, i);
      SumPermutes(g, q[1..], r[..i] + r[i+1..], f);
      assert r == r[..i] + [r[i]] + r[i+1..];
      SumMoves(g, r[..i], r[i], r[i+1..], f);
    }
  }

  // ----- groups

  lemma RestIsGroupBy<T(!new), K, M>(g: Monoid<M>, rows: seq<Group<K, M>>, ts: seq<T>, key: T -> K, f: T -> M)
    requires rows != [] && IsGroupBy(g, rows, ts, key, f)
    ensures IsGroupBy(g, rows[1..], Filter(ts, KeyIsNot(key, rows[0].key)), key, f)
  {
    var others := KeyIsNot(key, rows[0].key);
    var rest := Filter(ts, others);
    forall t | t in rest ensures HasKey(rows[1..], key(t)) {
      assert HasKey(rows, key(t));
      var i :| 0 <= i < |rows| && rows[i].key == key(t);
      assert rows[1..][i-1].key == key(t);
    }
    forall i | 0 <= i < |rows[1..]| ensures OneGroup(g, rows[1..][i], rest, key, f) {
      var r := rows[1..][i];
      assert r == rows[i+1] && OneGroup(g, rows[i+1], ts, key, f) && rows[0].key != rows[i+1].key;
      FilterBoth(ts, others, KeyIs(key, r.key), KeyIs(key, r.key));
    }
  }

  lemma FirstGroup<T(!new), K(!new), M(!new)>(g: Monoid<M>, r: Group<K, M>, ts: seq<T>, key: T -> K, f: T -> M,
                                              p: K -> bool)
    requires OneGroup(g, r, ts, key, f)
    ensures Sum(g, Filter(Filter(ts, Where(key, p)), KeyIs(key, r.key)), f) == if p(r.key) then r.total else g.zero
  {
    FilterCommutes(ts, Where(key, p), KeyIs(key, r.key));
    if p(r.key) {
      FilterAll(Filter(ts, KeyIs(key, r.key)), Where(key, p));
    } else {
      FilterNone(Filter(ts, KeyIs(key, r.key)), Where(key, p));
    }
  }

  lemma FirstSelected<K(!new), M(!new)>(g: Monoid<M>, rows: seq<Group<K, M>>, p: K -> bool)
    requires Lawful(g) && rows != []
    ensures Sum(g, Filter(rows, GroupWhere(p)), TotalOf())
         == g.plus(if p(rows[0].key) then rows[0].total else g.zero,
                 Sum(g, Filter(rows[1..], GroupWhere(p)), TotalOf()))
  {
    var rest := Filter(rows[1..], GroupWhere(p));
    if p(rows[0].key) {
      assert Filter(rows, GroupWhere(p)) == [rows[0]] + rest;
      SumCons(g, rows[0], rest, TotalOf());
    } else {
      assert Filter(rows, GroupWhere(p)) == rest;
      ZeroPlus(g, Sum(g, rest, TotalOf()));
    }
  }

  lemma SomeGroup<T(!new), K, M>(g: Monoid<M>, rows: seq<Group<K, M>>, ts: seq<T>, key: T -> K, f: T -> M)
    requires IsGroupBy(g, rows, ts, key, f) && ts != []
    ensures rows != []
  {
    assert ts[0] in ts && HasKey(rows, key(ts[0]));
  }

  lemma GroupHasMember<T(!new), K, M>(g: Monoid<M>, rows: seq<Group<K, M>>, ts: seq<T>, key: T -> K, f: T -> M, i: nat)
    returns (t: T)
    requires IsGroupBy(g, rows, ts, key, f) && i < |rows|
    ensures t in ts && key(t) == rows[i].key
  {
    assert OneGroup(g, rows[i], ts, key, f);
    t := Filter(ts, KeyIs(key, rows[i].key))[0];
    assert t in Filter(ts, KeyIs(key, rows[i].key));
    InGroup(ts, key, rows[i].key, t);
  }

  lemma MemberHasGroup<T(!new), K, M>(g: Monoid<M>, rows: seq<Group<K, M>>, ts: seq<T>, key: T -> K, f: T -> M, t: T)
    returns (i: nat)
    requires IsGroupBy(g, rows, ts, key, f) && t in ts
    ensures i < |rows| && rows[i].key == key(t)
  {
    assert HasKey(rows, key(t));
    i :| 0 <= i < |rows| && rows[i].key == key(t);
  }

  /** Any selection of groups sums to the same selection of members. */
  lemma {:induction false} GroupsSum<T(!new), K(!new), M(!new)>(g: Monoid<M>, rows: seq<Group<K, M>>, ts: seq<T>,
                                                               key: T -> K, f: T -> M, p: K -> bool)
    requires Lawful(g) && IsGroupBy(g, rows, ts, key, f)
    ensures Sum(g, Filter(rows, GroupWhere(p)), TotalOf()) == Sum(g, Filter(ts, Where(key, p)), f)
    decreases |rows|
  {
    if ts != [] {
      SomeGroup(g, rows, ts, key, f);
    }
    if rows != [] {
      var k := rows[0].key;
      RestIsGroupBy(g, rows, ts, key, f);
      GroupsSum(g, rows[1..], Filter(ts, KeyIsNot(key, k)), key, f, p);
      SumSplits(g, Filter(ts, Where(key, p)), KeyIs(key, k), KeyIsNot(key, k), f);
      FilterCommutes(ts, Where(key, p), KeyIsNot(key, k));
      FirstGroup(g, rows[0], ts, key, f, p);
      FirstSelected(g, rows, p);
    }
  }

  function Every<K>(): K -> bool {
    (k: K) => true
  }

  /** All groups sum to all members. */
  lemma AllGroupsSum<T(!new), K(!new), M(!new)>(g: Monoid<M>, rows: seq<Group<K, M>>, ts: seq<T>,
                                               key: T -> K, f: T -> M)
    requires Lawful(g) && IsGroupBy(g, rows, ts, key, f)
    ensures Sum(g, rows, TotalOf()) == Sum(g, ts, f)
  {
    GroupsSum(g, rows, ts, key, f, Every());
    FilterAll(rows, GroupWhere(Every()));
    FilterAll(ts, Where(key, Every()));
  }

  /** Adding up and then projecting is projecting and then adding up. */
  lemma {:induction false} SumMaps<T(!new), M(!new), N>(g: Monoid<M>, h: Monoid<N>, pi: M -> N, q: seq<T>,
                                                        f: T -> M, pf: T -> N)
    requires pi(g.zero) == h.zero && forall a, b :: pi(g.plus(a, b)) == h.plus(pi(a), pi(b))
    requires forall t :: t in q ==> pf(t) == pi(f(t))
    ensures Sum(h, q, pf) == pi(Sum(g, q, f))
  {
    if q != [] {
      SumMaps(g, h, pi, q[1..], f, pf);
    }
  }

  /** The same groups with another aggregate. */
  lemma SameGroups<T(!new), K, M, N>(g: Monoid<M>, h: Monoid<N>, rows: seq<Group<K, M>>, others: seq<Group<K, N>>,
                                     ts: seq<T>, key: T -> K, f: T -> M, e: T -> N)
    requires IsGroupBy(g, rows, ts, key, f)
    requires |others| == |rows| && forall i :: 0 <= i < |rows| ==>
               others[i].key == rows[i].key && others[i].total == Sum(h, Filter(ts, KeyIs(key, rows[i].key)), e)
    ensures IsGroupBy(h, others, ts, key, e)
  {
    forall t | t in ts ensures HasKey(others, key(t)) {
      assert HasKey(rows, key(t));
      var i :| 0 <= i < |rows| && rows[i].key == key(t);
      assert others[i].key == key(t);
    }
    forall i | 0 <= i < |others| ensures OneGroup(h, others[i], ts, key, e) {
      assert OneGroup(g, rows[i], ts, key, f);
    }
  }

  lemma {:induction false} OneOfEach<K(!new), M(!new)>(rows: seq<Group<K, M>>, r: Group<K, M>)
    requires DistinctKeys(rows)
    ensures multiset(rows)[r] == if r in rows then 1 else 0
  {
    if rows != [] {
      OneOfEach(rows[1..], r);
      assert rows == [rows[0]] + rows[1..];
    }
  }

  lemma GroupIsInBoth<T(!new), K(!new), M(!new)>(g: Monoid<M>, a: seq<Group<K, M>>, b: seq<Group<K, M>>, ts: seq<T>,
                                                 key: T -> K, f: T -> M, i: nat)
    requires IsGroupBy(g, a, ts, key, f) && IsGroupBy(g, b, ts, key, f) && i < |a|
    ensures a[i] in b
  {
    var t := GroupHasMember(g, a, ts, key, f, i);
    var j := MemberHasGroup(g, b, ts, key, f, t);
    assert OneGroup(g, a[i], ts, key, f) && OneGroup(g, b[j], ts, key, f);
  }

  /** Two groupings of the same members have the same groups, each once. */
  lemma GroupingsAgree<T(!new), K(!new), M(!new)>(g: Monoid<M>, a: seq<Group<K, M>>, b: seq<Group<K, M>>, ts: seq<T>,
                                                  key: T -> K, f: T -> M)
    requires IsGroupBy(g, a, ts, key, f) && IsGroupBy(g, b, ts, key, f)
    ensures multiset(a) == multiset(b)
  {
    forall r ensures multiset(a)[r] == multiset(b)[r] {
      OneOfEach(a, r);
      OneOfEach(b, r);
      if i :| 0 <= i < |a| && a[i] == r {
        GroupIsInBoth(g, a, b, ts, key, f, i);
      }
      if i :| 0 <= i < |b| && b[i] == r {
        GroupIsInBoth(g, b, a, ts, key, f, i);
      }
    }
  }

  // ----- building groups one member at a time

  lemma GroupGrows<T(!new), K, M(!new)>(g: Monoid<M>, k: K, ts: seq<T>, t: T, key: T -> K, f: T -> M)
    requires Lawful(g)
    ensures Filter(ts + [t], KeyIs(key, k)) == Filter(ts, KeyIs(key, k)) + if key(t) == k then [t] else []
    ensures Sum(g, Filter(ts + [t], KeyIs(key, k)), f)
         == if key(t) == k then g.plus(Sum(g, Filter(ts, KeyIs(key, k)), f), f(t))
            else Sum(g, Filter(ts, KeyIs(key, k)), f)
  {
    FilterAppend(ts, [t], KeyIs(key, k));
    assert [t][1..] == [];
    if key(t) == k {
      SumAppend(g, Filter(ts, KeyIs(key, k)), [t], f);
      SumOne(g, t, f);
    } else {
      assert Filter(ts + [t], KeyIs(key, k)) == Filter(ts, KeyIs(key, k));
    }
  }

  lemma NoGroupYet<T(!new), K(!new), M(!new)>(g: Monoid<M>, rows: seq<Group<K, M>>, ts: seq<T>, k: K, key: T -> K,
                                              f: T -> M)
    requires IsGroupBy(g, rows, ts, key, f) && !HasKey(rows, k)
    ensures Filter(ts, KeyIs(key, k)) == []
  {
    FilterNone(ts, KeyIs(key, k));
  }

  /** A member with a key not seen before opens a group. */
  lemma NewGroup<T(!new), K(!new), M(!new)>(g: Monoid<M>, rows: seq<Group<K, M>>, ts: seq<T>, t: T, key: T -> K,
                                            f: T -> M)
    requires Lawful(g) && IsGroupBy(g, rows, ts, key, f) && !HasKey(rows, key(t))
    ensures IsGroupBy(g, rows + [Group(key(t), g.plus(g.zero, f(t)))], ts + [t], key, f)
  {
    var more := rows + [Group(key(t), g.plus(g.zero, f(t)))];
    NoGroupYet(g, rows, ts, key(t), key, f);
    forall i | 0 <= i < |more| ensures OneGroup(g, more[i], ts + [t], key, f) {
      GroupGrows(g, more[i].key, ts, t, key, f);
      if i < |rows| {
        assert OneGroup(g, rows[i], ts, key, f) && rows[i].key != key(t);
      }
    }
    forall u | u in ts + [t] ensures HasKey(more, key(u)) {
      if u in ts {
        assert HasKey(rows, key(u));
        var i :| 0 <= i < |rows| && rows[i].key == key(u);
        assert more[i].key == key(u);
      } else {
        assert more[|rows|].key == key(u);
      }
    }
  }

  /** A member with a known key joins its group. */
  lemma JoinGroup<T(!new), K(!new), M(!new)>(g: Monoid<M>, rows: seq<Group<K, M>>, j: nat, ts: seq<T>, t: T,
                                             key: T -> K, f: T -> M)
    requires Lawful(g) && IsGroupBy(g, rows, ts, key, f) && j < |rows| && rows[j].key == key(t)
    ensures IsGroupBy(g, rows[j := Group(key(t), g.plus(rows[j].total, f(t)))], ts + [t], key, f)
  {
    var more := rows[j := Group(key(t), g.plus(rows[j].total, f(t)))];
    forall i | 0 <= i < |more| ensures OneGroup(g, more[i], ts + [t], key, f) {
      GroupGrows(g, more[i].key, ts, t, key, f);
      assert OneGroup(g, rows[i], ts, key, f);
      assert i != j ==> rows[i].key != rows[j].key;
    }
    forall u | u in ts + [t] ensures HasKey(more, key(u)) {
      assert HasKey(rows, key(u));
      var i :| 0 <= i < |rows| && rows[i].key == key(u);
      assert more[i].key == key(u);
    }
  }

  /** The same, held in a map from key to running total. */
  ghost predicate MapGroups<T(!new), K(!new), M>(g: Monoid<M>, m: map<K, M>, ts: seq<T>, key: T -> K, f: T -> M) {
    && (forall t :: t in ts ==> key(t) in m)
    && (forall k :: k in m ==> OneGroup(g, Group(k, m[k]), ts, key, f))
  }

  lemma MapAdds<T(!new), K(!new), M(!new)>(g: Monoid<M>, m: map<K, M>, ts: seq<T>, t: T, key: T -> K, f: T -> M)
    requires Lawful(g) && MapGroups(g, m, ts, key, f)
    ensures MapGroups(g, m[key(t) := g.plus(if key(t) in m then m[key(t)] else g.zero, f(t))], ts + [t], key, f)
  {
    var more := m[key(t) := g.plus(if key(t) in m then m[key(t)] else g.zero, f(t))];
    if key(t) !in m {
      FilterNone(ts, KeyIs(key, key(t)));
    }
    forall k | k in more ensures OneGroup(g, Group(k, more[k]), ts + [t], key, f) {
      GroupGrows(g, k, ts, t, key, f);
      assert k in m ==> OneGroup(g, Group(k, m[k]), ts, key, f);
    }
  }

  /** The keys of the map, listed without repeats. */
  ghost predicate Lists<K(!new)>(order: seq<K>, keys: set<K>) {
    && (forall i, j :: 0 <= i < j < |order| ==> order[i] != order[j])
    && (forall k :: k in order <==> k in keys)
  }

  lemma {:induction false} ListsCount<K(!new)>(order: seq<K>, keys: set<K>)
    requires Lists(order, keys)
    ensures |order| == |keys|
    decreases |order|
  {
    if order == [] {
      assert keys == {};
    } else {
      var front, last := order[..|order|-1], order[|order|-1];
      assert order == front + [last];
      ListsCount(front, keys - {last});
    }
  }

  function Entries<K, M>(order: seq<K>, m: map<K, M>): (r: seq<Group<K, M>>)
    requires forall k :: k in order ==> k in m
    ensures |r| == |order| && forall i :: 0 <= i < |r| ==> r[i] == Group(order[i], m[order[i]])
  {
    if order == [] then [] else [Group(order[0], m[order[0]])] + Entries(order[1..], m)
  }

  lemma MapIsGroupBy<T(!new), K(!new), M(!new)>(g: Monoid<M>, m: map<K, M>, order: seq<K>, ts: seq<T>,
                                                key: T -> K, f: T -> M)
    requires MapGroups(g, m, ts, key, f) && Lists(order, m.Keys)
    ensures IsGroupBy(g, Entries(order, m), ts, key, f)
  {
    var rows := Entries(order, m);
    forall t | t in ts ensures HasKey(rows, key(t)) {
      assert key(t) in order;
      var i :| 0 <= i < |order| && order[i] == key(t);
      assert rows[i].key == key(t);
    }
    forall i | 0 <= i < |rows| ensures OneGroup(g, rows[i], ts, key, f) {
      assert order[i] in order;
    }
  }
}
