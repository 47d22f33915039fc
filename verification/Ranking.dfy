/**
 ORDER BY and LIMIT.  A query answer is the one sequence that lists a finite set in
 the given order; a limited answer is a prefix of it.
 */
module Ranking {
  /** less orders the members of s strictly and totally. */
  ghost predicate TotalOrder<T>(less: (T, T) -> bool, s: set<T>) {
    && (forall x, y :: x in s && y in s && x != y ==> less(x, y) || less(y, x))
    && (forall x, y :: x in s && y in s && less(x, y) ==> !less(y, x))
    && (forall x, y, z :: x in s && y in s && z in s && less(x, y) && less(y, z) ==> less(x, z))
  }

  ghost predicate IsFirst<T>(less: (T, T) -> bool, s: set<T>, m: T) {
    m in s && !less(m, m) && forall x :: x in s && x != m ==> less(m, x) && !less(x, m)
  }

  ghost predicate HasFirst<T(!new)>(less: (T, T) -> bool, s: set<T>) {
    exists m :: IsFirst(less, s, m)
  }

  /** Every part of s has a first member: what sorting s takes. */
  ghost predicate Sortable<T(!new)>(less: (T, T) -> bool, s: set<T>) {
    forall t :: t <= s && t != {} ==> HasFirst(less, t)
  }

  lemma {:induction false} FirstExists<T(!new)>(less: (T, T) -> bool, s: set<T>)
    requires TotalOrder(less, s) && s != {}
    ensures HasFirst(less, s)
  {
    var x :| x in s;
    var rest := s - {x};
    assert forall y :: y in s ==> y == x || y in rest;
    if rest == {} {
      assert IsFirst(less, s, x);
    } else {
      FirstExists(less, rest);
      var m :| IsFirst(less, rest, m);
      if less(x, m) {
        assert IsFirst(less, s, x);
      } else {
        assert IsFirst(less, s, m);
      }
    }
  }

  lemma TotalOrderSorts<T(!new)>(less: (T, T) -> bool, s: set<T>)
    requires TotalOrder(less, s)
    ensures Sortable(less, s)
  {
    forall t | t <= s && t != {} ensures HasFirst(less, t) {
      FirstExists(less, t);
    }
  }

  ghost function First<T(!new)>(less: (T, T) -> bool, s: set<T>): (m: T)
    requires Sortable(less, s) && s != {}
    ensures IsFirst(less, s, m)
  {
    assert HasFirst(less, s);
    var m :| IsFirst(less, s, m);
    m
  }

  /** The whole answer. */
  ghost function Ordered<T(!new)>(less: (T, T) -> bool, s: set<T>): seq<T>
    requires Sortable(less, s)
    decreases |s|
  {
    if s == {} then [] else [First(less, s)] + Ordered(less, s - {First(less, s)})
  }

  /** The answer limited to n rows. */
  ghost function Top<T(!new)>(less: (T, T) -> bool, s: set<T>, n: nat): seq<T>
    requires Sortable(less, s)
    decreases n
  {
    if s == {} || n == 0 then [] else [First(less, s)] + Top(less, s - {First(less, s)}, n - 1)
  }

  ghost predicate Increasing<T>(less: (T, T) -> bool, q: seq<T>) {
    forall i, j :: 0 <= i < j < |q| ==> less(q[i], q[j])
  }

  lemma IncreasingCons<T>(less: (T, T) -> bool, m: T, q: seq<T>)
    requires Increasing(less, q) && forall x :: x in q ==> less(m, x)
    ensures Increasing(less, [m] + q)
  {
  }

  lemma {:induction false} OrderedLists<T(!new)>(less: (T, T) -> bool, s: set<T>)
    requires Sortable(less, s)
    ensures Increasing(less, Ordered(less, s)) && |Ordered(less, s)| == |s|
    ensures forall x :: x in Ordered(less, s) <==> x in s
    decreases |s|
  {
    if s != {} {
      var m := First(less, s);
      OrderedLists(less, s - {m});
      IncreasingCons(less, m, Ordered(less, s - {m}));
    }
  }

  /** A limited answer is a prefix of the whole one. */
  lemma {:induction false} TopIsPrefix<T(!new)>(less: (T, T) -> bool, s: set<T>, n: nat)
    requires Sortable(less, s)
    ensures |Top(less, s, n)| == if n <= |s| then n else |s|
    ensures Top(less, s, n) <= Ordered(less, s)
    decreases n
  {
    if s != {} && n != 0 {
      TopIsPrefix(less, s - {First(less, s)}, n - 1);
    }
  }

  lemma FirstIsUnique<T(!new)>(less: (T, T) -> bool, s: set<T>, m: T)
    requires Sortable(less, s) && IsFirst(less, s, m)
    ensures First(less, s) == m
  {
  }

  /** A part of the set that keeps the first n of it has the same first n. */
  lemma {:induction false} TopOfPart<T(!new)>(less: (T, T) -> bool, s: set<T>, part: set<T>, n: nat)
    requires Sortable(less, s) && part <= s
    requires forall x :: x in Top(less, s, n) ==> x in part
    ensures Sortable(less, part) && Top(less, part, n) == Top(less, s, n)
    decreases n
  {
    if n > 0 && s != {} {
      var m := First(less, s);
      assert m in Top(less, s, n);
      FirstIsUnique(less, part, m);
      TopMembers(less, s - {m}, n - 1);
      TopOfPart(less, s - {m}, part - {m}, n - 1);
    } else {
      assert s == {} ==> part == {};
    }
  }

  lemma TopMembers<T(!new)>(less: (T, T) -> bool, s: set<T>, n: nat)
    requires Sortable(less, s)
    ensures forall x :: x in Top(less, s, n) ==> x in s
  {
    TopIsPrefix(less, s, n);
    OrderedLists(less, s);
  }

  /** row_number(): one more than the number of members that come before. */
  function RowNumber<T(!new)>(less: (T, T) -> bool, s: set<T>, x: T): nat {
    1 + |set y | y in s && less(y, x)|
  }

  /** Whoever has no more before it has no greater number. */
  lemma RowNumberGrows<T(!new)>(less: (T, T) -> bool, s: set<T>, x: T, y: T)
    requires forall z :: z in s && less(z, x) ==> less(z, y)
    ensures RowNumber(less, s, x) <= RowNumber(less, s, y)
  {
    var a, b := set z | z in s && less(z, x), set z | z in s && less(z, y);
    assert a <= b && b == a + (b - a);
  }

  lemma {:induction false} RowNumberOfTop<T(!new)>(less: (T, T) -> bool, s: set<T>, x: T, n: nat)
    requires Sortable(less, s) && x in s
    ensures RowNumber(less, s, x) <= n <==> x in Top(less, s, n)
    decreases n
  {
    var m := First(less, s);
    var before := set y | y in s && less(y, x);
    if x == m {
      assert before == {};
    } else if n > 0 {
      var rest := s - {m};
      assert before == (set y | y in rest && less(y, x)) + {m};
      RowNumberOfTop(less, rest, x, n - 1);
    }
  }

  /** Only one sequence lists a set in order. */
  lemma {:induction false} OrderedIsUnique<T(!new)>(less: (T, T) -> bool, s: set<T>, q: seq<T>)
    requires Sortable(less, s) && Increasing(less, q)
    requires forall x :: x in q <==> x in s
    ensures q == Ordered(less, s)
    decreases |s|
  {
    if q == [] {
      assert s == {};
    } else {
      assert q[0] in s;
      var m := First(less, s);
      HeadIsFirst(less, s, q);
      forall x ensures x in q[1..] <==> x in s - {m} {
        TailMembers(less, s, q, x);
      }
      OrderedIsUnique(less, s - {m}, q[1..]);
      assert q == [q[0]] + q[1..];
    }
  }

  lemma HeadIsFirst<T(!new)>(less: (T, T) -> bool, s: set<T>, q: seq<T>)
    requires Sortable(less, s) && s != {} && Increasing(less, q) && forall x :: x in q <==> x in s
    ensures q != [] && q[0] == First(less, s)
  {
    var m := First(less, s);
    assert m in q;
    var k :| 0 <= k < |q| && q[k] == m;
    assert q[0] in q;
  }

  lemma TailMembers<T(!new)>(less: (T, T) -> bool, s: set<T>, q: seq<T>, x: T)
    requires Sortable(less, s) && s != {} && Increasing(less, q) && forall y :: y in q <==> y in s
    ensures q != []
    ensures x in q[1..] <==> x in s - {First(less, s)}
  {
    var m := First(less, s);
    HeadIsFirst(less, s, q);
    assert q == [q[0]] + q[1..];
    if x in q[1..] {
      var k :| 0 <= k < |q[1..]| && q[1..][k] == x;
      assert less(q[0], q[k + 1]);
      assert x in q;
    }
  }

  /** The place of a row among the first ones is its place among all. */
  lemma PlaceIsRowNumber<T(!new)>(less: (T, T) -> bool, all: set<T>, n: nat, i: nat)
    requires Sortable(less, all) && i < |Top(less, all, n)|
    ensures RowNumber(less, all, Top(less, all, n)[i]) == i + 1
  {
    var top, list := Top(less, all, n), Ordered(less, all);
    TopIsPrefix(less, all, n);
    TopIsPrefix(less, all, i);
    TopIsPrefix(less, all, i + 1);
    OrderedLists(less, all);
    var e := top[i];
    assert e == list[i] == Top(less, all, i + 1)[i];
    RowNumberOfTop(less, all, e, i + 1);
    RowNumberOfTop(less, all, e, i);
    NotRepeated(less, all, i);
  }

  lemma NotRepeated<T(!new)>(less: (T, T) -> bool, all: set<T>, i: nat)
    requires Sortable(less, all) && i < |Ordered(less, all)|
    ensures Ordered(less, all)[i] !in Ordered(less, all)[..i]
  {
    var list := Ordered(less, all);
    OrderedLists(less, all);
    assert list[i] in list;
    assert HasFirst(less, {list[i]});
    assert !less(list[i], list[i]);
  }

  /** Having a row number up to n is standing at that place among the first n. */
  lemma RankIsPlace<T(!new)>(less: (T, T) -> bool, all: set<T>, n: nat, x: T, rank: nat)
    requires Sortable(less, all) && x in all
    ensures RowNumber(less, all, x) == rank <= n <==> 1 <= rank <= |Top(less, all, n)| && Top(less, all, n)[rank-1] == x
  {
    var top := Top(less, all, n);
    if 1 <= rank <= |top| && top[rank-1] == x {
      PlaceIsRowNumber(less, all, n, rank - 1);
      TopIsPrefix(less, all, n);
    }
    if RowNumber(less, all, x) == rank <= n {
      RowNumberOfTop(less, all, x, n);
      var i :| 0 <= i < |top| && top[i] == x;
      PlaceIsRowNumber(less, all, n, i);
    }
  }
}
