/**
 The (block_number, log_index) order every batch is processed and written in, and
 the library sort that establishes it.  Go's sort.Slice promises a permutation in
 order and nothing about ties, so SortSlice promises no more than that.
 */
module Positions {
  datatype Position = Position(block: nat, logIndex: nat)

  predicate Before(a: Position, b: Position) {
    a.block < b.block || (a.block == b.block && a.logIndex < b.logIndex)
  }

  ghost predicate Ascending<T>(s: seq<T>, pos: T -> Position) {
    forall i, j :: 0 <= i < j < |s| ==> !Before(pos(s[j]), pos(s[i]))
  }

  ghost predicate StrictlyAscending<T>(s: seq<T>, pos: T -> Position) {
    forall i, j :: 0 <= i < j < |s| ==> Before(pos(s[i]), pos(s[j]))
  }

  ghost predicate DistinctPositions<T>(s: seq<T>, pos: T -> Position) {
    forall i, j :: 0 <= i < j < |s| ==> pos(s[i]) != pos(s[j])
  }

  function Filter<T(!new)>(s: seq<T>, keep: T -> bool): (r: seq<T>)
    ensures forall x :: x in r <==> x in s && keep(x)
  {
    if s == [] then [] else (if keep(s[0]) then [s[0]] else []) + Filter(s[1..], keep)
  }

  function Insert<T(!new)>(x: T, s: seq<T>, pos: T -> Position): (r: seq<T>)
    requires Ascending(s, pos)
    ensures Ascending(r, pos) && multiset(r) == multiset([x]) + multiset(s)
  {
    if s == [] then [x]
    else if !Before(pos(s[0]), pos(x)) then AscendingCons(x, s, pos); [x] + s
    else
      var rest := Insert(x, s[1..], pos);
      assert s == [s[0]] + s[1..];
      assert forall k :: 0 <= k < |rest| ==> rest[k] in multiset(rest);
      assert forall k :: 0 <= k < |rest| ==> rest[k] == x || rest[k] in s[1..];
      AscendingCons(s[0], rest, pos);
      [s[0]] + rest
  }

  lemma AscendingCons<T>(x: T, s: seq<T>, pos: T -> Position)
    requires Ascending(s, pos)
    requires forall k :: 0 <= k < |s| ==> !Before(pos(s[k]), pos(x))
    ensures Ascending([x] + s, pos)
  {
  }

  function Sorted<T(!new)>(s: seq<T>, pos: T -> Position): (r: seq<T>)
    ensures Ascending(r, pos) && multiset(r) == multiset(s)
  {
    if s == [] then []
    else
      assert s == [s[0]] + s[1..];
      Insert(s[0], Sorted(s[1..], pos), pos)
  }

  method SortSlice<T(!new)>(s: seq<T>, pos: T -> Position) returns (r: seq<T>)
    ensures multiset(r) == multiset(s) && Ascending(r, pos)
  {
    r := Sorted(s, pos);
  }

  lemma PermutationKeepsDistinct<T(!new)>(s: seq<T>, t: seq<T>, pos: T -> Position)
    requires multiset(s) == multiset(t) && DistinctPositions(s, pos)
    ensures DistinctPositions(t, pos)
  {
    forall i, j | 0 <= i < j < |t| ensures pos(t[i]) != pos(t[j]) {
      if pos(t[i]) == pos(t[j]) {
        assert t[i] in multiset(s) && t[j] in multiset(s);
        var a :| 0 <= a < |s| && s[a] == t[i];
        if t[i] == t[j] {
          CountedTwice(t, i, j);
          assert multiset(s)[t[i]] >= 2;
          OnceOnly(s, pos, a);
        }
      }
    }
  }

  lemma CountedTwice<T>(t: seq<T>, i: nat, j: nat)
    requires i < j < |t| && t[i] == t[j]
    ensures multiset(t)[t[i]] >= 2
  {
    assert t == t[..j] + [t[j]] + t[j+1..];
    assert t[..j][i] == t[i];
    assert t[i] in multiset(t[..j]);
  }

  lemma OnceOnly<T>(s: seq<T>, pos: T -> Position, a: nat)
    requires a < |s| && DistinctPositions(s, pos)
    ensures multiset(s)[s[a]] == 1
  {
    var left, right := s[..a], s[a+1..];
    assert s == left + [s[a]] + right;
    assert s[a] !in left && s[a] !in right;
    assert multiset(s) == multiset(left) + multiset([s[a]]) + multiset(right);
  }

  lemma FirstIsUnique<T(!new)>(s: seq<T>, t: seq<T>, pos: T -> Position)
    requires s != [] && t != [] && (forall x :: x in s <==> x in t)
    requires Ascending(s, pos) && Ascending(t, pos) && DistinctPositions(s, pos)
    ensures s[0] == t[0]
  {
    assert s[0] in s && t[0] in t;
    var i :| 0 <= i < |s| && s[i] == t[0];
    var j :| 0 <= j < |t| && t[j] == s[0];
    assert !Before(pos(t[j]), pos(t[0])) || j == 0;
    assert !Before(pos(s[i]), pos(s[0])) || i == 0;
    assert pos(s[0]) == pos(s[i]);
  }

  /** With distinct positions the sorted order is the only one: no sort can differ. */
  lemma {:induction false} SortedIsUnique<T(!new)>(s: seq<T>, t: seq<T>, pos: T -> Position)
    requires multiset(s) == multiset(t)
    requires Ascending(s, pos) && Ascending(t, pos) && DistinctPositions(s, pos)
    ensures s == t
  {
    SameLength(s, t);
    if s != [] {
      SameMembers(s, t);
      FirstIsUnique(s, t, pos);
      TailsPermute(s, t);
      TailStaysSorted(s, pos);
      TailStaysSorted(t, pos);
      SortedIsUnique(s[1..], t[1..], pos);
      assert s == [s[0]] + s[1..] && t == [t[0]] + t[1..];
    }
  }

  lemma SameLength<T>(s: seq<T>, t: seq<T>)
    requires multiset(s) == multiset(t)
    ensures |s| == |t|
  {
    assert |s| == |multiset(s)| == |multiset(t)| == |t|;
  }

  lemma TailsPermute<T>(s: seq<T>, t: seq<T>)
    requires s != [] && t != [] && multiset(s) == multiset(t) && s[0] == t[0]
    ensures multiset(s[1..]) == multiset(t[1..])
  {
    TailMultiset(s);
    TailMultiset(t);
  }

  lemma TailStaysSorted<T>(s: seq<T>, pos: T -> Position)
    requires s != [] && Ascending(s, pos)
    ensures Ascending(s[1..], pos) && (DistinctPositions(s, pos) ==> DistinctPositions(s[1..], pos))
  {
  }

  lemma SameMembers<T(!new)>(s: seq<T>, t: seq<T>)
    requires multiset(s) == multiset(t)
    ensures forall x :: x in s <==> x in t
  {
    forall x ensures x in s <==> x in t {
      assert x in s <==> x in multiset(s);
      assert x in t <==> x in multiset(t);
    }
  }

  lemma TailMultiset<T>(s: seq<T>)
    requires s != []
    ensures multiset(s[1..]) == multiset(s) - multiset{s[0]}
  {
    assert s == [s[0]] + s[1..];
  }

  lemma {:induction false} FilterKeepsMultiset<T(!new)>(s: seq<T>, t: seq<T>, keep: T -> bool)
    requires multiset(s) == multiset(t)
    ensures multiset(Filter(s, keep)) == multiset(Filter(t, keep))
  {
    forall x ensures multiset(Filter(s, keep))[x] == multiset(Filter(t, keep))[x] {
      FilterCount(s, keep, x);
      FilterCount(t, keep, x);
    }
  }

  lemma {:induction false} FilterCount<T(!new)>(s: seq<T>, keep: T -> bool, x: T)
    ensures multiset(Filter(s, keep))[x] == if keep(x) then multiset(s)[x] else 0
  {
    if s != [] {
      assert s == [s[0]] + s[1..];
      FilterCount(s[1..], keep, x);
    }
  }

  lemma {:induction false} FilterAppend<T(!new)>(a: seq<T>, b: seq<T>, keep: T -> bool)
    ensures Filter(a + b, keep) == Filter(a, keep) + Filter(b, keep)
  {
    if a == [] {
      assert a + b == b;
    } else {
      assert (a + b)[1..] == a[1..] + b;
      FilterAppend(a[1..], b, keep);
    }
  }

  lemma {:induction false} FilterAll<T(!new)>(q: seq<T>, a: T -> bool)
    requires forall x :: x in q ==> a(x)
    ensures Filter(q, a) == q
  {
    if q != [] {
      FilterAll(q[1..], a);
    }
  }

  lemma {:induction false} FilterNone<T(!new)>(q: seq<T>, a: T -> bool)
    requires forall x :: x in q ==> !a(x)
    ensures Filter(q, a) == []
  {
    if q != [] {
      FilterNone(q[1..], a);
    }
  }

  lemma FilterStep<T(!new)>(s: seq<T>, i: nat, keep: T -> bool)
    requires i < |s|
    ensures Filter(s[..i+1], keep) == Filter(s[..i], keep) + if keep(s[i]) then [s[i]] else []
  {
    assert s[..i+1] == s[..i] + [s[i]];
    FilterPush(s[..i], s[i], keep);
  }

  lemma FilterPush<T(!new)>(s: seq<T>, x: T, keep: T -> bool)
    ensures Filter(s + [x], keep) == Filter(s, keep) + if keep(x) then [x] else []
  {
    FilterAppend(s, [x], keep);
    assert [x][1..] == [];
  }
}
