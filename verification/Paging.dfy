/**
 Keyset paging over any order: each page holds the first rows beyond the last row of
 the page before, taken from the table as it stands when the page is asked for.
 */
module Paging {
  import opened Ranking
  import opened Wrappers

  datatype Sheet<T> = Sheet(rows: seq<T>, more: bool)

  ghost predicate Transitive<T(!new)>(less: (T, T) -> bool) {
    forall a, b, c :: less(a, b) && less(b, c) ==> less(a, c)
  }

  ghost function Beyond<T(!new)>(less: (T, T) -> bool, s: set<T>, from: Option<T>): set<T> {
    if from.Some? then set r | r in s && less(from.value, r) else s
  }

  ghost predicate AllBeyond<T(!new)>(less: (T, T) -> bool, q: seq<T>, from: Option<T>) {
    from.Some? ==> forall r :: r in q ==> less(from.value, r)
  }

  ghost predicate IsSheet<T(!new)>(less: (T, T) -> bool, rest: set<T>, limit: nat, sheet: Sheet<T>) {
    && Sortable(less, rest)
    && sheet == Sheet(Top(less, rest, limit), |rest| > limit)
  }

  /** What a sheet leaves of the rest lies beyond its last row. */
  ghost predicate Leaves<T(!new)>(less: (T, T) -> bool, rest: set<T>, sheet: Sheet<T>) {
    if sheet.more then
      sheet.rows != [] && forall r :: r in rest ==> r in sheet.rows || less(sheet.rows[|sheet.rows|-1], r)
    else forall r :: r in rest ==> r in sheet.rows
  }

  lemma SheetFacts<T(!new)>(less: (T, T) -> bool, rest: set<T>, limit: nat, sheet: Sheet<T>)
    requires limit >= 1 && IsSheet(less, rest, limit, sheet)
    ensures Increasing(less, sheet.rows) && Leaves(less, rest, sheet)
    ensures forall r :: r in sheet.rows ==> r in rest
    ensures sheet.more ==> |sheet.rows| == limit
  {
    var all := Ordered(less, rest);
    OrderedLists(less, rest);
    TopIsPrefix(less, rest, limit);
    forall r | r in rest ensures r in sheet.rows || (|rest| > limit && less(sheet.rows[limit-1], r)) {
      var k :| 0 <= k < |all| && all[k] == r;
      if k < limit {
        assert sheet.rows[k] == r;
      }
    }
  }

  ghost predicate Chain<T(!new)>(less: (T, T) -> bool, tables: seq<set<T>>, from: Option<T>, limit: nat,
                                 sheets: seq<Sheet<T>>)
    decreases |sheets|
  {
    && |tables| == |sheets| >= 1
    && IsSheet(less, Beyond(less, tables[0], from), limit, sheets[0])
    && (|sheets| > 1 ==>
          && sheets[0].more && sheets[0].rows != []
          && Chain(less, tables[1..], Some(sheets[0].rows[|sheets[0].rows|-1]), limit, sheets[1..]))
  }

  /** Between two pages rows are only inserted. */
  ghost predicate OnlyGrows<T(!new)>(tables: seq<set<T>>) {
    forall i, j :: 0 <= i <= j < |tables| ==> tables[i] <= tables[j]
  }

  function AllRows<T>(sheets: seq<Sheet<T>>): seq<T> {
    if sheets == [] then [] else sheets[0].rows + AllRows(sheets[1..])
  }

  lemma IncreasingJoin<T(!new)>(less: (T, T) -> bool, a: seq<T>, b: seq<T>)
    requires Transitive(less) && Increasing(less, a) && Increasing(less, b)
    requires a != [] && AllBeyond(less, b, Some(a[|a|-1]))
    ensures Increasing(less, a + b)
  {
    var all, last := a + b, a[|a|-1];
    forall i, j | 0 <= i < j < |all| ensures less(all[i], all[j]) {
      if i < |a| <= j {
        assert all[j] in b && less(last, all[j]);
      }
    }
  }

  /** Every row shown is in the table and beyond the start, and they are in order. */
  ghost predicate Shows<T(!new)>(less: (T, T) -> bool, shown: seq<T>, table: set<T>, from: Option<T>) {
    && Increasing(less, shown)
    && AllBeyond(less, shown, from)
    && forall r :: r in shown ==> r in table
  }

  lemma ShowsMore<T(!new)>(less: (T, T) -> bool, page: seq<T>, early: set<T>, from: Option<T>,
                           later: seq<T>, table: set<T>)
    requires Transitive(less) && page != [] && Shows(less, page, early, from) && early <= table
    requires Shows(less, later, table, Some(page[|page|-1]))
    ensures Shows(less, page + later, table, from)
  {
    IncreasingJoin(less, page, later);
    assert page[|page|-1] in page;
  }

  lemma LaterGrows<T(!new)>(tables: seq<set<T>>)
    requires OnlyGrows(tables) && |tables| > 1
    ensures OnlyGrows(tables[1..]) && tables[1..][|tables[1..]|-1] == tables[|tables|-1]
  {
  }

  /**
   Whatever is inserted between the pages, they never show a row twice or out of order,
   and once the last page is reached no row present from the first page on is missed.
   */
  lemma {:induction false} FollowingChain<T(!new)>(less: (T, T) -> bool, tables: seq<set<T>>, from: Option<T>,
                                                   limit: nat, sheets: seq<Sheet<T>>)
    requires limit >= 1 && Transitive(less) && OnlyGrows(tables) && Chain(less, tables, from, limit, sheets)
    ensures Shows(less, AllRows(sheets), tables[|tables|-1], from)
    ensures !sheets[|sheets|-1].more ==>
              forall r :: r in Beyond(less, tables[0], from) ==> r in AllRows(sheets)
    decreases |sheets|
  {
    var sheet := sheets[0];
    SheetFacts(less, Beyond(less, tables[0], from), limit, sheet);
    assert Shows(less, sheet.rows, tables[0], from);
    if |sheets| == 1 {
      assert sheets[1..] == [] && AllRows(sheets) == sheet.rows;
    } else {
      var last := sheet.rows[|sheet.rows|-1];
      assert tables[0] <= tables[1] && tables[0] <= tables[|tables|-1];
      LaterGrows(tables);
      FollowingChain(less, tables[1..], Some(last), limit, sheets[1..]);
      ShowsMore(less, sheet.rows, tables[0], from, AllRows(sheets[1..]), tables[|tables|-1]);
      NoneIsSkipped(less, tables[0], tables[1], from, sheet);
    }
  }

  lemma NoneIsSkipped<T(!new)>(less: (T, T) -> bool, table: set<T>, next: set<T>, from: Option<T>, sheet: Sheet<T>)
    requires sheet.more && Leaves(less, Beyond(less, table, from), sheet) && table <= next
    ensures forall r :: r in Beyond(less, table, from) ==>
              r in sheet.rows || r in Beyond(less, next, Some(sheet.rows[|sheet.rows|-1]))
  {
  }

  lemma {:induction false} AllRowsFit<T(!new)>(less: (T, T) -> bool, table: set<T>, rows: seq<T>)
    requires Sortable(less, table) && Increasing(less, rows) && forall r :: r in rows ==> r in table
    ensures |rows| <= |table|
    decreases |rows|
  {
    if rows != [] {
      var r, rest := rows[0], rows[1..];
      assert HasFirst(less, {r});
      forall x | x in rest ensures x in table - {r} {
        var k :| 0 <= k < |rest| && rest[k] == x;
        assert less(rows[0], rows[k+1]);
      }
      AllRowsFit(less, table - {r}, rest);
    }
  }

  lemma {:induction false} FullSheets<T(!new)>(less: (T, T) -> bool, tables: seq<set<T>>, from: Option<T>,
                                               limit: nat, sheets: seq<Sheet<T>>)
    requires limit >= 1 && Chain(less, tables, from, limit, sheets)
    ensures |AllRows(sheets)| >= (|sheets| - 1) * limit
    decreases |sheets|
  {
    SheetFacts(less, Beyond(less, tables[0], from), limit, sheets[0]);
    if |sheets| > 1 {
      FullSheets(less, tables[1..], Some(sheets[0].rows[|sheets[0].rows|-1]), limit, sheets[1..]);
      assert (|sheets| - 1) * limit == limit + (|sheets[1..]| - 1) * limit;
    }
  }

  /**
   While the table stands still, the pages put together are the whole sorted list, each
   row once; and there are no more full pages than its rows fill.
   */
  lemma ChainIsTheSortedList<T(!new)>(less: (T, T) -> bool, table: set<T>, tables: seq<set<T>>, limit: nat,
                                      sheets: seq<Sheet<T>>)
    requires limit >= 1 && Transitive(less) && Sortable(less, table)
    requires (forall i :: 0 <= i < |tables| ==> tables[i] == table) && Chain(less, tables, None, limit, sheets)
    ensures (|sheets| - 1) * limit <= |table|
    ensures !sheets[|sheets|-1].more ==> AllRows(sheets) == Ordered(less, table)
  {
    FollowingChain(less, tables, None, limit, sheets);
    FullSheets(less, tables, None, limit, sheets);
    AllRowsFit(less, table, AllRows(sheets));
    if !sheets[|sheets|-1].more {
      OrderedIsUnique(less, table, AllRows(sheets));
    }
  }
}
