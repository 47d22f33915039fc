/** The day-by-day cost of moving a dollar, and which day of it is marked as still open. */
module GasDaily {
  import opened Cube
  import opened Days
  import opened Economy
  import opened Gas
  import opened GasPages
  import opened Grouping
  import opened Positions
  import opened Ranking
  import opened Runs
  import opened Series
  import opened Text
  import opened Wrappers

  // ----- both tables end on one day

  /** The latest of some days, None of none. */
  ghost predicate IsLatest(last: Option<Day>, days: set<Day>) {
    if last.None? then days == {} else last.value in days && forall d :: d in days ==> !Earlier(last.value, d)
  }

  ghost function KnownDays(rows: seq<Row>): set<Day> {
    set p | p in rows && p.facilitatorKnown :: p.day
  }

  ghost function KnownCellDays(table: seq<Cell>): set<Day> {
    set r | r in table && r.key.known :: r.key.day
  }

  lemma AnchorIsLatest(table: seq<Cell>, anchor: Option<Day>)
    requires IsAnchor(anchor, table)
    ensures IsLatest(anchor, KnownCellDays(table))
  {
    if anchor.Some? {
      var i :| 0 <= i < |table| && table[i].key.known && table[i].key.day == anchor.value;
      assert table[i] in table;
    }
  }

  /** Each cell has a payment, each payment a cell. */
  lemma CellsHaveTheDays(table: seq<Cell>, rows: seq<Row>, f: Row -> GasTally)
    requires IsGroupBy(GasSum(), table, rows, GasKeyOf, f)
    ensures KnownCellDays(table) == KnownDays(rows)
  {
    forall d | d in KnownDays(rows) ensures d in KnownCellDays(table) {
      var p :| p in rows && p.facilitatorKnown && p.day == d;
      var i := MemberHasGroup(GasSum(), table, rows, GasKeyOf, f, p);
      assert table[i] in table;
    }
    forall d | d in KnownCellDays(table) ensures d in KnownDays(rows) {
      var i :| 0 <= i < |table| && table[i].key.known && table[i].key.day == d;
      var p := GroupHasMember(GasSum(), table, rows, GasKeyOf, f, i);
    }
  }

  ghost function KnownPaymentDays(payments: seq<Payment>): set<Day> {
    set p | p in payments && p.facilitatorKnown :: p.day
  }

  lemma EdgeIsLatest(cube: seq<Group<CubeKey, Tally>>, payments: seq<Payment>, edge: Option<Day>)
    requires IsCube(cube, payments) && IsEdge(edge, cube)
    ensures IsLatest(edge, KnownPaymentDays(payments))
  {
    EdgeOfPayments(payments, cube, edge);
  }

  lemma LatestIsUnique(a: Option<Day>, b: Option<Day>, days: set<Day>)
    requires IsLatest(a, days) && IsLatest(b, days)
    ensures a == b
  {
  }

  /** The same payments as both tables see them. */
  ghost predicate SamePayments(rows: seq<Row>, payments: seq<Payment>) {
    && |rows| == |payments|
    && forall i :: 0 <= i < |rows| ==>
         rows[i].day == payments[i].day && rows[i].facilitatorKnown == payments[i].facilitatorKnown
  }

  lemma SamePaymentsSameDays(rows: seq<Row>, payments: seq<Payment>)
    requires SamePayments(rows, payments)
    ensures KnownDays(rows) == KnownPaymentDays(payments)
  {
    forall d | d in KnownDays(rows) ensures d in KnownPaymentDays(payments) {
      var i :| 0 <= i < |rows| && rows[i].facilitatorKnown && rows[i].day == d;
      assert payments[i] in payments;
    }
    forall d | d in KnownPaymentDays(payments) ensures d in KnownDays(rows) {
      var i :| 0 <= i < |payments| && payments[i].facilitatorKnown && payments[i].day == d;
      assert rows[i] in rows;
    }
  }

  /** The mechanics page's anchor is the day the economy page insists on. */
  lemma AnchorsAgree(table: seq<Cell>, rows: seq<Row>, prices: map<string, real>, anchor: Option<Day>,
                     cube: seq<Group<CubeKey, Tally>>, payments: seq<Payment>, edge: Option<Day>)
    requires NoWeekMissing(rows, prices) && IsGasTable(table, rows, prices) && IsAnchor(anchor, table)
    requires IsCube(cube, payments) && IsEdge(edge, cube) && SamePayments(rows, payments)
    ensures anchor == edge
  {
    FilterAll(rows, HasPrice(prices));
    AnchorIsLatest(table, anchor);
    CellsHaveTheDays(table, rows, ShareOf(rows, prices));
    EdgeIsLatest(cube, payments, edge);
    SamePaymentsSameDays(rows, payments);
    LatestIsUnique(anchor, edge, KnownDays(rows));
  }

  // ----- the series

  datatype DayAcc = DayAcc(usd: real, volume: real)

  function PlusDay(a: DayAcc, b: DayAcc): DayAcc {
    DayAcc(a.usd + b.usd, a.volume + b.volume)
  }

  function DaySum(): Monoid<DayAcc> {
    Monoid(DayAcc(0.0, 0.0), PlusDay)
  }

  lemma DaySumIsLawful()
    ensures Lawful(DaySum())
  {
    forall a, b, c ensures Law(DaySum(), a, b, c) {
    }
  }

  function CellDay(s: Cell): DayAcc {
    DayAcc(s.total.usd, s.total.volume)
  }

  ghost predicate CellsInDayOrder(cells: seq<Cell>) {
    forall i, j :: 0 <= i < j < |cells| ==> !Earlier(cells[j].key.day, cells[i].key.day)
  }

  ghost predicate DayTotals(days: map<string, DayAcc>, cells: seq<Cell>) {
    MapGroups(DaySum(), days, cells, CellText, CellDay)
  }

  ghost predicate DaysListed(order: seq<string>, keys: set<string>, cells: seq<Cell>) {
    InOrder(StringLess, order, keys, cells, CellText)
  }

  function AddToDay(days: map<string, DayAcc>, d: string, a: DayAcc): (r: map<string, DayAcc>)
    ensures r.Keys == days.Keys + {d}
  {
    days[d := PlusDay(if d in days then days[d] else DayAcc(0.0, 0.0), a)]
  }

  lemma DayTotalsGrow(days: map<string, DayAcc>, cells: seq<Cell>, s: Cell)
    requires DayTotals(days, cells)
    ensures DayTotals(AddToDay(days, CellText(s), CellDay(s)), cells + [s])
  {
    DaySumIsLawful();
    MapAdds(DaySum(), days, cells, s, CellText, CellDay);
  }

  lemma CellsAscend(cells: seq<Cell>, s: Cell)
    requires CellsInDayOrder(cells + [s])
    ensures Next(StringLess, cells, s, CellText)
  {
    if cells != [] {
      var all, last := cells + [s], cells[|cells|-1];
      assert all[|cells|-1] == last && all[|cells|] == s;
      DaysCompare(last.key.day, s.key.day);
    }
  }

  lemma DaysListedGrow(order: seq<string>, keys: set<string>, cells: seq<Cell>, s: Cell, d: string)
    requires DaysListed(order, keys, cells) && CellsInDayOrder(cells + [s]) && d == CellText(s)
    ensures DaysListed(ListKey(order, keys, d), keys + {d}, cells + [s])
  {
    TextIsStrictlyOrdered();
    CellsAscend(cells, s);
    OrderGrows(StringLess, order, keys, cells, s, CellText);
  }

  lemma CellPrefixInOrder(cells: seq<Cell>, i: nat)
    requires CellsInDayOrder(cells) && i < |cells|
    ensures CellsInDayOrder(cells[..i] + [cells[i]]) && cells[..i] + [cells[i]] == cells[..i+1]
  {
  }

  method CollectDays(cells: seq<Cell>) returns (order: seq<string>, days: map<string, DayAcc>)
    requires CellsInDayOrder(cells)
    ensures DayTotals(days, cells) && DaysListed(order, days.Keys, cells)
  {
    order, days := [], map[];
    ghost var seen: seq<Cell> := [];
    for i := 0 to |cells|
      invariant seen == cells[..i]
      invariant DayTotals(days, seen)
      invariant DaysListed(order, days.Keys, seen)
    {
      var s := cells[i];
      CellPrefixInOrder(cells, i);
      DayTotalsGrow(days, seen, s);
      DaysListedGrow(order, days.Keys, seen, s, CellText(s));
      order, days := ListKey(order, days.Keys, CellText(s)), AddToDay(days, CellText(s), CellDay(s));
      seen := seen + [s];
    }
    assert cells[..|cells|] == cells;
  }

  datatype CostPoint = CostPoint(day: string, complete: bool, centsPerDollar: real)

  function PointAt(d: string, acc: DayAcc): CostPoint
    requires acc.volume > 0.0
  {
    CostPoint(d, true, acc.usd * 100.0 / acc.volume)
  }

  /** The days that moved anything, in order; the others have no cost per dollar. */
  function PricedDays(order: seq<string>, days: map<string, DayAcc>): (r: seq<CostPoint>)
    requires forall d :: d in order ==> d in days
    ensures forall p :: p in r ==>
              p.complete && p.day in order && days[p.day].volume > 0.0 && p == PointAt(p.day, days[p.day])
    ensures forall d :: d in order && days[d].volume > 0.0 ==> PointAt(d, days[d]) in r
  {
    if order == [] then []
    else
      var d, rest := order[|order|-1], PricedDays(order[..|order|-1], days);
      assert order == order[..|order|-1] + [d];
      if days[d].volume > 0.0 then rest + [PointAt(d, days[d])] else rest
  }

  function MarkLast(series: seq<CostPoint>): seq<CostPoint> {
    if series == [] then [] else series[|series|-1 := series[|series|-1].(complete := false)]
  }

  lemma PricedStep(order: seq<string>, days: map<string, DayAcc>, i: nat)
    requires i < |order| && forall d :: d in order ==> d in days
    ensures order[i] in days
    ensures PricedDays(order[..i+1], days)
         == PricedDays(order[..i], days)
           + if days[order[i]].volume > 0.0 then [PointAt(order[i], days[order[i]])] else []
  {
    assert order[..i+1][..i] == order[..i] && order[..i+1][i] == order[i] && order[i] in order;
  }

  method PriceDays(order: seq<string>, days: map<string, DayAcc>) returns (series: seq<CostPoint>)
    requires forall d :: d in order ==> d in days
    ensures series == MarkLast(PricedDays(order, days))
  {
    series := [];
    for i := 0 to |order|
      invariant series == PricedDays(order[..i], days)
    {
      var d := order[i];
      PricedStep(order, days, i);
      if days[d].volume <= 0.0 {
        continue;
      }
      series := series + [PointAt(d, days[d])];
    }
    assert order[..|order|] == order;
    if |series| > 0 {
      series := series[|series|-1 := series[|series|-1].(complete := false)];
    }
  }

  /** The points of the days' totals, the last marked incomplete. */
  ghost predicate IsCostSeries(series: seq<CostPoint>, cells: seq<Cell>) {
    exists order: seq<string>, days: map<string, DayAcc> ::
      DayTotals(days, cells) && DaysListed(order, days.Keys, cells) && series == MarkLast(PricedDays(order, days))
  }

  method CostDailySeries(cells: seq<Cell>) returns (series: seq<CostPoint>)
    requires CellsInDayOrder(cells)
    ensures IsCostSeries(series, cells)
  {
    var order, days := CollectDays(cells);
    series := PriceDays(order, days);
  }

  lemma LastPriced(order: seq<string>, days: map<string, DayAcc>)
    requires order != [] && Lists(order, days.Keys)
    ensures var series, newest := MarkLast(PricedDays(order, days)), order[|order|-1];
            && newest in days
            && (series != [] ==> !series[|series|-1].complete)
            && (series != [] && series[|series|-1].day == newest <==> days[newest].volume > 0.0)
  {
    var newest, priced := order[|order|-1], PricedDays(order, days);
    assert newest in order;
    if days[newest].volume <= 0.0 && priced != [] {
      assert priced[|priced|-1] in priced;
    }
  }

  // ----- the points, by the cells' own figures

  function OfDay(day: string): Cell -> bool {
    (s: Cell) => Format(s.key.day) == day
  }

  function Dollars(): Cell -> real {
    (s: Cell) => s.total.usd
  }

  function Moved(): Cell -> real {
    (s: Cell) => s.total.volume
  }

  lemma {:induction false} DayAdds(q: seq<Cell>)
    ensures Sum(DaySum(), q, CellDay) == DayAcc(Added(q, Dollars()), Added(q, Moved()))
  {
    if q != [] {
      DayAdds(q[1..]);
    }
  }

  lemma DayIsCells(days: map<string, DayAcc>, cells: seq<Cell>, day: string)
    requires DayTotals(days, cells) && day in days
    ensures days[day] == DayOf(cells, day)
  {
    assert OneGroup(DaySum(), Group(day, days[day]), cells, CellText, CellDay);
    FilterSame(cells, KeyIs(CellText, day), OfDay(day));
    DayAdds(Filter(cells, OfDay(day)));
  }

  /** What the cells of a day cost and moved. */
  function DayOf(cells: seq<Cell>, day: string): DayAcc {
    DayAcc(Added(Filter(cells, OfDay(day)), Dollars()), Added(Filter(cells, OfDay(day)), Moved()))
  }

  /** Something moved, and each dollar of it cost so many cents. */
  predicate CostsCents(acc: DayAcc, cents: real) {
    acc.volume > 0.0 && cents * acc.volume == 100.0 * acc.usd
  }

  ghost predicate PointShows(p: CostPoint, cells: seq<Cell>) {
    CostsCents(DayOf(cells, p.day), p.centsPerDollar)
  }

  ghost predicate DayShown(series: seq<CostPoint>, day: string) {
    exists i :: 0 <= i < |series| && series[i].day == day
  }

  ghost predicate Rise(less: (string, string) -> bool, r: seq<CostPoint>) {
    forall i, j :: 0 <= i < j < |r| ==> less(r[i].day, r[j].day)
  }

  lemma RiseOn(less: (string, string) -> bool, r: seq<CostPoint>, p: CostPoint)
    requires Rise(less, r) && forall i :: 0 <= i < |r| ==> less(r[i].day, p.day)
    ensures Rise(less, r + [p])
  {
  }

  lemma AllBeforeLast(less: (string, string) -> bool, order: seq<string>)
    requires order != [] && Increasing(less, order)
    ensures Increasing(less, order[..|order|-1])
    ensures forall i :: 0 <= i < |order| - 1 ==> less(order[i], order[|order|-1])
  {
  }

  lemma {:induction false} PricedRise(less: (string, string) -> bool, order: seq<string>, days: map<string, DayAcc>)
    requires Increasing(less, order) && forall d :: d in order ==> d in days
    ensures Rise(less, PricedDays(order, days))
  {
    if order != [] {
      var front, d := order[..|order|-1], order[|order|-1];
      AllBeforeLast(less, order);
      PricedRise(less, front, days);
      var r := PricedDays(front, days);
      forall i | 0 <= i < |r| ensures less(r[i].day, d) {
        var k :| 0 <= k < |front| && front[k] == r[i].day;
        assert order[k] == r[i].day;
      }
      if days[d].volume > 0.0 {
        RiseOn(less, r, PointAt(d, days[d]));
      }
    }
  }

  /** The point of a day is what its cells' figures make it. */
  lemma PricedPointShows(p: CostPoint, days: map<string, DayAcc>, cells: seq<Cell>)
    requires DayTotals(days, cells) && p.day in days && days[p.day].volume > 0.0 && p == PointAt(p.day, days[p.day])
    ensures PointShows(p, cells) && p.complete
  {
    DayIsCells(days, cells, p.day);
    CentsOfDollar(p.day, days[p.day]);
  }

  lemma CentsOfDollar(day: string, acc: DayAcc)
    requires acc.volume > 0.0
    ensures CostsCents(acc, PointAt(day, acc).centsPerDollar)
  {
  }

  ghost predicate AllShow(r: seq<CostPoint>, cells: seq<Cell>) {
    forall p :: p in r ==> PointShows(p, cells) && p.complete
  }

  lemma PricedShow(order: seq<string>, days: map<string, DayAcc>, cells: seq<Cell>)
    requires DayTotals(days, cells) && forall d :: d in order ==> d in days
    ensures AllShow(PricedDays(order, days), cells)
  {
    forall p | p in PricedDays(order, days) ensures PointShows(p, cells) && p.complete {
      PricedPointShows(p, days, cells);
    }
  }

  lemma PricedDayIsShown(order: seq<string>, days: map<string, DayAcc>, cells: seq<Cell>, d: string)
    requires DayTotals(days, cells) && (forall x :: x in order ==> x in days) && d in order
    requires DayOf(cells, d).volume > 0.0
    ensures DayShown(MarkLast(PricedDays(order, days)), d)
  {
    DayIsCells(days, cells, d);
    var r := PricedDays(order, days);
    var i :| 0 <= i < |r| && r[i] == PointAt(d, days[d]);
    MarkKeepsDays(r, i);
  }

  lemma MarkKeepsDays(r: seq<CostPoint>, i: nat)
    requires i < |r|
    ensures MarkLast(r)[i].day == r[i].day && DayShown(MarkLast(r), r[i].day)
  {
  }

  /** Marking the last point changes nothing else. */
  ghost predicate Marked(series: seq<CostPoint>, r: seq<CostPoint>) {
    && |series| == |r|
    && forall i :: 0 <= i < |r| ==> series[i] == r[i].(complete := r[i].complete && i + 1 < |r|)
  }

  lemma MarkLastMarks(r: seq<CostPoint>)
    ensures Marked(MarkLast(r), r)
  {
  }

  lemma MarkedShows(series: seq<CostPoint>, r: seq<CostPoint>, cells: seq<Cell>)
    requires Marked(series, r) && AllShow(r, cells)
    ensures forall i :: 0 <= i < |series| ==>
              PointShows(series[i], cells) && (series[i].complete <==> i + 1 < |series|)
  {
    forall i | 0 <= i < |series|
      ensures PointShows(series[i], cells) && (series[i].complete <==> i + 1 < |series|)
    {
      assert r[i] in r;
    }
  }

  /**
   The series shows the cents paid per dollar moved, day after day: every day that moved
   something and no other, only the last marked incomplete.
   */
  lemma SeriesShows(series: seq<CostPoint>, cells: seq<Cell>)
    requires IsCostSeries(series, cells)
    ensures forall i :: 0 <= i < |series| ==>
              PointShows(series[i], cells) && (series[i].complete <==> i + 1 < |series|)
    ensures Rise(StringLess, series)
    ensures forall s :: s in cells && DayOf(cells, Format(s.key.day)).volume > 0.0 ==>
              DayShown(series, Format(s.key.day))
  {
    var order: seq<string>, days: map<string, DayAcc> :|
      DayTotals(days, cells) && DaysListed(order, days.Keys, cells) && series == MarkLast(PricedDays(order, days));
    var r := PricedDays(order, days);
    PricedRise(StringLess, order, days);
    PricedShow(order, days, cells);
    MarkLastMarks(r);
    MarkedShows(series, r, cells);
    assert Rise(StringLess, r) && Marked(series, r);
    forall s | s in cells && DayOf(cells, Format(s.key.day)).volume > 0.0
      ensures DayShown(series, Format(s.key.day))
    {
      assert CellText(s) in days;
      PricedDayIsShown(order, days, cells, Format(s.key.day));
    }
  }

  /** What moved on a day, by the cells of that day. */
  function DayVolume(cells: seq<Cell>, day: string): real {
    Sum(DaySum(), Filter(cells, KeyIs(CellText, day)), CellDay).volume
  }

  /**
   The point marked incomplete is meant to be the newest day.  It is just when that day
   moved something; otherwise the newest day is left out and an older one is marked.
   */
  lemma OpenDayIsNewest(series: seq<CostPoint>, cells: seq<Cell>)
    requires IsCostSeries(series, cells) && cells != []
    ensures series != [] ==> !series[|series|-1].complete
    ensures var newest := CellText(cells[|cells|-1]);
            series != [] && series[|series|-1].day == newest <==> DayVolume(cells, newest) > 0.0
  {
    var order: seq<string>, days: map<string, DayAcc> :|
      DayTotals(days, cells) && DaysListed(order, days.Keys, cells) && series == MarkLast(PricedDays(order, days));
    LastPriced(order, days);
    var newest := order[|order|-1];
    assert OneGroup(DaySum(), Group(newest, days[newest]), cells, CellText, CellDay);
  }

  /** A day that moved two dollars, and after it a day of one payment of nothing. */
  function NothingMovedLast(older: Day, newest: Day): seq<Cell> {
    [Group(GasKey(older, true, "small"), GasTally(1, 0, 0.0, 0.0, 1.0, 2.0)),
     Group(GasKey(newest, true, "dust"), GasTally(1, 1, 0.0, 0.0, 1.0, 0.0))]
  }

  lemma TwoGroups(older: Day, newest: Day, k: string)
    requires Earlier(older, newest)
    ensures var cells := NothingMovedLast(older, newest);
            && CellText(cells[0]) != CellText(cells[1])
            && Filter(cells, KeyIs(CellText, k)) ==
                 (if k == CellText(cells[0]) then [cells[0]] else [])
                 + (if k == CellText(cells[1]) then [cells[1]] else [])
  {
    var cells := NothingMovedLast(older, newest);
    DaysCompare(older, newest);
    FilterTwo(cells[0], cells[1], KeyIs(CellText, k));
    assert cells == [cells[0], cells[1]];
  }

  lemma TwoTotals(older: Day, newest: Day, days: map<string, DayAcc>)
    requires Earlier(older, newest) && DayTotals(days, NothingMovedLast(older, newest))
    ensures days == map[Format(older) := DayAcc(1.0, 2.0), Format(newest) := DayAcc(1.0, 0.0)]
  {
    TwoKeys(older, newest, days);
    TotalOfTwo(older, newest, days, Format(older));
    TotalOfTwo(older, newest, days, Format(newest));
  }

  lemma TwoKnown(older: Day, newest: Day, days: map<string, DayAcc>)
    requires DayTotals(days, NothingMovedLast(older, newest))
    ensures Format(older) in days && Format(newest) in days
  {
    var cells := NothingMovedLast(older, newest);
    assert cells[0] in cells && CellText(cells[0]) == Format(older);
    assert cells[1] in cells && CellText(cells[1]) == Format(newest);
  }

  lemma TwoKeys(older: Day, newest: Day, days: map<string, DayAcc>)
    requires Earlier(older, newest) && DayTotals(days, NothingMovedLast(older, newest))
    ensures days.Keys == {Format(older), Format(newest)} && Format(older) != Format(newest)
  {
    TwoKnown(older, newest, days);
    DaysCompare(older, newest);
    forall k | k in days ensures k == Format(older) || k == Format(newest) {
      TotalOfTwo(older, newest, days, k);
    }
  }

  lemma TotalOfTwo(older: Day, newest: Day, days: map<string, DayAcc>, k: string)
    requires Earlier(older, newest) && DayTotals(days, NothingMovedLast(older, newest)) && k in days
    ensures k == Format(older) || k == Format(newest)
    ensures days[k] == DayAcc(1.0, if k == Format(older) then 2.0 else 0.0)
  {
    var cells := NothingMovedLast(older, newest);
    var a, b := cells[0], cells[1];
    assert OneGroup(DaySum(), Group(k, days[k]), cells, CellText, CellDay);
    TwoGroups(older, newest, k);
    DaySumIsLawful();
    SumOne(DaySum(), a, CellDay);
    SumOne(DaySum(), b, CellDay);
    if k == Format(older) {
      assert Filter(cells, KeyIs(CellText, k)) == [a];
    } else if k == Format(newest) {
      assert Filter(cells, KeyIs(CellText, k)) == [b];
    }
  }

  lemma TwoListed(order: seq<string>, first: string, last: string)
    requires first != last && Lists(order, {first, last}) && order != [] && order[|order|-1] == last
    ensures order == [first, last]
  {
    ListsCount(order, {first, last});
    assert order[0] in order && order[0] != order[1];
  }

  lemma MarkedOfTwo(older: string, newest: string)
    requires older != newest
    ensures var days := map[older := DayAcc(1.0, 2.0), newest := DayAcc(1.0, 0.0)];
            MarkLast(PricedDays([older, newest], days)) == [CostPoint(older, false, 50.0)]
  {
    var days := map[older := DayAcc(1.0, 2.0), newest := DayAcc(1.0, 0.0)];
    assert [older, newest][..1] == [older] && [older][..0] == [];
    assert PricedDays([older], days) == [PointAt(older, days[older])];
  }

  /** A newest day of zero-amount payments only: the day before it is marked incomplete. */
  lemma OlderDayMarked(older: Day, newest: Day, series: seq<CostPoint>)
    requires Earlier(older, newest)
    ensures CellsInDayOrder(NothingMovedLast(older, newest))
    ensures IsCostSeries(series, NothingMovedLast(older, newest)) ==>
              series == [CostPoint(Format(older), false, 50.0)]
  {
    if IsCostSeries(series, NothingMovedLast(older, newest)) {
      var order: seq<string>, days: map<string, DayAcc> :|
        && DayTotals(days, NothingMovedLast(older, newest))
        && DaysListed(order, days.Keys, NothingMovedLast(older, newest))
        && series == MarkLast(PricedDays(order, days));
      MarkedOfThese(older, newest, order, days);
    }
  }

  lemma MarkedOfThese(older: Day, newest: Day, order: seq<string>, days: map<string, DayAcc>)
    requires Earlier(older, newest)
    requires DayTotals(days, NothingMovedLast(older, newest))
    requires DaysListed(order, days.Keys, NothingMovedLast(older, newest))
    ensures MarkLast(PricedDays(order, days)) == [CostPoint(Format(older), false, 50.0)]
  {
    DaysCompare(older, newest);
    TwoTotals(older, newest, days);
    assert days.Keys == {Format(older), Format(newest)};
    TwoListed(order, Format(older), Format(newest));
    MarkedOfTwo(Format(older), Format(newest));
  }
}
