/**
 The two readers of the gas table.  The economy page bounds its windows by comparing
 day texts, the mechanics page by comparing dates it parses back from those texts.
 */
module GasPages {
  import opened Cube
  import opened Days
  import opened Gas
  import opened Grouping
  import opened Positions
  import opened Text
  import opened Wrappers

  type Cell = Group<GasKey, GasTally>

  function KnownCells(asOf: Day): Cell -> bool {
    (r: Cell) => r.key.known && !Earlier(asOf, r.key.day)
  }

  /** The verified rows of the table up to asOf, in no order in particular. */
  ghost predicate Answers(answer: seq<Cell>, table: seq<Cell>, asOf: Day) {
    multiset(answer) == multiset(Filter(table, KnownCells(asOf)))
  }

  function CellText(s: Cell): string {
    Format(s.key.day)
  }

  function CellBand(s: Cell): string {
    s.key.band
  }

  function InGasWindow(asOf: Day, w: Window): Cell -> bool {
    (s: Cell) => InWindow(asOf, w, s.key.day)
  }

  function GasKeyInWindow(asOf: Day, w: Window): GasKey -> bool {
    (k: GasKey) => k.known && !Earlier(asOf, k.day) && InWindow(asOf, w, k.day)
  }

  function GasKeyInWindowBand(asOf: Day, w: Window, band: string): GasKey -> bool {
    (k: GasKey) => GasKeyInWindow(asOf, w)(k) && k.band == band
  }

  /** What the table holds of one band of the window. */
  function TableBand(table: seq<Cell>, asOf: Day, w: Window, band: string): GasTally {
    Sum(GasSum(), Filter(table, GroupWhere(GasKeyInWindowBand(asOf, w, band))), TotalOf())
  }

  lemma BandOfAnswer(answer: seq<Cell>, asOf: Day, w: Window, band: string)
    ensures Filter(Filter(answer, InGasWindow(asOf, w)), KeyIs(CellBand, band))
         == Filter(answer, InWindowAndBand(asOf, w, band))
  {
    FilterBoth(answer, InGasWindow(asOf, w), KeyIs(CellBand, band), InWindowAndBand(asOf, w, band));
  }

  lemma BandOfTable(table: seq<Cell>, asOf: Day, w: Window, band: string)
    ensures Filter(Filter(table, KnownCells(asOf)), InWindowAndBand(asOf, w, band))
         == Filter(table, GroupWhere(GasKeyInWindowBand(asOf, w, band)))
  {
    var both := GroupWhere(GasKeyInWindowBand(asOf, w, band));
    forall s | s in table
      ensures both(s) == (KnownCells(asOf)(s) && InWindowAndBand(asOf, w, band)(s))
    {
      assert both(s) == GasKeyInWindowBand(asOf, w, band)(s.key);
      assert GasKeyInWindow(asOf, w)(s.key) == (KnownCells(asOf)(s) && InGasWindow(asOf, w)(s));
    }
    FilterBoth(table, KnownCells(asOf), InWindowAndBand(asOf, w, band), both);
  }

  lemma BandSumsToTable(answer: seq<Cell>, table: seq<Cell>, asOf: Day, w: Window, band: string)
    requires Answers(answer, table, asOf)
    ensures Sum(GasSum(), Filter(Filter(answer, InGasWindow(asOf, w)), KeyIs(CellBand, band)), TotalOf())
         == TableBand(table, asOf, w, band)
  {
    GasSumIsLawful();
    var known, both := Filter(table, KnownCells(asOf)), InWindowAndBand(asOf, w, band);
    BandOfAnswer(answer, asOf, w, band);
    BandOfTable(table, asOf, w, band);
    FilterKeepsMultiset(answer, known, both);
    SumPermutes(GasSum(), Filter(answer, both), Filter(known, both), TotalOf());
  }

  function InWindowAndBand(asOf: Day, w: Window, band: string): Cell -> bool {
    (s: Cell) => InGasWindow(asOf, w)(s) && s.key.band == band
  }

  /** What the table holds of the window, whichever way the rows are read. */
  function TableWindow(table: seq<Cell>, asOf: Day, w: Window): GasTally {
    Sum(GasSum(), Filter(table, GroupWhere(GasKeyInWindow(asOf, w))), TotalOf())
  }

  lemma AnyOrderSumsToTable(answer: seq<Cell>, table: seq<Cell>, asOf: Day, w: Window)
    requires Answers(answer, table, asOf)
    ensures Sum(GasSum(), Filter(answer, InGasWindow(asOf, w)), TotalOf()) == TableWindow(table, asOf, w)
  {
    GasSumIsLawful();
    var known := Filter(table, KnownCells(asOf));
    FilterKeepsMultiset(answer, known, InGasWindow(asOf, w));
    SumPermutes(GasSum(), Filter(answer, InGasWindow(asOf, w)), Filter(known, InGasWindow(asOf, w)), TotalOf());
    FilterBoth(table, KnownCells(asOf), InGasWindow(asOf, w), GroupWhere(GasKeyInWindow(asOf, w)));
  }

  // ----- the economy page

  predicate CellTooEarly(s: Cell, lb: string) {
    lb != "" && StringLess(CellText(s), lb)
  }

  function CellAtOrAfter(lb: string): Cell -> bool {
    (s: Cell) => !CellTooEarly(s, lb)
  }

  lemma BoundIsGasWindow(answer: seq<Cell>, asOf: Day, w: Window)
    ensures Filter(answer, CellAtOrAfter(LowerBound(asOf, w))) == Filter(answer, InGasWindow(asOf, w))
  {
    forall s | s in answer ensures CellAtOrAfter(LowerBound(asOf, w))(s) == InGasWindow(asOf, w)(s) {
      if WindowDays(w) != 0 {
        var first := Back(asOf, WindowDays(w) - 1);
        assert |Format(first)| == 10;
        DaysCompare(s.key.day, first);
      }
    }
    FilterSame(answer, CellAtOrAfter(LowerBound(asOf, w)), InGasWindow(asOf, w));
  }

  datatype GasWindow = GasWindow(total: GasTally, byBand: map<string, GasTally>)

  ghost predicate GasSums(gw: GasWindow, chosen: seq<Cell>) {
    && gw.total == Sum(GasSum(), chosen, TotalOf())
    && MapGroups(GasSum(), gw.byBand, chosen, CellBand, TotalOf())
  }

  function AddToGas(gw: GasWindow, s: Cell): GasWindow {
    var before := if CellBand(s) in gw.byBand then gw.byBand[CellBand(s)] else GasZero();
    GasWindow(PlusGas(gw.total, s.total), gw.byBand[CellBand(s) := PlusGas(before, s.total)])
  }

  lemma AddToGasSums(gw: GasWindow, chosen: seq<Cell>, s: Cell)
    requires GasSums(gw, chosen)
    ensures GasSums(AddToGas(gw, s), chosen + [s])
  {
    GasSumIsLawful();
    SumAppend(GasSum(), chosen, [s], TotalOf());
    SumOne(GasSum(), s, TotalOf());
    MapAdds(GasSum(), gw.byBand, chosen, s, CellBand, TotalOf());
  }

  method SumGasWindow(answer: seq<Cell>, lb: string) returns (gw: GasWindow)
    ensures GasSums(gw, Filter(answer, CellAtOrAfter(lb)))
  {
    gw := GasWindow(GasZero(), map[]);
    ghost var chosen: seq<Cell> := [];
    for i := 0 to |answer|
      invariant chosen == Filter(answer[..i], CellAtOrAfter(lb))
      invariant GasSums(gw, chosen)
    {
      var s := answer[i];
      FilterStep(answer, i, CellAtOrAfter(lb));
      if CellTooEarly(s, lb) {
        continue;
      }
      AddToGasSums(gw, chosen, s);
      gw := AddToGas(gw, s);
      chosen := chosen + [s];
    }
    assert answer[..|answer|] == answer;
  }

  /** The gas section's window, and its bands, from the rows in day order or any other. */
  method BuildGasWindow(ghost table: seq<Cell>, answer: seq<Cell>, asOf: Day, w: Window) returns (gw: GasWindow)
    requires Answers(answer, table, asOf)
    ensures gw.total == TableWindow(table, asOf, w)
    ensures forall b :: b in gw.byBand ==> gw.byBand[b] == TableBand(table, asOf, w, b)
    ensures forall bands | Lists(bands, gw.byBand.Keys) ::
              Sum(GasSum(), Entries(bands, gw.byBand), TotalOf()) == gw.total
  {
    gw := SumGasWindow(answer, LowerBound(asOf, w));
    BoundIsGasWindow(answer, asOf, w);
    AnyOrderSumsToTable(answer, table, asOf, w);
    forall b | b in gw.byBand ensures gw.byBand[b] == TableBand(table, asOf, w, b) {
      BandIsTable(gw, answer, table, asOf, w, b);
    }
    forall bands | Lists(bands, gw.byBand.Keys)
      ensures Sum(GasSum(), Entries(bands, gw.byBand), TotalOf()) == gw.total
    {
      GasBandsAddUp(gw, Filter(answer, CellAtOrAfter(LowerBound(asOf, w))), bands);
    }
  }

  lemma BandIsTable(gw: GasWindow, answer: seq<Cell>, table: seq<Cell>, asOf: Day, w: Window, b: string)
    requires Answers(answer, table, asOf) && b in gw.byBand
    requires GasSums(gw, Filter(answer, InGasWindow(asOf, w)))
    ensures gw.byBand[b] == TableBand(table, asOf, w, b)
  {
    assert OneGroup(GasSum(), Group(b, gw.byBand[b]), Filter(answer, InGasWindow(asOf, w)), CellBand, TotalOf());
    BandSumsToTable(answer, table, asOf, w, b);
  }

  lemma GasBandsAddUp(gw: GasWindow, chosen: seq<Cell>, bands: seq<string>)
    requires GasSums(gw, chosen) && Lists(bands, gw.byBand.Keys)
    ensures Sum(GasSum(), Entries(bands, gw.byBand), TotalOf()) == gw.total
  {
    GasSumIsLawful();
    MapIsGroupBy(GasSum(), gw.byBand, bands, chosen, CellBand, TotalOf());
    AllGroupsSum(GasSum(), Entries(bands, gw.byBand), chosen, CellBand, TotalOf());
  }

  // ----- the mechanics page

  datatype DayCost = DayCost(day: Date, cost: GasTally)

  /** None is the error of a day text that does not parse. */
  method ReadCosts(answer: seq<Cell>) returns (r: Option<seq<DayCost>>)
    ensures r.Some? && |r.value| == |answer|
    ensures forall i :: 0 <= i < |answer| ==> r.value[i] == DayCost(answer[i].key.day, answer[i].total)
  {
    var costs := [];
    for i := 0 to |answer|
      invariant |costs| == i
      invariant forall k :: 0 <= k < i ==> costs[k] == DayCost(answer[k].key.day, answer[k].total)
    {
      var day := ParseDay(CellText(answer[i]));
      ParseDayOfFormat(answer[i].key.day);
      if day.None? {
        return None;
      }
      costs := costs + [DayCost(day.value, answer[i].total)];
    }
    return Some(costs);
  }

  method SumCosts(answer: seq<Cell>, costs: seq<DayCost>, asOf: Day, w: Window) returns (acc: GasTally)
    requires |costs| == |answer|
    requires forall i :: 0 <= i < |answer| ==> costs[i] == DayCost(answer[i].key.day, answer[i].total)
    ensures acc == Sum(GasSum(), Filter(answer, InGasWindow(asOf, w)), TotalOf())
  {
    acc := GasZero();
    var days := WindowDays(w);
    ghost var chosen: seq<Cell> := [];
    for i := 0 to |costs|
      invariant chosen == Filter(answer[..i], InGasWindow(asOf, w))
      invariant acc == Sum(GasSum(), chosen, TotalOf())
    {
      var c := costs[i];
      FilterStep(answer, i, InGasWindow(asOf, w));
      if days == 0 || !Earlier(c.day, Back(asOf, days - 1)) {
        GasGrows(chosen, answer[i]);
        chosen := chosen + [answer[i]];
        acc := PlusGas(acc, c.cost);
      }
    }
    assert answer[..|answer|] == answer;
  }

  lemma GasGrows(chosen: seq<Cell>, s: Cell)
    ensures Sum(GasSum(), chosen + [s], TotalOf()) == PlusGas(Sum(GasSum(), chosen, TotalOf()), s.total)
  {
    GasSumIsLawful();
    SumAppend(GasSum(), chosen, [s], TotalOf());
    SumOne(GasSum(), s, TotalOf());
  }

  /** max(day) of the verified rows; without any, the costs stay at their zero value. */
  ghost predicate IsAnchor(anchor: Option<Day>, table: seq<Cell>) {
    if anchor.None? then forall r :: r in table ==> !r.key.known
    else
      && (exists i :: 0 <= i < |table| && table[i].key.known && table[i].key.day == anchor.value)
      && forall r :: r in table && r.key.known ==> !Earlier(anchor.value, r.key.day)
  }

  method ReadMechCost(ghost table: seq<Cell>, anchor: Option<Day>, answer: seq<Cell>, w: Window)
    returns (cost: Option<GasTally>)
    requires IsAnchor(anchor, table)
    requires anchor.Some? ==> Answers(answer, table, anchor.value)
    ensures cost.Some?
    ensures cost.value == if anchor.None? then GasZero() else TableWindow(table, anchor.value, w)
  {
    if anchor.None? {
      return Some(GasZero());
    }
    var asOf := ParseDay(Format(anchor.value));
    ParseDayOfFormat(anchor.value);
    if asOf.None? {
      return None;
    }
    var costs := ReadCosts(answer);
    if costs.None? {
      return None;
    }
    var acc := SumCosts(answer, costs.value, asOf.value, w);
    AnyOrderSumsToTable(answer, table, asOf.value, w);
    return Some(acc);
  }

  // ----- what the two say

  /**
   Over one table and one edge the two pages show the same cost for every window, in
   whatever order each reads the rows.
   */
  method BothPages(ghost table: seq<Cell>, edge: Day, economyRows: seq<Cell>, mechanicsRows: seq<Cell>, w: Window)
    returns (economy: GasTally, mechanics: Option<GasTally>)
    requires IsAnchor(Some(edge), table)
    requires Answers(economyRows, table, edge) && Answers(mechanicsRows, table, edge)
    ensures mechanics == Some(economy)
  {
    var gw := BuildGasWindow(table, economyRows, edge, w);
    economy := gw.total;
    mechanics := ReadMechCost(table, Some(edge), mechanicsRows, w);
  }

  /** A block has one day and week, and a transaction one sender. */
  ghost predicate TxFactsShared(rows: seq<Row>) {
    && OneWeekEach(rows)
    && forall a, b :: a in rows && b in rows && a.tx == b.tx ==>
         a.day == b.day && a.facilitatorKnown == b.facilitatorKnown
  }

  /** A window shows the cost of each verified transaction of its days, counted once, and counts its payments. */
  lemma WindowCostsEachTxOnce(table: seq<Cell>, rows: seq<Row>, prices: map<string, real>, asOf: Day, w: Window,
                              txs: seq<Group<TxKey, TxTally>>)
    requires NoWeekMissing(rows, prices) && IsGasTable(table, rows, prices) && TxFactsShared(rows)
    requires IsGroupBy(TxSum(), txs, Chosen(rows, GasKeyInWindow(asOf, w)), TxKeyOf, TxTallyOf)
    ensures TableWindow(table, asOf, w).l2 == Sum(RealSum(), txs, TxL2)
    ensures TableWindow(table, asOf, w).l1 == Sum(RealSum(), txs, TxL1)
    ensures TableWindow(table, asOf, w).usd == Sum(RealSum(), txs, TxUsd(rows, prices))
    ensures TableWindow(table, asOf, w).txns == |Chosen(rows, GasKeyInWindow(asOf, w))|
    ensures TableWindow(table, asOf, w).breakeven
         == |Filter(Chosen(rows, GasKeyInWindow(asOf, w)), Breaks(rows, prices))|
  {
    TalliesCountedOnce(table, rows, prices, GasKeyInWindow(asOf, w), txs);
    DollarsCountedOnce(table, rows, prices, GasKeyInWindow(asOf, w), txs);
    CellsCount(table, rows, prices, GasKeyInWindow(asOf, w));
  }
}
