/**
 Settlement cost by day, membership and band.  Gas and the L1 fee are facts of a
 transaction, repeated on every payment it settles; each is split evenly over them.
 */
module Gas {
  import opened Cube
  import opened Grouping
  import opened Positions
  import opened Wrappers

  datatype TxKey = TxKey(chain: string, hash: string)

  /** week is the Monday of the payment's week, as text. */
  datatype Row = Row(
    day: Day,
    week: string,
    tx: TxKey,
    facilitatorKnown: bool,
    amount: Amount,
    gasCostWei: Amount,
    l1Fee: Option<Amount>)

  // ----- transactions

  datatype TxTally = TxTally(n: nat, l2: Amount, l1: Amount)

  function PlusTx(a: TxTally, b: TxTally): TxTally {
    TxTally(a.n + b.n, Larger(a.l2, b.l2), Larger(a.l1, b.l1))
  }

  function TxSum(): Monoid<TxTally> {
    Monoid(TxTally(0, 0.0, 0.0), PlusTx)
  }

  function TxKeyOf(p: Row): TxKey {
    p.tx
  }

  function TxTallyOf(p: Row): TxTally {
    TxTally(1, p.gasCostWei, if p.l1Fee.Some? then p.l1Fee.value else 0.0)
  }

  function OfTx(rows: seq<Row>, k: TxKey): seq<Row> {
    Filter(rows, KeyIs(TxKeyOf, k))
  }

  /** count(*) and the two maxima over a transaction's payments. */
  function TxOf(rows: seq<Row>, k: TxKey): TxTally {
    Sum(TxSum(), OfTx(rows, k), TxTallyOf)
  }

  lemma {:induction false} TxCounts(q: seq<Row>)
    ensures Sum(TxSum(), q, TxTallyOf).n == |q|
  {
    if q != [] {
      TxCounts(q[1..]);
    }
  }

  // ----- shares

  const WEI_PER_ETH: real := 1000000000000000000.0

  datatype GasTally = GasTally(txns: int, breakeven: int, l2: real, l1: real, usd: real, volume: real)

  function PlusGas(a: GasTally, b: GasTally): GasTally {
    GasTally(a.txns + b.txns, a.breakeven + b.breakeven, a.l2 + b.l2, a.l1 + b.l1, a.usd + b.usd, a.volume + b.volume)
  }

  function GasZero(): GasTally {
    GasTally(0, 0, 0.0, 0.0, 0.0, 0.0)
  }

  function GasSum(): Monoid<GasTally> {
    Monoid(GasZero(), PlusGas)
  }

  lemma GasSumIsLawful()
    ensures Lawful(GasSum())
  {
    forall a, b, c ensures Law(GasSum(), a, b, c) {
    }
  }

  /** An even part of a transaction's amount; a transaction without payments has none. */
  function Part(amount: real, n: nat): real {
    if n == 0 then 0.0 else amount / n as real
  }

  function L2Share(rows: seq<Row>): Row -> real {
    (p: Row) => Part(TxOf(rows, p.tx).l2, TxOf(rows, p.tx).n)
  }

  function L1Share(rows: seq<Row>): Row -> real {
    (p: Row) => Part(TxOf(rows, p.tx).l1, TxOf(rows, p.tx).n)
  }

  /** Wei in dollars. */
  function Priced(wei: real, price: real): real {
    wei * price / WEI_PER_ETH
  }

  function CostUsd(rows: seq<Row>, prices: map<string, real>, p: Row): real {
    var t := TxOf(rows, p.tx);
    if p.week in prices then Priced(Part(t.l2 + t.l1, t.n), prices[p.week]) else 0.0
  }

  function ShareOf(rows: seq<Row>, prices: map<string, real>): Row -> GasTally {
    (p: Row) =>
      var usd := CostUsd(rows, prices, p);
      GasTally(1, if usd > p.amount then 1 else 0, L2Share(rows)(p), L1Share(rows)(p), usd, p.amount)
  }

  // ----- the table

  datatype GasKey = GasKey(day: Day, known: bool, band: string)

  function GasKeyOf(p: Row): GasKey {
    GasKey(p.day, p.facilitatorKnown, Band(p.amount))
  }

  function HasPrice(prices: map<string, real>): Row -> bool {
    (p: Row) => p.week in prices
  }

  /** The inner join with the staged prices keeps only the rows whose week has one. */
  ghost predicate IsGasTable(table: seq<Group<GasKey, GasTally>>, rows: seq<Row>, prices: map<string, real>) {
    IsGroupBy(GasSum(), table, Filter(rows, HasPrice(prices)), GasKeyOf, ShareOf(rows, prices))
  }

  /** The guard of a rebuild: no week of the payments is without a price. */
  predicate NoWeekMissing(rows: seq<Row>, prices: map<string, real>) {
    forall p :: p in rows ==> p.week in prices
  }

  // ----- conservation

  function RealPlus(a: real, b: real): real {
    a + b
  }

  function RealSum(): Monoid<real> {
    Monoid(0.0, RealPlus)
  }

  lemma RealSumIsLawful()
    ensures Lawful(RealSum())
  {
    forall a, b, c ensures Law(RealSum(), a, b, c) {
    }
  }

  lemma Distributes(n: nat, c: real)
    requires n > 0
    ensures c + (n - 1) as real * c == n as real * c
  {
  }

  lemma {:induction false} SumOfEqualParts(q: seq<Row>, f: Row -> real, c: real)
    requires forall p :: p in q ==> f(p) == c
    ensures Sum(RealSum(), q, f) == |q| as real * c
  {
    if q != [] {
      SumOfEqualParts(q[1..], f, c);
      Distributes(|q|, c);
    }
  }

  lemma PartsMakeWhole(amount: real, n: nat)
    requires n > 0
    ensures n as real * Part(amount, n) == amount
  {
  }

  lemma EqualPartsMakeWhole(q: seq<Row>, f: Row -> real, amount: real)
    requires q != [] && forall p :: p in q ==> f(p) == Part(amount, |q|)
    ensures Sum(RealSum(), q, f) == amount
  {
    SumOfEqualParts(q, f, Part(amount, |q|));
    PartsMakeWhole(amount, |q|);
  }

  /** The parts given to a transaction's payments add up to its cost. */
  lemma TxIsSharedOut(rows: seq<Row>, k: TxKey)
    requires OfTx(rows, k) != []
    ensures Sum(RealSum(), OfTx(rows, k), L2Share(rows)) == TxOf(rows, k).l2
    ensures Sum(RealSum(), OfTx(rows, k), L1Share(rows)) == TxOf(rows, k).l1
  {
    var q, t := OfTx(rows, k), TxOf(rows, k);
    TxCounts(q);
    SharesAreEqual(rows, k);
    EqualPartsMakeWhole(q, L2Share(rows), t.l2);
    EqualPartsMakeWhole(q, L1Share(rows), t.l1);
  }

  lemma SharesAreEqual(rows: seq<Row>, k: TxKey)
    ensures var t := TxOf(rows, k);
            forall p :: p in OfTx(rows, k) ==>
              L2Share(rows)(p) == Part(t.l2, t.n) && L1Share(rows)(p) == Part(t.l1, t.n)
  {
    var t := TxOf(rows, k);
    forall p | p in OfTx(rows, k)
      ensures L2Share(rows)(p) == Part(t.l2, t.n) && L1Share(rows)(p) == Part(t.l1, t.n)
    {
      InGroup(rows, TxKeyOf, k, p);
      assert p.tx == k;
    }
  }

  function Chosen(rows: seq<Row>, p: GasKey -> bool): seq<Row> {
    Filter(rows, Where(GasKeyOf, p))
  }

  /** A transaction's payments are chosen all or none. */
  ghost predicate TakesTxsWhole(rows: seq<Row>, p: GasKey -> bool) {
    forall a, b :: a in rows && b in rows && a.tx == b.tx ==> p(GasKeyOf(a)) == p(GasKeyOf(b))
  }

  lemma ChosenTxIsWhole(rows: seq<Row>, p: GasKey -> bool, k: TxKey)
    requires TakesTxsWhole(rows, p) && OfTx(Chosen(rows, p), k) != []
    ensures OfTx(Chosen(rows, p), k) == OfTx(rows, k)
  {
    var a := OfTx(Chosen(rows, p), k)[0];
    assert a in OfTx(Chosen(rows, p), k);
    FilterCommutes(rows, Where(GasKeyOf, p), KeyIs(TxKeyOf, k));
    FilterAll(OfTx(rows, k), Where(GasKeyOf, p));
  }

  function L2Of(t: GasTally): real {
    t.l2
  }

  function L1Of(t: GasTally): real {
    t.l1
  }

  function TxL2(r: Group<TxKey, TxTally>): real {
    r.total.l2
  }

  function TxL1(r: Group<TxKey, TxTally>): real {
    r.total.l1
  }

  function Costs(txs: seq<Group<TxKey, TxTally>>, cost: Group<TxKey, TxTally> -> real): (r: seq<Group<TxKey, real>>)
    ensures |r| == |txs| && forall i :: 0 <= i < |r| ==> r[i] == Group(txs[i].key, cost(txs[i]))
  {
    if txs == [] then [] else [Group(txs[0].key, cost(txs[0]))] + Costs(txs[1..], cost)
  }

  lemma {:induction false} SumOfCosts(txs: seq<Group<TxKey, TxTally>>, cost: Group<TxKey, TxTally> -> real)
    ensures Sum(RealSum(), Costs(txs, cost), TotalOf()) == Sum(RealSum(), txs, cost)
  {
    if txs != [] {
      SumOfCosts(txs[1..], cost);
      SumCons(RealSum(), Group(txs[0].key, cost(txs[0])), Costs(txs[1..], cost), TotalOf());
    }
  }

  /** Shares that make up each transaction's cost make up the costs of all the transactions chosen. */
  lemma SharesByTx(rows: seq<Row>, p: GasKey -> bool, txs: seq<Group<TxKey, TxTally>>, share: Row -> real,
                   cost: Group<TxKey, TxTally> -> real)
    requires TakesTxsWhole(rows, p) && IsGroupBy(TxSum(), txs, Chosen(rows, p), TxKeyOf, TxTallyOf)
    requires forall i :: 0 <= i < |txs| ==> Sum(RealSum(), OfTx(rows, txs[i].key), share) == cost(txs[i])
    ensures Sum(RealSum(), Chosen(rows, p), share) == Sum(RealSum(), txs, cost)
  {
    CostsAreGroups(rows, p, txs, share, cost);
    RealSumIsLawful();
    AllGroupsSum(RealSum(), Costs(txs, cost), Chosen(rows, p), TxKeyOf, share);
    SumOfCosts(txs, cost);
  }

  lemma CostsAreGroups(rows: seq<Row>, p: GasKey -> bool, txs: seq<Group<TxKey, TxTally>>, share: Row -> real,
                       cost: Group<TxKey, TxTally> -> real)
    requires TakesTxsWhole(rows, p) && IsGroupBy(TxSum(), txs, Chosen(rows, p), TxKeyOf, TxTallyOf)
    requires forall i :: 0 <= i < |txs| ==> Sum(RealSum(), OfTx(rows, txs[i].key), share) == cost(txs[i])
    ensures IsGroupBy(RealSum(), Costs(txs, cost), Chosen(rows, p), TxKeyOf, share)
  {
    forall i | 0 <= i < |txs|
      ensures Sum(RealSum(), Filter(Chosen(rows, p), KeyIs(TxKeyOf, txs[i].key)), share) == cost(txs[i])
    {
      TxTotalsAreTrue(rows, p, txs, i);
    }
    SameGroups(TxSum(), RealSum(), txs, Costs(txs, cost), Chosen(rows, p), TxKeyOf, TxTallyOf, share);
  }

  lemma TxTotalsAreTrue(rows: seq<Row>, p: GasKey -> bool, txs: seq<Group<TxKey, TxTally>>, i: nat)
    requires TakesTxsWhole(rows, p) && IsGroupBy(TxSum(), txs, Chosen(rows, p), TxKeyOf, TxTallyOf) && i < |txs|
    ensures OfTx(rows, txs[i].key) != [] && txs[i].total == TxOf(rows, txs[i].key)
    ensures OfTx(Chosen(rows, p), txs[i].key) == OfTx(rows, txs[i].key)
  {
    assert OneGroup(TxSum(), txs[i], Chosen(rows, p), TxKeyOf, TxTallyOf);
    ChosenTxIsWhole(rows, p, txs[i].key);
  }

  /** Over cells that take transactions whole, each transaction's cost is counted once. */
  lemma TalliesCountedOnce(table: seq<Group<GasKey, GasTally>>, rows: seq<Row>, prices: map<string, real>,
                           p: GasKey -> bool, txs: seq<Group<TxKey, TxTally>>)
    requires NoWeekMissing(rows, prices) && IsGasTable(table, rows, prices)
    requires TakesTxsWhole(rows, p) && IsGroupBy(TxSum(), txs, Chosen(rows, p), TxKeyOf, TxTallyOf)
    ensures var cells := Sum(GasSum(), Filter(table, GroupWhere(p)), TotalOf());
            && cells.l2 == Sum(RealSum(), txs, TxL2)
            && cells.l1 == Sum(RealSum(), txs, TxL1)
  {
    CellsAreShares(table, rows, prices, p);
    forall i | 0 <= i < |txs|
      ensures Sum(RealSum(), OfTx(rows, txs[i].key), L2Share(rows)) == TxL2(txs[i])
      ensures Sum(RealSum(), OfTx(rows, txs[i].key), L1Share(rows)) == TxL1(txs[i])
    {
      TxTotalsAreTrue(rows, p, txs, i);
      TxIsSharedOut(rows, txs[i].key);
    }
    SharesByTx(rows, p, txs, L2Share(rows), TxL2);
    SharesByTx(rows, p, txs, L1Share(rows), TxL1);
  }

  function UsdOf(t: GasTally): real {
    t.usd
  }

  function UsdShare(rows: seq<Row>, prices: map<string, real>): Row -> real {
    (p: Row) => CostUsd(rows, prices, p)
  }

  lemma CellsAreShares(table: seq<Group<GasKey, GasTally>>, rows: seq<Row>, prices: map<string, real>,
                       p: GasKey -> bool)
    requires NoWeekMissing(rows, prices) && IsGasTable(table, rows, prices)
    ensures var cells := Sum(GasSum(), Filter(table, GroupWhere(p)), TotalOf());
            && cells == Sum(GasSum(), Chosen(rows, p), ShareOf(rows, prices))
            && cells.l2 == Sum(RealSum(), Chosen(rows, p), L2Share(rows))
            && cells.l1 == Sum(RealSum(), Chosen(rows, p), L1Share(rows))
            && cells.usd == Sum(RealSum(), Chosen(rows, p), UsdShare(rows, prices))
  {
    GasSumIsLawful();
    FilterAll(rows, HasPrice(prices));
    GroupsSum(GasSum(), table, rows, GasKeyOf, ShareOf(rows, prices), p);
    SumMaps(GasSum(), RealSum(), L2Of, Chosen(rows, p), ShareOf(rows, prices), L2Share(rows));
    SumMaps(GasSum(), RealSum(), L1Of, Chosen(rows, p), ShareOf(rows, prices), L1Share(rows));
    SumMaps(GasSum(), RealSum(), UsdOf, Chosen(rows, p), ShareOf(rows, prices), UsdShare(rows, prices));
  }

  // ----- dollars

  /** A transaction has one time, so one price week. */
  ghost predicate OneWeekEach(rows: seq<Row>) {
    forall a, b :: a in rows && b in rows && a.tx == b.tx ==> a.week == b.week
  }

  /** Execution gas and L1 fee of a transaction at the price of its week. */
  function TxUsd(rows: seq<Row>, prices: map<string, real>): Group<TxKey, TxTally> -> real {
    (r: Group<TxKey, TxTally>) =>
      var own := OfTx(rows, r.key);
      if own != [] && own[0].week in prices
      then Priced(r.total.l2 + r.total.l1, prices[own[0].week]) else 0.0
  }

  lemma PricedParts(n: nat, amount: real, price: real)
    requires n > 0
    ensures n as real * Priced(Part(amount, n), price) == Priced(amount, price)
  {
    PartsMakeWhole(amount, n);
    Regroup(n as real, Part(amount, n), price);
  }

  lemma Regroup(n: real, part: real, price: real)
    ensures n * (part * price / WEI_PER_ETH) == (n * part) * price / WEI_PER_ETH
  {
    assert n * (part * price) == (n * part) * price;
  }

  lemma PricedPartsMakeWhole(q: seq<Row>, f: Row -> real, amount: real, price: real)
    requires q != [] && forall p :: p in q ==> f(p) == Priced(Part(amount, |q|), price)
    ensures Sum(RealSum(), q, f) == Priced(amount, price)
  {
    SumOfEqualParts(q, f, Priced(Part(amount, |q|), price));
    PricedParts(|q|, amount, price);
  }

  lemma DollarsAreEqual(rows: seq<Row>, prices: map<string, real>, k: TxKey, week: string)
    requires OneWeekEach(rows) && week in prices && OfTx(rows, k) != [] && OfTx(rows, k)[0].week == week
    ensures var t := TxOf(rows, k);
            forall p :: p in OfTx(rows, k) ==> UsdShare(rows, prices)(p) == Priced(Part(t.l2 + t.l1, t.n), prices[week])
  {
    var first := OfTx(rows, k)[0];
    InGroup(rows, TxKeyOf, k, first);
    forall p | p in OfTx(rows, k) ensures p.week == week && p.tx == k {
      InGroup(rows, TxKeyOf, k, p);
    }
  }

  lemma TxDollarsAreSharedOut(rows: seq<Row>, prices: map<string, real>, r: Group<TxKey, TxTally>)
    requires OneWeekEach(rows) && NoWeekMissing(rows, prices)
    requires OfTx(rows, r.key) != [] && r.total == TxOf(rows, r.key)
    ensures Sum(RealSum(), OfTx(rows, r.key), UsdShare(rows, prices)) == TxUsd(rows, prices)(r)
  {
    var q, t := OfTx(rows, r.key), TxOf(rows, r.key);
    InGroup(rows, TxKeyOf, r.key, q[0]);
    DollarsOfWeek(rows, prices, r.key, q[0].week);
  }

  lemma DollarsOfWeek(rows: seq<Row>, prices: map<string, real>, k: TxKey, week: string)
    requires OneWeekEach(rows) && week in prices && OfTx(rows, k) != [] && OfTx(rows, k)[0].week == week
    ensures Sum(RealSum(), OfTx(rows, k), UsdShare(rows, prices))
         == Priced(TxOf(rows, k).l2 + TxOf(rows, k).l1, prices[week])
  {
    var q, t := OfTx(rows, k), TxOf(rows, k);
    TxCounts(q);
    DollarsAreEqual(rows, prices, k, week);
    PricedPartsMakeWhole(q, UsdShare(rows, prices), t.l2 + t.l1, prices[week]);
  }

  /** So are its dollars: execution gas and L1 fee together, at its week's price. */
  lemma DollarsCountedOnce(table: seq<Group<GasKey, GasTally>>, rows: seq<Row>, prices: map<string, real>,
                           p: GasKey -> bool, txs: seq<Group<TxKey, TxTally>>)
    requires NoWeekMissing(rows, prices) && IsGasTable(table, rows, prices) && OneWeekEach(rows)
    requires TakesTxsWhole(rows, p) && IsGroupBy(TxSum(), txs, Chosen(rows, p), TxKeyOf, TxTallyOf)
    ensures Sum(GasSum(), Filter(table, GroupWhere(p)), TotalOf()).usd == Sum(RealSum(), txs, TxUsd(rows, prices))
  {
    CellsAreShares(table, rows, prices, p);
    forall i | 0 <= i < |txs|
      ensures Sum(RealSum(), OfTx(rows, txs[i].key), UsdShare(rows, prices)) == TxUsd(rows, prices)(txs[i])
    {
      TxTotalsAreTrue(rows, p, txs, i);
      TxDollarsAreSharedOut(rows, prices, txs[i]);
    }
    SharesByTx(rows, p, txs, UsdShare(rows, prices), TxUsd(rows, prices));
  }

  // ----- counts

  /** The payment's part of the cost exceeds what it moves. */
  function Breaks(rows: seq<Row>, prices: map<string, real>): Row -> bool {
    (p: Row) => CostUsd(rows, prices, p) > p.amount
  }

  lemma {:induction false} SharesCount(q: seq<Row>, rows: seq<Row>, prices: map<string, real>)
    ensures var s := Sum(GasSum(), q, ShareOf(rows, prices));
            s.txns == |q| && s.breakeven == |Filter(q, Breaks(rows, prices))|
  {
    if q != [] {
      SharesCount(q[1..], rows, prices);
    }
  }

  /** Cells count their payments, and those that cost more than they move. */
  lemma CellsCount(table: seq<Group<GasKey, GasTally>>, rows: seq<Row>, prices: map<string, real>, p: GasKey -> bool)
    requires NoWeekMissing(rows, prices) && IsGasTable(table, rows, prices)
    ensures var cells := Sum(GasSum(), Filter(table, GroupWhere(p)), TotalOf());
            && cells.txns == |Chosen(rows, p)|
            && cells.breakeven == |Filter(Chosen(rows, p), Breaks(rows, prices))|
  {
    CellsAreShares(table, rows, prices, p);
    SharesCount(Chosen(rows, p), rows, prices);
  }

  function EveryCell(): GasKey -> bool {
    (k: GasKey) => true
  }

  /** The whole table holds the cost of every transaction once. */
  lemma TalliesAreConserved(table: seq<Group<GasKey, GasTally>>, rows: seq<Row>, prices: map<string, real>,
                            txs: seq<Group<TxKey, TxTally>>)
    requires NoWeekMissing(rows, prices) && IsGasTable(table, rows, prices)
    requires IsGroupBy(TxSum(), txs, rows, TxKeyOf, TxTallyOf)
    ensures var cells := Sum(GasSum(), table, TotalOf());
            && cells.l2 == Sum(RealSum(), txs, TxL2)
            && cells.l1 == Sum(RealSum(), txs, TxL1)
  {
    FilterAll(rows, Where(GasKeyOf, EveryCell()));
    FilterAll(table, GroupWhere(EveryCell()));
    TalliesCountedOnce(table, rows, prices, EveryCell(), txs);
  }
}
