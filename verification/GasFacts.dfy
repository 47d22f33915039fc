/**
 The gas table told by the transactions' own facts: what each one cost, how many payments
 it settled and in which week, whatever the statement adds up to get there.
 */
module GasFacts {
  import opened Cube
  import opened Gas
  import opened GasPages
  import opened Grouping
  import opened Positions

  // ----- a transaction's two costs

  /** The fee a payment row carries; an absent one counts nothing. */
  function FeeOf(p: Row): Amount {
    match p.l1Fee
    case Some(fee) => fee
    case None => 0.0
  }

  /** The cost is the largest any row carries, and the fee likewise. */
  lemma {:induction false} CostIsLargest(q: seq<Row>)
    requires q != []
    ensures var t := Sum(TxSum(), q, TxTallyOf);
            && (forall p :: p in q ==> p.gasCostWei <= t.l2 && FeeOf(p) <= t.l1)
            && (exists i :: 0 <= i < |q| && q[i].gasCostWei == t.l2)
            && (exists i :: 0 <= i < |q| && FeeOf(q[i]) == t.l1)
  {
    assert q == [q[0]] + q[1..];
    if |q| == 1 {
      assert q[1..] == [];
    } else {
      var t, rest := Sum(TxSum(), q, TxTallyOf), Sum(TxSum(), q[1..], TxTallyOf);
      CostIsLargest(q[1..]);
      var i :| 0 <= i < |q[1..]| && q[1..][i].gasCostWei == rest.l2;
      var j :| 0 <= j < |q[1..]| && FeeOf(q[1..][j]) == rest.l1;
      assert q[i+1].gasCostWei == rest.l2 && FeeOf(q[j+1]) == rest.l1;
      assert q[0].gasCostWei == t.l2 || q[i+1].gasCostWei == t.l2;
      assert FeeOf(q[0]) == t.l1 || FeeOf(q[j+1]) == t.l1;
    }
  }

  /** What the chain knows of each transaction. */
  datatype Facts = Facts(l2: TxKey -> real, l1: TxKey -> real, week: TxKey -> string)

  /** Every row carries its transaction's cost and week, and its fee or none; a fee there is some row carries. */
  ghost predicate Carry(rows: seq<Row>, c: Facts) {
    forall p :: p in rows ==> Carries(p, c) && (c.l1(p.tx) != 0.0 ==> SomeFee(rows, p.tx))
  }

  predicate Carries(p: Row, c: Facts) {
    p.gasCostWei == c.l2(p.tx) && p.week == c.week(p.tx) && (p.l1Fee.Some? ==> p.l1Fee.value == c.l1(p.tx))
  }

  ghost predicate SomeFee(rows: seq<Row>, k: TxKey) {
    exists o :: o in rows && o.tx == k && o.l1Fee.Some?
  }

  /** The payments a transaction settled. */
  function CountOf(rows: seq<Row>, k: TxKey): nat {
    if rows == [] then 0 else (if rows[0].tx == k then 1 else 0) + CountOf(rows[1..], k)
  }

  lemma {:induction false} CountIsOwn(rows: seq<Row>, k: TxKey)
    ensures |OfTx(rows, k)| == CountOf(rows, k)
  {
    if rows != [] {
      CountIsOwn(rows[1..], k);
      assert OfTx(rows, k) == (if TxKeyOf(rows[0]) == k then [rows[0]] else []) + OfTx(rows[1..], k);
    }
  }

  /** So the tally of a transaction is its facts. */
  lemma TallyIsFacts(rows: seq<Row>, c: Facts, k: TxKey)
    requires Carry(rows, c) && OfTx(rows, k) != []
    ensures TxOf(rows, k).n == CountOf(rows, k) && TxOf(rows, k).l2 == c.l2(k) && TxOf(rows, k).l1 == c.l1(k)
  {
    var q := OfTx(rows, k);
    CostIsLargest(q);
    TxCounts(q);
    CountIsOwn(rows, k);
    CostIsFact(rows, c, k);
    FeeIsFact(rows, c, k);
  }

  lemma CostIsFact(rows: seq<Row>, c: Facts, k: TxKey)
    requires Carry(rows, c) && OfTx(rows, k) != []
    ensures TxOf(rows, k).l2 == c.l2(k)
  {
    var q := OfTx(rows, k);
    CostIsLargest(q);
    var i :| 0 <= i < |q| && q[i].gasCostWei == TxOf(rows, k).l2;
    InGroup(rows, TxKeyOf, k, q[i]);
    assert Carries(q[i], c);
  }

  lemma FeeIsFact(rows: seq<Row>, c: Facts, k: TxKey)
    requires Carry(rows, c) && OfTx(rows, k) != []
    ensures TxOf(rows, k).l1 == c.l1(k)
  {
    var q := OfTx(rows, k);
    CostIsLargest(q);
    var i :| 0 <= i < |q| && FeeOf(q[i]) == TxOf(rows, k).l1;
    InGroup(rows, TxKeyOf, k, q[i]);
    assert Carries(q[i], c);
    if c.l1(k) != 0.0 {
      assert SomeFee(rows, q[i].tx);
      var o :| o in rows && o.tx == k && o.l1Fee.Some?;
      InGroup(rows, TxKeyOf, k, o);
      assert Carries(o, c);
    }
  }

  // ----- the laws

  /** The transactions the cells are about, each once. */
  ghost predicate TxsOf(keys: seq<TxKey>, rows: seq<Row>) {
    && (forall i, j :: 0 <= i < j < |keys| ==> keys[i] != keys[j])
    && (forall p :: p in rows ==> p.tx in keys)
    && forall k :: k in keys ==> exists p :: p in rows && p.tx == k
  }

  /** The dollars of a transaction: both costs, in ether, at the price of its week. */
  function DollarsOf(c: Facts, prices: map<string, real>): TxKey -> real {
    (k: TxKey) =>
      if c.week(k) in prices then (c.l2(k) + c.l1(k)) * prices[c.week(k)] / 1000000000000000000.0 else 0.0
  }

  function Tallied(rows: seq<Row>, keys: seq<TxKey>): (r: seq<Group<TxKey, TxTally>>)
    ensures |r| == |keys| && forall i :: 0 <= i < |r| ==> r[i] == Group(keys[i], TxOf(rows, keys[i]))
  {
    if keys == [] then [] else [Group(keys[0], TxOf(rows, keys[0]))] + Tallied(rows, keys[1..])
  }

  lemma TalliedGroups(rows: seq<Row>, keys: seq<TxKey>)
    requires TxsOf(keys, rows)
    ensures IsGroupBy(TxSum(), Tallied(rows, keys), rows, TxKeyOf, TxTallyOf)
  {
    var r := Tallied(rows, keys);
    forall p | p in rows ensures HasKey(r, TxKeyOf(p)) {
      var i :| 0 <= i < |keys| && keys[i] == p.tx;
      assert r[i].key == p.tx;
    }
    forall i | 0 <= i < |r| ensures OneGroup(TxSum(), r[i], rows, TxKeyOf, TxTallyOf) {
      assert keys[i] in keys;
      var p :| p in rows && p.tx == keys[i];
      InGroup(rows, TxKeyOf, keys[i], p);
    }
  }

  lemma {:induction false} TotalOfGroups(txs: seq<Group<TxKey, TxTally>>, keys: seq<TxKey>,
                                         cost: Group<TxKey, TxTally> -> real, f: TxKey -> real)
    requires |txs| == |keys| && forall i :: 0 <= i < |txs| ==> cost(txs[i]) == f(keys[i])
    ensures Sum(RealSum(), txs, cost) == Added(keys, f)
  {
    if keys != [] {
      TotalOfGroups(txs[1..], keys[1..], cost, f);
    }
  }

  lemma ChosenTallies(rows: seq<Row>, p: GasKey -> bool, keys: seq<TxKey>, c: Facts, i: nat)
    requires Carry(rows, c) && TakesTxsWhole(rows, p) && TxsOf(keys, Chosen(rows, p)) && i < |keys|
    ensures var r := Tallied(Chosen(rows, p), keys)[i];
            && OfTx(rows, keys[i]) != [] && OfTx(Chosen(rows, p), keys[i]) == OfTx(rows, keys[i])
            && r.key == keys[i] && r.total.l2 == c.l2(keys[i]) && r.total.l1 == c.l1(keys[i])
  {
    assert keys[i] in keys;
    var q :| q in Chosen(rows, p) && q.tx == keys[i];
    InGroup(Chosen(rows, p), TxKeyOf, keys[i], q);
    ChosenTxIsWhole(rows, p, keys[i]);
    TallyIsFacts(rows, c, keys[i]);
  }

  /**
   Over cells that take transactions whole, the two costs are those of each transaction
   once, and the dollars are theirs at the price of their week.
   */
  lemma CostCountedOnce(table: seq<Group<GasKey, GasTally>>, rows: seq<Row>, prices: map<string, real>,
                        p: GasKey -> bool, c: Facts, keys: seq<TxKey>)
    requires NoWeekMissing(rows, prices) && IsGasTable(table, rows, prices) && Carry(rows, c)
    requires TakesTxsWhole(rows, p) && TxsOf(keys, Chosen(rows, p))
    ensures var cells := Sum(GasSum(), Filter(table, GroupWhere(p)), TotalOf());
            && cells.l2 == Added(keys, c.l2) && cells.l1 == Added(keys, c.l1)
            && cells.usd == Added(keys, DollarsOf(c, prices))
  {
    var txs := Tallied(Chosen(rows, p), keys);
    TalliedGroups(Chosen(rows, p), keys);
    TalliesCountedOnce(table, rows, prices, p, txs);
    OneWeekByFacts(rows, c);
    DollarsCountedOnce(table, rows, prices, p, txs);
    TalliesAreFacts(rows, p, c, keys);
    DollarTalliesAreFacts(rows, prices, p, c, keys);
  }

  lemma OneWeekByFacts(rows: seq<Row>, c: Facts)
    requires Carry(rows, c)
    ensures OneWeekEach(rows)
  {
    forall a, b | a in rows && b in rows && a.tx == b.tx ensures a.week == b.week {
      assert Carries(a, c) && Carries(b, c);
    }
  }

  lemma TalliesAreFacts(rows: seq<Row>, p: GasKey -> bool, c: Facts, keys: seq<TxKey>)
    requires Carry(rows, c) && TakesTxsWhole(rows, p) && TxsOf(keys, Chosen(rows, p))
    ensures var txs := Tallied(Chosen(rows, p), keys);
            Sum(RealSum(), txs, TxL2) == Added(keys, c.l2) && Sum(RealSum(), txs, TxL1) == Added(keys, c.l1)
  {
    var txs := Tallied(Chosen(rows, p), keys);
    forall i | 0 <= i < |txs| ensures TxL2(txs[i]) == c.l2(keys[i]) && TxL1(txs[i]) == c.l1(keys[i]) {
      ChosenTallies(rows, p, keys, c, i);
    }
    TotalOfGroups(txs, keys, TxL2, c.l2);
    TotalOfGroups(txs, keys, TxL1, c.l1);
  }

  lemma DollarTalliesAreFacts(rows: seq<Row>, prices: map<string, real>, p: GasKey -> bool, c: Facts, keys: seq<TxKey>)
    requires NoWeekMissing(rows, prices) && Carry(rows, c) && TakesTxsWhole(rows, p) && TxsOf(keys, Chosen(rows, p))
    ensures Sum(RealSum(), Tallied(Chosen(rows, p), keys), TxUsd(rows, prices)) == Added(keys, DollarsOf(c, prices))
  {
    var txs := Tallied(Chosen(rows, p), keys);
    forall i | 0 <= i < |txs| ensures TxUsd(rows, prices)(txs[i]) == DollarsOf(c, prices)(keys[i]) {
      ChosenTallies(rows, p, keys, c, i);
      DollarsAreFacts(rows, prices, c, keys[i], txs[i]);
    }
    TotalOfGroups(txs, keys, TxUsd(rows, prices), DollarsOf(c, prices));
  }

  lemma DollarsAreFacts(rows: seq<Row>, prices: map<string, real>, c: Facts, k: TxKey, r: Group<TxKey, TxTally>)
    requires NoWeekMissing(rows, prices) && Carry(rows, c) && OfTx(rows, k) != []
    requires r.key == k && r.total.l2 == c.l2(k) && r.total.l1 == c.l1(k)
    ensures TxUsd(rows, prices)(r) == DollarsOf(c, prices)(k)
  {
    var first := OfTx(rows, k)[0];
    InGroup(rows, TxKeyOf, k, first);
  }

  /** The whole table holds the cost of every transaction once. */
  lemma GasIsConserved(table: seq<Group<GasKey, GasTally>>, rows: seq<Row>, prices: map<string, real>, c: Facts,
                       keys: seq<TxKey>)
    requires NoWeekMissing(rows, prices) && IsGasTable(table, rows, prices) && Carry(rows, c) && TxsOf(keys, rows)
    ensures var cells := Sum(GasSum(), table, TotalOf());
            && cells.l2 == Added(keys, c.l2) && cells.l1 == Added(keys, c.l1)
            && cells.usd == Added(keys, DollarsOf(c, prices))
  {
    FilterAll(rows, Where(GasKeyOf, EveryCell()));
    FilterAll(table, GroupWhere(EveryCell()));
    CostCountedOnce(table, rows, prices, EveryCell(), c, keys);
  }

  // ----- one payment's part, and the counts

  /** An even part of its transaction's dollars. */
  function PartOf(rows: seq<Row>, prices: map<string, real>, c: Facts, p: Row): real {
    var n := CountOf(rows, p.tx);
    if n == 0 || p.week !in prices then 0.0
    else (c.l2(p.tx) + c.l1(p.tx)) / n as real * prices[p.week] / 1000000000000000000.0
  }

  lemma CostIsPart(rows: seq<Row>, prices: map<string, real>, c: Facts, p: Row)
    requires Carry(rows, c) && p in rows
    ensures CostUsd(rows, prices, p) == PartOf(rows, prices, c, p)
  {
    InGroup(rows, TxKeyOf, p.tx, p);
    TallyIsFacts(rows, c, p.tx);
  }

  function CostsMore(rows: seq<Row>, prices: map<string, real>, c: Facts): Row -> bool {
    (p: Row) => PartOf(rows, prices, c, p) > p.amount
  }

  function AmountOf(): Row -> real {
    (p: Row) => p.amount
  }

  // ----- any cells, by their payments' even parts

  /** An even part of what was spent on the payment's transaction. */
  function EvenPart(spent: TxKey -> real, rows: seq<Row>): Row -> real {
    (p: Row) => if CountOf(rows, p.tx) == 0 then 0.0 else spent(p.tx) / CountOf(rows, p.tx) as real
  }

  function DollarPart(rows: seq<Row>, prices: map<string, real>, c: Facts): Row -> real {
    (p: Row) => PartOf(rows, prices, c, p)
  }

  lemma ShareIsParts(rows: seq<Row>, prices: map<string, real>, c: Facts, p: Row)
    requires Carry(rows, c) && p in rows
    ensures var s := ShareOf(rows, prices)(p);
            && s.l2 == EvenPart(c.l2, rows)(p) && s.l1 == EvenPart(c.l1, rows)(p)
            && s.usd == DollarPart(rows, prices, c)(p)
  {
    InGroup(rows, TxKeyOf, p.tx, p);
    TallyIsFacts(rows, c, p.tx);
    CostIsPart(rows, prices, c, p);
    var t := TxOf(rows, p.tx);
    assert L2Share(rows)(p) == Part(t.l2, t.n) && L1Share(rows)(p) == Part(t.l1, t.n);
  }

  lemma {:induction false} SharesAreParts(q: seq<Row>, rows: seq<Row>, prices: map<string, real>, c: Facts)
    requires Carry(rows, c) && forall i :: 0 <= i < |q| ==> q[i] in rows
    ensures var s := Sum(GasSum(), q, ShareOf(rows, prices));
            && s.l2 == Added(q, EvenPart(c.l2, rows)) && s.l1 == Added(q, EvenPart(c.l1, rows))
            && s.usd == Added(q, DollarPart(rows, prices, c))
  {
    if q != [] {
      ShareIsParts(rows, prices, c, q[0]);
      SharesAreParts(q[1..], rows, prices, c);
    }
  }

  lemma {:induction false} SharesMove(q: seq<Row>, rows: seq<Row>, prices: map<string, real>)
    ensures Sum(GasSum(), q, ShareOf(rows, prices)).volume == Added(q, AmountOf())
  {
    if q != [] {
      SharesMove(q[1..], rows, prices);
    }
  }

  /** Cells count their payments, those whose part of the cost exceeds what they move, and what all of them move. */
  lemma CountsAreFacts(table: seq<Group<GasKey, GasTally>>, rows: seq<Row>, prices: map<string, real>,
                       p: GasKey -> bool, c: Facts)
    requires NoWeekMissing(rows, prices) && IsGasTable(table, rows, prices) && Carry(rows, c)
    ensures var cells := Sum(GasSum(), Filter(table, GroupWhere(p)), TotalOf());
            && cells.txns == |Chosen(rows, p)| && cells.volume == Added(Chosen(rows, p), AmountOf())
            && cells.breakeven == |Filter(Chosen(rows, p), CostsMore(rows, prices, c))|
  {
    CellsAreShares(table, rows, prices, p);
    SharesMove(Chosen(rows, p), rows, prices);
    CellsCount(table, rows, prices, p);
    forall q | q in Chosen(rows, p) ensures Breaks(rows, prices)(q) == CostsMore(rows, prices, c)(q) {
      CostIsPart(rows, prices, c, q);
    }
    FilterSame(Chosen(rows, p), Breaks(rows, prices), CostsMore(rows, prices, c));
  }

  /** Cells hold these payments: their number, what they move and cost, and how many cost more than they move. */
  ghost predicate CellsHold(t: GasTally, q: seq<Row>, rows: seq<Row>, prices: map<string, real>, c: Facts) {
    && t.txns == |q| && t.volume == Added(q, AmountOf()) && t.breakeven == |Filter(q, CostsMore(rows, prices, c))|
    && t.l2 == Added(q, EvenPart(c.l2, rows)) && t.l1 == Added(q, EvenPart(c.l1, rows))
    && t.usd == Added(q, DollarPart(rows, prices, c))
  }

  lemma CellsAreParts(table: seq<Group<GasKey, GasTally>>, rows: seq<Row>, prices: map<string, real>,
                      p: GasKey -> bool, c: Facts)
    requires NoWeekMissing(rows, prices) && IsGasTable(table, rows, prices) && Carry(rows, c)
    ensures CellsHold(Sum(GasSum(), Filter(table, GroupWhere(p)), TotalOf()), Chosen(rows, p), rows, prices, c)
  {
    CountsAreFacts(table, rows, prices, p, c);
    CellsAreShares(table, rows, prices, p);
    SharesAreParts(Chosen(rows, p), rows, prices, c);
  }

  function PricedIn(prices: map<string, real>, p: GasKey -> bool): Row -> bool {
    (r: Row) => r.week in prices && p(GasKeyOf(r))
  }

  lemma {:induction false} SharesCount(q: seq<Row>, rows: seq<Row>, prices: map<string, real>)
    ensures Sum(GasSum(), q, ShareOf(rows, prices)).txns == |q|
  {
    if q != [] {
      SharesCount(q[1..], rows, prices);
    }
  }

  /** Payments of a week without a price are in no cell, whatever weeks have one. */
  lemma OnlyPricedAreCounted(table: seq<Group<GasKey, GasTally>>, rows: seq<Row>, prices: map<string, real>,
                             p: GasKey -> bool)
    requires IsGasTable(table, rows, prices)
    ensures var cells := Sum(GasSum(), Filter(table, GroupWhere(p)), TotalOf());
            var q := Filter(rows, PricedIn(prices, p));
            cells.txns == |q| && cells.volume == Added(q, AmountOf())
  {
    GasSumIsLawful();
    GroupsSum(GasSum(), table, Filter(rows, HasPrice(prices)), GasKeyOf, ShareOf(rows, prices), p);
    FilterBoth(rows, HasPrice(prices), Where(GasKeyOf, p), PricedIn(prices, p));
    SharesCount(Filter(rows, PricedIn(prices, p)), rows, prices);
    SharesMove(Filter(rows, PricedIn(prices, p)), rows, prices);
  }

  // ----- a window

  /** Verified payments of the window, its days counted. */
  function VerifiedWithin(asOf: Day, w: Window): Row -> bool {
    (p: Row) => p.facilitatorKnown && WithinDays(asOf, w, p.day)
  }

  lemma WindowTakesVerified(rows: seq<Row>, asOf: Day, w: Window)
    ensures Chosen(rows, GasKeyInWindow(asOf, w)) == Filter(rows, VerifiedWithin(asOf, w))
  {
    forall p | p in rows ensures Where(GasKeyOf, GasKeyInWindow(asOf, w))(p) == VerifiedWithin(asOf, w)(p) {
      WindowCountsDays(asOf, w, p.day);
      assert GasKeyOf(p).known == p.facilitatorKnown && GasKeyOf(p).day == p.day;
    }
    FilterSame(rows, Where(GasKeyOf, GasKeyInWindow(asOf, w)), VerifiedWithin(asOf, w));
  }

  /** What both pages show of a window, by the transactions whose payments lie in it. */
  ghost predicate WindowHolds(t: GasTally, rows: seq<Row>, prices: map<string, real>, asOf: Day, w: Window, c: Facts,
                              keys: seq<TxKey>)
  {
    var q := Filter(rows, VerifiedWithin(asOf, w));
    && t.l2 == Added(keys, c.l2) && t.l1 == Added(keys, c.l1) && t.usd == Added(keys, DollarsOf(c, prices))
    && t.txns == |q| && t.volume == Added(q, AmountOf()) && t.breakeven == |Filter(q, CostsMore(rows, prices, c))|
  }

  lemma WindowIsFacts(table: seq<Cell>, rows: seq<Row>, prices: map<string, real>, asOf: Day, w: Window, c: Facts,
                      keys: seq<TxKey>)
    requires NoWeekMissing(rows, prices) && IsGasTable(table, rows, prices) && TxFactsShared(rows) && Carry(rows, c)
    requires TxsOf(keys, Filter(rows, VerifiedWithin(asOf, w)))
    ensures WindowHolds(TableWindow(table, asOf, w), rows, prices, asOf, w, c, keys)
  {
    WindowTakesVerified(rows, asOf, w);
    CostCountedOnce(table, rows, prices, GasKeyInWindow(asOf, w), c, keys);
    CountsAreFacts(table, rows, prices, GasKeyInWindow(asOf, w), c);
  }

  function VerifiedInBand(asOf: Day, w: Window, band: string): Row -> bool {
    (p: Row) => p.facilitatorKnown && WithinDays(asOf, w, p.day) && InBand(p.amount, band)
  }

  lemma BandTakesVerified(rows: seq<Row>, asOf: Day, w: Window, band: string)
    ensures Chosen(rows, GasKeyInWindowBand(asOf, w, band)) == Filter(rows, VerifiedInBand(asOf, w, band))
  {
    forall p | p in rows
      ensures Where(GasKeyOf, GasKeyInWindowBand(asOf, w, band))(p) == VerifiedInBand(asOf, w, band)(p)
    {
      var k := GasKeyOf(p);
      WindowCountsDays(asOf, w, p.day);
      BandMeans(p.amount, band);
      assert GasKeyInWindowBand(asOf, w, band)(k) == (GasKeyInWindow(asOf, w)(k) && k.band == band);
    }
    FilterSame(rows, Where(GasKeyOf, GasKeyInWindowBand(asOf, w, band)), VerifiedInBand(asOf, w, band));
  }

  /** What a band of a window shows is that of its payments, each with its even part of its transaction. */
  lemma BandIsFacts(table: seq<Cell>, rows: seq<Row>, prices: map<string, real>, asOf: Day, w: Window, band: string,
                    c: Facts)
    requires NoWeekMissing(rows, prices) && IsGasTable(table, rows, prices) && Carry(rows, c)
    ensures CellsHold(TableBand(table, asOf, w, band), Filter(rows, VerifiedInBand(asOf, w, band)), rows, prices, c)
  {
    BandTakesVerified(rows, asOf, w, band);
    CellsAreParts(table, rows, prices, GasKeyInWindowBand(asOf, w, band), c);
  }
}
