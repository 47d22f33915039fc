/** The facilitators page: one row per facilitator, and a total the rows must conserve. */
module Facilitators {
  import opened Cube
  import opened Days
  import opened Economy
  import opened Grouping
  import opened Positions
  import opened Text

  datatype FacilitatorRow = FacilitatorRow(facilitator: string, known: bool, all: Accum, week: Accum, month: Accum)

  datatype FacilitatorsPage = FacilitatorsPage(rows: seq<FacilitatorRow>, totals: Accum)

  function FacilitatorOf(r: Group<CubeKey, Tally>): string {
    r.key.facilitator
  }

  function RowGroups(rows: seq<FacilitatorRow>): (r: seq<Group<string, Accum>>)
    ensures |r| == |rows| && forall i :: 0 <= i < |r| ==> r[i] == Group(rows[i].facilitator, rows[i].all)
  {
    if rows == [] then [] else [Group(rows[0].facilitator, rows[0].all)] + RowGroups(rows[1..])
  }

  predicate SettledBy(k: CubeKey, asOf: Day, w: Window, f: string) {
    k.known && !Earlier(asOf, k.day) && InWindow(asOf, w, k.day) && k.facilitator == f
  }

  function CellsOf(asOf: Day, w: Window, f: string): CubeKey -> bool {
    (k: CubeKey) => SettledBy(k, asOf, w, f)
  }

  /** The verified payments a facilitator settled in the window. */
  function DirectOf(payments: seq<Payment>, asOf: Day, w: Window, f: string): Accum {
    Sum(AccumSum(), Filter(payments, Where(CubeKeyOf, CellsOf(asOf, w, f))), PaymentAccum)
  }

  function WindowOf(r: FacilitatorRow, w: Window): Accum {
    match w
    case WindowAll => r.all
    case Window30d => r.month
    case Window7d => r.week
  }

  /** ORDER BY volume DESC, facilitator */
  predicate BiggerFirst(a: FacilitatorRow, b: FacilitatorRow) {
    a.all.volume > b.all.volume || (a.all.volume == b.all.volume && StringLess(a.facilitator, b.facilitator))
  }

  /** By volume of all time, the larger first; equal ones by their facilitator's text. */
  ghost predicate BiggestFirst(rows: seq<FacilitatorRow>) {
    forall i, j :: 0 <= i < j < |rows| ==>
      && rows[i].all.volume >= rows[j].all.volume
      && (rows[i].all.volume == rows[j].all.volume ==> StringLess(rows[i].facilitator, rows[j].facilitator))
  }

  ghost predicate HasKnownCell(cube: seq<Group<CubeKey, Tally>>, asOf: Day, f: string) {
    exists r :: r in Filter(cube, KnownThrough(asOf)) && r.key.facilitator == f
  }

  /** The answer of the query; bool_or over the verified cells is the known flag. */
  ghost predicate IsAnswer(rows: seq<FacilitatorRow>, cube: seq<Group<CubeKey, Tally>>, asOf: Day) {
    && IsGroupBy(AccumSum(), RowGroups(rows), Filter(cube, KnownThrough(asOf)), FacilitatorOf, CellAccum)
    && (forall i, j :: 0 <= i < j < |rows| ==> BiggerFirst(rows[i], rows[j]))
    && (forall r :: r in rows ==> (r.known <==> HasKnownCell(cube, asOf, r.facilitator)))
    && forall r, w: Window :: r in rows && w != WindowAll ==>
      WindowOf(r, w) == Sum(AccumSum(), Filter(cube, GroupWhere(CellsOf(asOf, w, r.facilitator))), CellAccum)
  }

  lemma RowsAreDirect(payments: seq<Payment>, cube: seq<Group<CubeKey, Tally>>, asOf: Day, rows: seq<FacilitatorRow>,
                      i: nat, w: Window)
    requires IsCube(cube, payments) && IsAnswer(rows, cube, asOf) && i < |rows|
    ensures WindowOf(rows[i], w) == DirectOf(payments, asOf, w, rows[i].facilitator)
  {
    var f := rows[i].facilitator;
    CellsAreDirect(payments, cube, CellsOf(asOf, w, f));
    if w == WindowAll {
      assert OneGroup(AccumSum(), RowGroups(rows)[i], Filter(cube, KnownThrough(asOf)), FacilitatorOf, CellAccum);
      FilterBoth(cube, KnownThrough(asOf), KeyIs(FacilitatorOf, f), GroupWhere(CellsOf(asOf, w, f)));
    } else {
      assert rows[i] in rows;
    }
  }

  lemma RowsSumToWhole(payments: seq<Payment>, cube: seq<Group<CubeKey, Tally>>, asOf: Day, rows: seq<FacilitatorRow>)
    requires IsCube(cube, payments) && IsAnswer(rows, cube, asOf)
    ensures Sum(AccumSum(), RowGroups(rows), TotalOf()) == Whole(payments, asOf)
  {
    var p := CellCounted(asOf, EveryKey());
    AccumSumIsLawful();
    AllGroupsSum(AccumSum(), RowGroups(rows), Filter(cube, KnownThrough(asOf)), FacilitatorOf, CellAccum);
    FilterSame(cube, KnownThrough(asOf), GroupWhere(p));
    CellsAreDirect(payments, cube, p);
    FilterSame(payments, Where(CubeKeyOf, p), Counted(asOf, EveryKey()));
  }

  lemma TotalGrows(groups: seq<Group<string, Accum>>, i: nat)
    requires i < |groups|
    ensures Sum(AccumSum(), groups[..i+1], TotalOf())
         == PlusAccum(Sum(AccumSum(), groups[..i], TotalOf()), groups[i].total)
  {
    AccumSumIsLawful();
    assert groups[..i+1] == groups[..i] + [groups[i]];
    SumAppend(AccumSum(), groups[..i], [groups[i]], TotalOf());
    SumOne(AccumSum(), groups[i], TotalOf());
  }

  ghost predicate Settles(payments: seq<Payment>, asOf: Day, f: string) {
    exists p :: p in payments && CountsOn(p, asOf, p.day) && p.facilitator == f
  }

  lemma KnownCellMeansPayment(payments: seq<Payment>, cube: seq<Group<CubeKey, Tally>>, asOf: Day, f: string)
    requires IsCube(cube, payments)
    ensures HasKnownCell(cube, asOf, f) <==> Settles(payments, asOf, f)
  {
    if HasKnownCell(cube, asOf, f) {
      KnownCellSettles(payments, cube, asOf, f);
    }
    if p :| p in payments && CountsOn(p, asOf, p.day) && p.facilitator == f {
      PaymentMakesKnownCell(payments, cube, asOf, p);
    }
  }

  lemma KnownCellSettles(payments: seq<Payment>, cube: seq<Group<CubeKey, Tally>>, asOf: Day, f: string)
    requires IsCube(cube, payments) && HasKnownCell(cube, asOf, f)
    ensures Settles(payments, asOf, f)
  {
    var r :| r in Filter(cube, KnownThrough(asOf)) && r.key.facilitator == f;
    var i :| 0 <= i < |cube| && cube[i] == r;
    var p := GroupHasMember(TallySum(), cube, payments, CubeKeyOf, TallyOf, i);
    assert p in payments && CountsOn(p, asOf, p.day) && p.facilitator == f;
  }

  lemma PaymentMakesKnownCell(payments: seq<Payment>, cube: seq<Group<CubeKey, Tally>>, asOf: Day, p: Payment)
    requires IsCube(cube, payments) && p in payments && CountsOn(p, asOf, p.day)
    ensures HasKnownCell(cube, asOf, p.facilitator)
  {
    var i := MemberHasGroup(TallySum(), cube, payments, CubeKeyOf, TallyOf, p);
    assert cube[i] in Filter(cube, KnownThrough(asOf)) && cube[i].key.facilitator == p.facilitator;
  }

  ghost predicate IsListed(rows: seq<FacilitatorRow>, f: string) {
    exists i :: 0 <= i < |rows| && rows[i].facilitator == f && rows[i].known
  }

  /** A facilitator is listed, and as known, just when it settled a verified payment; there is no cap. */
  lemma ListedMeansSettles(payments: seq<Payment>, cube: seq<Group<CubeKey, Tally>>, asOf: Day,
                           rows: seq<FacilitatorRow>, f: string)
    requires IsCube(cube, payments) && IsAnswer(rows, cube, asOf)
    ensures IsListed(rows, f) <==> Settles(payments, asOf, f)
  {
    var cells := Filter(cube, KnownThrough(asOf));
    KnownCellMeansPayment(payments, cube, asOf, f);
    if i :| 0 <= i < |rows| && rows[i].facilitator == f && rows[i].known {
      assert rows[i] in rows;
    }
    if HasKnownCell(cube, asOf, f) {
      var r :| r in cells && r.key.facilitator == f;
      var i := MemberHasGroup(AccumSum(), RowGroups(rows), cells, FacilitatorOf, CellAccum, r);
      assert rows[i] in rows && rows[i].facilitator == f;
    }
  }

  /** What the page says, by the payments. */
  ghost predicate PageIsTrue(page: FacilitatorsPage, payments: seq<Payment>, asOf: Day) {
    && page.totals == Whole(payments, asOf)
    && (forall i, w :: 0 <= i < |page.rows| ==>
          WindowOf(page.rows[i], w) == DirectOf(payments, asOf, w, page.rows[i].facilitator))
    && (forall f :: IsListed(page.rows, f) <==> Settles(payments, asOf, f))
    && BiggestFirst(page.rows)
  }

  method SumRows(answer: seq<FacilitatorRow>) returns (page: FacilitatorsPage)
    ensures page.rows == answer && page.totals == Sum(AccumSum(), RowGroups(answer), TotalOf())
  {
    var rows, totals := [], Accum(0, 0.0);
    ghost var groups := RowGroups(answer);
    for i := 0 to |answer|
      invariant rows == answer[..i]
      invariant totals == Sum(AccumSum(), groups[..i], TotalOf())
    {
      TotalGrows(groups, i);
      totals := PlusAccum(totals, answer[i].all);
      rows := rows + [answer[i]];
    }
    assert answer[..|answer|] == answer && groups[..|answer|] == groups;
    page := FacilitatorsPage(rows, totals);
  }

  /** The rows as read, and a total that is that of every verified payment. */
  method BuildFacilitators(ghost payments: seq<Payment>, ghost cube: seq<Group<CubeKey, Tally>>, asOf: Day,
                           answer: seq<FacilitatorRow>)
    returns (page: FacilitatorsPage)
    requires IsCube(cube, payments) && IsAnswer(answer, cube, asOf)
    ensures page.rows == answer && PageIsTrue(page, payments, asOf)
  {
    page := SumRows(answer);
    AnswerIsTrue(payments, cube, asOf, answer, page);
  }

  lemma AnswerIsTrue(payments: seq<Payment>, cube: seq<Group<CubeKey, Tally>>, asOf: Day, answer: seq<FacilitatorRow>,
                     page: FacilitatorsPage)
    requires IsCube(cube, payments) && IsAnswer(answer, cube, asOf)
    requires page.rows == answer && page.totals == Sum(AccumSum(), RowGroups(answer), TotalOf())
    ensures PageIsTrue(page, payments, asOf)
  {
    RowsSumToWhole(payments, cube, asOf, answer);
    forall i, w | 0 <= i < |answer|
      ensures WindowOf(answer[i], w) == DirectOf(payments, asOf, w, answer[i].facilitator)
    {
      RowsAreDirect(payments, cube, asOf, answer, i, w);
    }
    forall f ensures IsListed(answer, f) <==> Settles(payments, asOf, f) {
      ListedMeansSettles(payments, cube, asOf, answer, f);
    }
  }

  // ----- by the payments' own fields

  function AmountOf(): Payment -> real {
    (p: Payment) => p.amount
  }

  function SettledWithin(asOf: Day, w: Window, f: string): Payment -> bool {
    (p: Payment) => p.facilitatorKnown && p.facilitator == f && WithinDays(asOf, w, p.day)
  }

  lemma DirectOfMeans(payments: seq<Payment>, asOf: Day, w: Window, f: string)
    ensures DirectOf(payments, asOf, w, f)
         == CountAndVolume(Filter(payments, SettledWithin(asOf, w, f)), AmountOf())
  {
    forall p | p in payments
      ensures Where(CubeKeyOf, CellsOf(asOf, w, f))(p) == SettledWithin(asOf, w, f)(p)
    {
      WindowCountsDays(asOf, w, p.day);
      assert CellsOf(asOf, w, f)(CubeKeyOf(p)) == SettledBy(CubeKeyOf(p), asOf, w, f);
    }
    FilterSame(payments, Where(CubeKeyOf, CellsOf(asOf, w, f)), SettledWithin(asOf, w, f));
    AccumsAreCounts(Filter(payments, SettledWithin(asOf, w, f)), PaymentAccum, AmountOf());
  }

  /** The row counts and adds what its facilitator settled: of all time, in the last 7 and the last 30 days. */
  ghost predicate RowShows(r: FacilitatorRow, payments: seq<Payment>, asOf: Day) {
    var f := r.facilitator;
    && r.all == CountAndVolume(Filter(payments, SettledWithin(asOf, WindowAll, f)), AmountOf())
    && r.week == CountAndVolume(Filter(payments, SettledWithin(asOf, Window7d, f)), AmountOf())
    && r.month == CountAndVolume(Filter(payments, SettledWithin(asOf, Window30d, f)), AmountOf())
  }

  lemma RowsAreShown(page: FacilitatorsPage, payments: seq<Payment>, asOf: Day, i: nat)
    requires PageIsTrue(page, payments, asOf) && i < |page.rows|
    ensures RowShows(page.rows[i], payments, asOf)
  {
    var r := page.rows[i];
    DirectOfMeans(payments, asOf, WindowAll, r.facilitator);
    DirectOfMeans(payments, asOf, Window7d, r.facilitator);
    DirectOfMeans(payments, asOf, Window30d, r.facilitator);
    assert WindowOf(page.rows[i], WindowAll) == r.all && WindowOf(page.rows[i], Window7d) == r.week;
    assert WindowOf(page.rows[i], Window30d) == r.month;
  }
}
