/**
 The nightly rebuild of the entity tables.  Edges, counterparties per facilitator and
 days are three groupings of one snapshot, replaced together or not at all.
 */
module Rollups {
  import opened Cube
  import opened Days
  import opened Grouping
  import opened Leaderboards
  import opened Positions
  import opened PricePoints
  import opened Ranking
  import opened Roles
  import opened Wrappers

  datatype EdgeKey = EdgeKey(payer: string, payee: string, known: bool)
  datatype SideKey = SideKey(facilitator: string, role: Role, counterparty: string, known: bool)
  datatype DayKey = DayKey(address: string, role: Role, day: Day, known: bool)

  type Edges = seq<Group<EdgeKey, Accum>>
  type Sides = seq<Group<SideKey, Accum>>
  type DayRows = seq<Group<DayKey, Accum>>

  /** One payment seen from one of its parties. */
  datatype Part = Part(role: Role, pay: Pay)

  function PartyOf(t: Part): string {
    match t.role
    case PayerRole => t.pay.payer
    case PayeeRole => t.pay.payee
    case FacilitatorRole => t.pay.facilitator
  }

  function PartAccum(t: Part): Accum {
    PayAccum(t.pay)
  }

  function EdgeKeyOf(p: Pay): EdgeKey {
    EdgeKey(p.payer, p.payee, p.facilitatorKnown)
  }

  function SideKeyOf(t: Part): SideKey {
    SideKey(t.pay.facilitator, t.role, PartyOf(t), t.pay.facilitatorKnown)
  }

  function DayKeyOf(t: Part): DayKey {
    DayKey(PartyOf(t), t.role, t.pay.day, t.pay.facilitatorKnown)
  }

  /** LATERAL VALUES: every payment once for each of the roles. */
  function Unpivot(payments: seq<Pay>, roles: seq<Role>): seq<Part> {
    if payments == [] then [] else PartsOf(payments[0], roles) + Unpivot(payments[1..], roles)
  }

  function PartsOf(p: Pay, roles: seq<Role>): (r: seq<Part>)
    ensures |r| == |roles| && forall i :: 0 <= i < |r| ==> r[i] == Part(roles[i], p)
  {
    if roles == [] then [] else [Part(roles[0], p)] + PartsOf(p, roles[1..])
  }

  function TwoSides(): seq<Role> {
    [PayerRole, PayeeRole]
  }

  function AllRoles(): seq<Role> {
    [PayerRole, PayeeRole, FacilitatorRole]
  }

  ghost predicate IsEdges(edges: Edges, payments: seq<Pay>) {
    IsGroupBy(AccumSum(), edges, payments, EdgeKeyOf, PayAccum)
  }

  ghost predicate IsSides(sides: Sides, payments: seq<Pay>) {
    IsGroupBy(AccumSum(), sides, Unpivot(payments, TwoSides()), SideKeyOf, PartAccum)
  }

  ghost predicate IsDays(days: DayRows, payments: seq<Pay>) {
    IsGroupBy(AccumSum(), days, Unpivot(payments, AllRoles()), DayKeyOf, PartAccum)
  }

  // ----- one payment, one part per role

  /** Parts of one role that meet a condition on the payment. */
  function InRole(role: Role, p: Pay -> bool): Part -> bool {
    (t: Part) => t.role == role && p(t.pay)
  }

  predicate Once(roles: seq<Role>, role: Role) {
    roles != [] && if roles[0] == role then role !in roles[1..] else Once(roles[1..], role)
  }

  lemma {:induction false} OnePart(pay: Pay, roles: seq<Role>, role: Role, p: Pay -> bool)
    requires Once(roles, role)
    ensures Filter(PartsOf(pay, roles), InRole(role, p)) == if p(pay) then [Part(role, pay)] else []
  {
    var rest := PartsOf(pay, roles[1..]);
    assert PartsOf(pay, roles)[1..] == rest;
    if roles[0] == role {
      FilterNone(rest, InRole(role, p));
    } else {
      OnePart(pay, roles[1..], role, p);
    }
  }

  /** Summing one role's parts is summing the payments: none is lost, none counted twice. */
  lemma {:induction false} RoleSumsPayments(payments: seq<Pay>, roles: seq<Role>, role: Role, p: Pay -> bool)
    requires Once(roles, role)
    ensures Sum(AccumSum(), Filter(Unpivot(payments, roles), InRole(role, p)), PartAccum)
         == Sum(AccumSum(), Filter(payments, p), PayAccum)
  {
    if payments != [] {
      var pay, rest := payments[0], Unpivot(payments[1..], roles);
      RoleSumsPayments(payments[1..], roles, role, p);
      OnePart(pay, roles, role, p);
      FilterAppend(PartsOf(pay, roles), rest, InRole(role, p));
      if p(pay) {
        SumCons(AccumSum(), Part(role, pay), Filter(rest, InRole(role, p)), PartAccum);
        SumCons(AccumSum(), pay, Filter(payments[1..], p), PayAccum);
      } else {
        assert [] + Filter(rest, InRole(role, p)) == Filter(rest, InRole(role, p));
        assert Filter(payments, p) == Filter(payments[1..], p);
      }
    }
  }

  // ----- what the tables say of one entity

  function PartyIs(role: Role, a: string): Pay -> bool {
    (p: Pay) => PartyOf(Part(role, p)) == a
  }

  function DaysOf(role: Role, a: string): DayKey -> bool {
    (k: DayKey) => k.role == role && k.address == a
  }

  function EdgesFrom(a: string): EdgeKey -> bool {
    (k: EdgeKey) => k.payer == a
  }

  function EdgesTo(a: string): EdgeKey -> bool {
    (k: EdgeKey) => k.payee == a
  }

  function SideOf(role: Role, f: string): SideKey -> bool {
    (k: SideKey) => k.role == role && k.facilitator == f
  }

  /** All an entity's payments in a role. */
  function DirectSum(payments: seq<Pay>, role: Role, a: string): Accum {
    Sum(AccumSum(), Filter(payments, PartyIs(role, a)), PayAccum)
  }

  lemma DaysSumToPayments(days: DayRows, payments: seq<Pay>, role: Role, a: string)
    requires IsDays(days, payments)
    ensures Sum(AccumSum(), Filter(days, GroupWhere(DaysOf(role, a))), TotalOf()) == DirectSum(payments, role, a)
  {
    var parts := Unpivot(payments, AllRoles());
    AccumSumIsLawful();
    GroupsSum(AccumSum(), days, parts, DayKeyOf, PartAccum, DaysOf(role, a));
    FilterSame(parts, Where(DayKeyOf, DaysOf(role, a)), InRole(role, PartyIs(role, a)));
    EveryRoleOnce(role);
    RoleSumsPayments(payments, AllRoles(), role, PartyIs(role, a));
  }

  lemma EveryRoleOnce(role: Role)
    ensures Once(AllRoles(), role)
    ensures role != FacilitatorRole ==> Once(TwoSides(), role)
  {
    assert AllRoles()[1..] == [PayeeRole, FacilitatorRole] && TwoSides()[1..] == [PayeeRole];
    assert [PayeeRole, FacilitatorRole][1..] == [FacilitatorRole];
  }

  lemma EdgesSumToPayments(edges: Edges, payments: seq<Pay>, a: string)
    requires IsEdges(edges, payments)
    ensures Sum(AccumSum(), Filter(edges, GroupWhere(EdgesFrom(a))), TotalOf()) == DirectSum(payments, PayerRole, a)
    ensures Sum(AccumSum(), Filter(edges, GroupWhere(EdgesTo(a))), TotalOf()) == DirectSum(payments, PayeeRole, a)
  {
    AccumSumIsLawful();
    GroupsSum(AccumSum(), edges, payments, EdgeKeyOf, PayAccum, EdgesFrom(a));
    GroupsSum(AccumSum(), edges, payments, EdgeKeyOf, PayAccum, EdgesTo(a));
    FilterSame(payments, Where(EdgeKeyOf, EdgesFrom(a)), PartyIs(PayerRole, a));
    FilterSame(payments, Where(EdgeKeyOf, EdgesTo(a)), PartyIs(PayeeRole, a));
  }

  /** Either side of a facilitator's table is everything it settled. */
  lemma SideIsRole(parts: seq<Part>, role: Role, f: string)
    ensures Filter(parts, Where(SideKeyOf, SideOf(role, f)))
         == Filter(parts, InRole(role, PartyIs(FacilitatorRole, f)))
  {
    forall t | t in parts
      ensures Where(SideKeyOf, SideOf(role, f))(t) == InRole(role, PartyIs(FacilitatorRole, f))(t)
    {
      assert SideOf(role, f)(SideKeyOf(t)) == (t.role == role && t.pay.facilitator == f);
    }
    FilterSame(parts, Where(SideKeyOf, SideOf(role, f)), InRole(role, PartyIs(FacilitatorRole, f)));
  }

  lemma SidesSumToPayments(sides: Sides, payments: seq<Pay>, role: Role, f: string)
    requires IsSides(sides, payments) && role != FacilitatorRole
    ensures Sum(AccumSum(), Filter(sides, GroupWhere(SideOf(role, f))), TotalOf())
         == DirectSum(payments, FacilitatorRole, f)
  {
    var parts := Unpivot(payments, TwoSides());
    AccumSumIsLawful();
    GroupsSum(AccumSum(), sides, parts, SideKeyOf, PartAccum, SideOf(role, f));
    SideIsRole(parts, role, f);
    EveryRoleOnce(role);
    RoleSumsPayments(payments, TwoSides(), role, PartyIs(FacilitatorRole, f));
  }

  /** All time, every payment: the slice the tables below can be compared with. */
  function AllTime(role: ListedRole): Board {
    Board(WindowAll, role, AllLens)
  }

  lemma OwnIsDirect(payments: seq<Pay>, anchor: Day, role: ListedRole, a: string)
    ensures Own(payments, anchor, AllTime(role), a) == Filter(payments, PartyIs(role, a))
  {
    FilterAll(payments, InSlice(anchor, AllTime(role)));
    FilterSame(payments, KeyIs(AddressIn(role), a), PartyIs(role, a));
  }

  lemma EntitySumsAreDirect(payments: seq<Pay>, anchor: Day, role: ListedRole, a: string)
    requires a in Addresses(payments, anchor, AllTime(role))
    ensures EntityAt(payments, anchor, AllTime(role), a).sums == DirectSum(payments, role, a)
  {
    OwnIsDirect(payments, anchor, role, a);
  }

  /** A payer's days, its edges and its place in the all-time leaderboard report one count and one volume. */
  lemma TablesAgreeOnPayers(edges: Edges, days: DayRows, payments: seq<Pay>, anchor: Day, a: string)
    requires IsEdges(edges, payments) && IsDays(days, payments)
    requires a in Addresses(payments, anchor, AllTime(PayerRole))
    ensures var sums := EntityAt(payments, anchor, AllTime(PayerRole), a).sums;
            && Sum(AccumSum(), Filter(days, GroupWhere(DaysOf(PayerRole, a))), TotalOf()) == sums
            && Sum(AccumSum(), Filter(edges, GroupWhere(EdgesFrom(a))), TotalOf()) == sums
  {
    DaysSumToPayments(days, payments, PayerRole, a);
    EdgesSumToPayments(edges, payments, a);
    EntitySumsAreDirect(payments, anchor, PayerRole, a);
  }

  /** So do a payee's. */
  lemma TablesAgreeOnPayees(edges: Edges, days: DayRows, payments: seq<Pay>, anchor: Day, a: string)
    requires IsEdges(edges, payments) && IsDays(days, payments)
    requires a in Addresses(payments, anchor, AllTime(PayeeRole))
    ensures var sums := EntityAt(payments, anchor, AllTime(PayeeRole), a).sums;
            && Sum(AccumSum(), Filter(days, GroupWhere(DaysOf(PayeeRole, a))), TotalOf()) == sums
            && Sum(AccumSum(), Filter(edges, GroupWhere(EdgesTo(a))), TotalOf()) == sums
  {
    DaysSumToPayments(days, payments, PayeeRole, a);
    EdgesSumToPayments(edges, payments, a);
    EntitySumsAreDirect(payments, anchor, PayeeRole, a);
  }

  ghost function PayeesOf(edges: Edges, a: string): set<string> {
    set r | r in edges && r.key.payer == a :: r.key.payee
  }

  lemma EdgeEnds(edges: Edges, payments: seq<Pay>, a: string, b: string)
    requires IsEdges(edges, payments)
    ensures b in PayeesOf(edges, a) <==> exists p :: p in payments && p.payer == a && p.payee == b
  {
    forall p | p in payments && p.payer == a && p.payee == b ensures b in PayeesOf(edges, a) {
      assert HasKey(edges, EdgeKeyOf(p));
    }
    if b in PayeesOf(edges, a) {
      var i :| 0 <= i < |edges| && edges[i].key.payer == a && edges[i].key.payee == b;
      assert OneGroup(AccumSum(), edges[i], payments, EdgeKeyOf, PayAccum);
      var p := Filter(payments, KeyIs(EdgeKeyOf, edges[i].key))[0];
      assert p in Filter(payments, KeyIs(EdgeKeyOf, edges[i].key));
    }
  }

  lemma PaidIsEdgeEnd(edges: Edges, payments: seq<Pay>, a: string, b: string)
    requires IsEdges(edges, payments)
    ensures b in PayeesOf(edges, a)
       <==> exists p :: p in Filter(payments, PartyIs(PayerRole, a)) && CounterpartyIn(PayerRole)(p) == b
  {
    EdgeEnds(edges, payments, a, b);
    if p :| p in payments && p.payer == a && p.payee == b {
      assert p in Filter(payments, PartyIs(PayerRole, a)) && CounterpartyIn(PayerRole)(p) == b;
    }
  }

  /** The counterparties a payer is ranked by are the ends of its edges. */
  lemma CounterpartiesAreEdgeEnds(edges: Edges, payments: seq<Pay>, anchor: Day, a: string)
    requires IsEdges(edges, payments)
    requires a in Addresses(payments, anchor, AllTime(PayerRole))
    ensures EntityAt(payments, anchor, AllTime(PayerRole), a).counterparties == |PayeesOf(edges, a)|
  {
    OwnIsDirect(payments, anchor, PayerRole, a);
    PaidAreEdgeEnds(edges, payments, a);
    assert EntityAt(payments, anchor, AllTime(PayerRole), a).counterparties
        == |Paid(Own(payments, anchor, AllTime(PayerRole), a))|;
  }

  ghost function Paid(own: seq<Pay>): set<string> {
    set p | p in own :: CounterpartyIn(PayerRole)(p)
  }

  lemma PaidAreEdgeEnds(edges: Edges, payments: seq<Pay>, a: string)
    requires IsEdges(edges, payments)
    ensures Paid(Filter(payments, PartyIs(PayerRole, a))) == PayeesOf(edges, a)
  {
    forall b ensures b in Paid(Filter(payments, PartyIs(PayerRole, a))) <==> b in PayeesOf(edges, a) {
      PaidIsEdgeEnd(edges, payments, a, b);
    }
  }

  /** A facilitator's days and both sides of its table do too. */
  lemma TablesAgreeOnFacilitators(sides: Sides, days: DayRows, payments: seq<Pay>, f: string)
    requires IsSides(sides, payments) && IsDays(days, payments)
    ensures Sum(AccumSum(), Filter(sides, GroupWhere(SideOf(PayerRole, f))), TotalOf())
         == Sum(AccumSum(), Filter(sides, GroupWhere(SideOf(PayeeRole, f))), TotalOf())
         == Sum(AccumSum(), Filter(days, GroupWhere(DaysOf(FacilitatorRole, f))), TotalOf())
  {
    SidesSumToPayments(sides, payments, PayerRole, f);
    SidesSumToPayments(sides, payments, PayeeRole, f);
    DaysSumToPayments(days, payments, FacilitatorRole, f);
  }

  function PayerDays(knownOnly: bool): DayKey -> bool {
    (k: DayKey) => k.role == PayerRole && (!knownOnly || k.known)
  }

  function InLens(knownOnly: bool): Pay -> bool {
    (p: Pay) => !knownOnly || p.facilitatorKnown
  }

  /** The payer rows carry every payment of a lens exactly once: the totals the metadata serves. */
  lemma PayerDaysAreAllPayments(days: DayRows, payments: seq<Pay>, knownOnly: bool)
    requires IsDays(days, payments)
    ensures Sum(AccumSum(), Filter(days, GroupWhere(PayerDays(knownOnly))), TotalOf())
         == Sum(AccumSum(), Filter(payments, InLens(knownOnly)), PayAccum)
  {
    var parts := Unpivot(payments, AllRoles());
    AccumSumIsLawful();
    GroupsSum(AccumSum(), days, parts, DayKeyOf, PartAccum, PayerDays(knownOnly));
    FilterSame(parts, Where(DayKeyOf, PayerDays(knownOnly)), InRole(PayerRole, InLens(knownOnly)));
    EveryRoleOnce(PayerRole);
    RoleSumsPayments(payments, AllRoles(), PayerRole, InLens(knownOnly));
  }

  // ----- the rebuild

  /** One statement: group the rows and add each group up. */
  method GroupRows<T(!new), K(!new,==), M(!new)>(g: Monoid<M>, ts: seq<T>, key: T -> K, f: T -> M)
    returns (rows: seq<Group<K, M>>)
    requires Lawful(g)
    ensures IsGroupBy(g, rows, ts, key, f)
  {
    rows := [];
    ghost var seen: seq<T> := [];
    for i := 0 to |ts|
      invariant seen == ts[..i]
      invariant IsGroupBy(g, rows, seen, key, f)
    {
      rows := GroupRow(g, rows, seen, ts[i], key, f);
      seen := seen + [ts[i]];
    }
    assert ts[..|ts|] == ts;
  }

  method GroupEdges(payments: seq<Pay>) returns (edges: Edges)
    ensures IsEdges(edges, payments)
  {
    AccumSumIsLawful();
    edges := GroupRows(AccumSum(), payments, EdgeKeyOf, PayAccum);
  }

  method GroupSides(payments: seq<Pay>) returns (sides: Sides)
    ensures IsSides(sides, payments)
  {
    AccumSumIsLawful();
    sides := GroupRows(AccumSum(), Unpivot(payments, TwoSides()), SideKeyOf, PartAccum);
  }

  method GroupDays(payments: seq<Pay>) returns (days: DayRows)
    ensures IsDays(days, payments)
  {
    AccumSumIsLawful();
    days := GroupRows(AccumSum(), Unpivot(payments, AllRoles()), DayKeyOf, PartAccum);
  }

  method GroupRow<T(!new), K(!new,==), M(!new)>(g: Monoid<M>, rows: seq<Group<K, M>>, ghost seen: seq<T>, t: T,
                                                key: T -> K, f: T -> M)
    returns (more: seq<Group<K, M>>)
    requires Lawful(g) && IsGroupBy(g, rows, seen, key, f)
    ensures IsGroupBy(g, more, seen + [t], key, f)
  {
    var j := FindKey(rows, key(t));
    if j == |rows| {
      NewGroup(g, rows, seen, t, key, f);
      more := rows + [Group(key(t), g.plus(g.zero, f(t)))];
    } else {
      JoinGroup(g, rows, j, seen, t, key, f);
      more := rows[j := Group(key(t), g.plus(rows[j].total, f(t)))];
    }
  }

  method FindKey<K(!new,==), M(!new)>(rows: seq<Group<K, M>>, k: K) returns (j: nat)
    ensures j <= |rows| && (j < |rows| ==> rows[j].key == k) && (j == |rows| ==> !HasKey(rows, k))
  {
    for i := 0 to |rows|
      invariant forall m :: 0 <= m < i ==> rows[m].key != k
    {
      if rows[i].key == k {
        return i;
      }
    }
    return |rows|;
  }

  datatype Signal = Signal(manual: bool, address: string, value: string)
  datatype ManualLabel = ManualLabel(address: string, value: string)

  function Detected(): Signal -> bool {
    (s: Signal) => !s.manual
  }

  function Curated(labels: seq<ManualLabel>): (r: seq<Signal>)
    ensures |r| == |labels|
    ensures forall i :: 0 <= i < |r| ==> r[i] == Signal(true, labels[i].address, labels[i].value)
  {
    if labels == [] then []
    else Curated(labels[..|labels|-1]) + [Signal(true, labels[|labels|-1].address, labels[|labels|-1].value)]
  }

  method ReplaceManualSignals(signals: seq<Signal>, labels: seq<ManualLabel>) returns (r: seq<Signal>)
    ensures r == Filter(signals, Detected()) + Curated(labels)
  {
    r := Filter(signals, Detected());
    for i := 0 to |labels|
      invariant r == Filter(signals, Detected()) + Curated(labels[..i])
    {
      assert labels[..i+1][..i] == labels[..i];
      r := r + [Signal(true, labels[i].address, labels[i].value)];
    }
    assert labels[..|labels|] == labels;
  }

  // ----- the other tables

  datatype PartyKey = PartyKey(address: string, role: Role, known: bool)

  function PartyKeyOf(t: Part): PartyKey {
    PartyKey(PartyOf(t), t.role, t.pay.facilitatorKnown)
  }

  function AmountsIn(parts: seq<Part>): (r: seq<Amount>)
    ensures |r| == |parts| && forall i :: 0 <= i < |r| ==> r[i] == parts[i].pay.amount
  {
    if parts == [] then [] else [parts[0].pay.amount] + AmountsIn(parts[1..])
  }

  function AmountsOf(payments: seq<Pay>, k: PartyKey): seq<Amount> {
    AmountsIn(Filter(Unpivot(payments, AllRoles()), KeyIs(PartyKeyOf, k)))
  }

  /** The stored price points of every entity, role and lens there is. */
  function PointsOf(payments: seq<Pay>): map<PartyKey, set<StoredPoint>> {
    map k | k in (set t | t in Unpivot(payments, AllRoles()) :: PartyKeyOf(t)) :: StoredPoints(AmountsOf(payments, k))
  }

  /** max(day), NULL on an empty table */
  function LastDay(payments: seq<Pay>): (last: Option<Day>)
    ensures last.None? <==> payments == []
    ensures last.Some? ==> forall p :: p in payments ==> !Earlier(last.value, p.day)
    ensures last.Some? ==> exists p :: p in payments && p.day == last.value
  {
    if payments == [] then None
    else
      var rest, p := LastDay(payments[..|payments|-1]), payments[|payments|-1];
      assert payments == payments[..|payments|-1] + [p];
      if rest.Some? && Earlier(p.day, rest.value) then rest else Some(p.day)
  }

  function BoardsOf(payments: seq<Pay>): map<Board, set<Entity>> {
    map s: Board | s in AllBoards() ::
      if LastDay(payments).None? then {} else Index(payments, LastDay(payments).value, s)
  }

  function AllBoards(): set<Board> {
    set w, r, l | w in {Window7d, Window30d, WindowAll} && r in {PayerRole, PayeeRole} && l in {AllLens, KnownLens} ::
      Board(w, r, l)
  }

  datatype Stamp = Stamp(dataMaxDay: Option<Day>, builtAt: string)

  /** What readers see between two commits. */
  datatype Tables = Tables(
    edges: Edges,
    sides: Sides,
    days: DayRows,
    points: map<PartyKey, set<StoredPoint>>,
    boards: map<Board, set<Entity>>,
    signals: seq<Signal>,
    stamp: Option<Stamp>)

  ghost predicate FromSnapshot(t: Tables, snapshot: seq<Pay>) {
    && IsEdges(t.edges, snapshot) && IsSides(t.sides, snapshot) && IsDays(t.days, snapshot)
    && t.points == PointsOf(snapshot)
    && t.boards == BoardsOf(snapshot)
    && (t.stamp.Some? ==> t.stamp.value.dataMaxDay == LastDay(snapshot))
  }

  /** Where a rebuild fails: in one of its statements, in its commit, or in the statistics run after it. */
  datatype Fault = NoFault | AtStatement(k: Statement) | AtCommit(applied: bool) | AfterCommit

  /** Five tables, the manual signals, the stamp. */
  type Statement = k: nat | k < 7

  predicate Takes(f: Fault) {
    f == NoFault || f == AfterCommit || f == AtCommit(true)
  }

  /** The statements in order, or None at the first that fails. */
  method Rebuilt(signals: seq<Signal>, payments: seq<Pay>, labels: seq<ManualLabel>, now: string, fault: Fault)
    returns (r: Option<Tables>)
    ensures r.None? <==> fault.AtStatement?
    ensures r.Some? ==>
              && FromSnapshot(r.value, payments)
              && r.value.signals == Filter(signals, Detected()) + Curated(labels)
              && r.value.stamp == Some(Stamp(LastDay(payments), now))
  {
    if fault == AtStatement(0) {
      return None;
    }
    var edges := GroupEdges(payments);
    if fault == AtStatement(1) {
      return None;
    }
    var sides := GroupSides(payments);
    if fault == AtStatement(2) {
      return None;
    }
    var days := GroupDays(payments);
    if fault == AtStatement(3) {
      return None;
    }
    var points := PointsOf(payments);
    if fault == AtStatement(4) {
      return None;
    }
    var boards := BoardsOf(payments);
    if fault == AtStatement(5) {
      return None;
    }
    var replaced := ReplaceManualSignals(signals, labels);
    if fault == AtStatement(6) {
      return None;
    }
    return Some(Tables(edges, sides, days, points, boards, replaced, Some(Stamp(LastDay(payments), now))));
  }

  class Atlas {
    var tables: Tables
    ghost var snapshot: seq<Pay>

    /** Every table comes from the same payments. */
    ghost predicate OneSnapshot()
      reads this
    {
      FromSnapshot(tables, snapshot)
    }

    constructor ()
      ensures OneSnapshot() && snapshot == [] && tables.signals == [] && tables.stamp == None
    {
      tables := Tables([], [], [], PointsOf([]), BoardsOf([]), [], None);
      snapshot := [];
    }

    method Rollup(payments: seq<Pay>, labels: seq<ManualLabel>, now: string, fault: Fault) returns (ok: bool)
      requires OneSnapshot()
      modifies this
      ensures OneSnapshot()
      ensures ok <==> fault == NoFault
      ensures Takes(fault) ==>
                && snapshot == payments
                && tables.signals == Filter(old(tables.signals), Detected()) + Curated(labels)
                && tables.stamp == Some(Stamp(LastDay(payments), now))
      ensures !Takes(fault) ==> tables == old(tables) && snapshot == old(snapshot)
    {
      var work := Rebuilt(tables.signals, payments, labels, now, fault);
      if work.None? || fault == AtCommit(false) {
        return false;
      }
      tables, snapshot := work.value, payments;
      return fault == NoFault;
    }
  }

  /** What a reader of the committed boards and points gets is true of the snapshot they came from. */
  lemma CommittedBoardsAreFaithful(t: Tables, snapshot: seq<Pay>, s: Board, sort: Sort)
    requires FromSnapshot(t, snapshot) && snapshot != []
    ensures s in t.boards
    ensures var all := Entities(snapshot, LastDay(snapshot).value, s);
            && Sortable(Order(sort), all) && Sortable(Order(sort), t.boards[s])
            && Top(Order(sort), t.boards[s], Leaderboards.LIMIT) == Top(Order(sort), all, Leaderboards.LIMIT)
            && forall e :: e in t.boards[s] <==> e in all && exists o :: RowNumber(Order(o), all, e) <= 500
  {
    EveryBoardListed(s);
    IndexIsFaithful(snapshot, LastDay(snapshot).value, s, sort);
  }

  lemma EveryBoardListed(s: Board)
    ensures s in AllBoards()
  {
    assert s.window == Window7d || s.window == Window30d || s.window == WindowAll;
    assert s.role == PayerRole || s.role == PayeeRole;
    assert s.lens == AllLens || s.lens == KnownLens;
    assert s == Board(s.window, s.role, s.lens);
  }

  /** One snapshot has one rebuild, but for the order of the groups, the signals and when it was built. */
  lemma SnapshotFixesTables(t: Tables, u: Tables, snapshot: seq<Pay>)
    requires FromSnapshot(t, snapshot) && FromSnapshot(u, snapshot)
    ensures multiset(t.edges) == multiset(u.edges) && multiset(t.sides) == multiset(u.sides)
    ensures multiset(t.days) == multiset(u.days)
    ensures t.points == u.points && t.boards == u.boards
    ensures t.stamp.Some? && u.stamp.Some? ==> t.stamp.value.dataMaxDay == u.stamp.value.dataMaxDay
  {
    GroupingsAgree(AccumSum(), t.edges, u.edges, snapshot, EdgeKeyOf, PayAccum);
    GroupingsAgree(AccumSum(), t.sides, u.sides, Unpivot(snapshot, TwoSides()), SideKeyOf, PartAccum);
    GroupingsAgree(AccumSum(), t.days, u.days, Unpivot(snapshot, AllRoles()), DayKeyOf, PartAccum);
  }

  /** A second replacement by the same labels changes no signal. */
  lemma RollupTwiceKeepsSignals(signals: seq<Signal>, labels: seq<ManualLabel>)
    ensures var once := Filter(signals, Detected()) + Curated(labels);
            Filter(once, Detected()) + Curated(labels) == once
  {
    CuratedIsManual(labels);
    DetectedStay(Filter(signals, Detected()), Curated(labels));
  }

  /** Afterwards the manual signals are just those of the curated labels, the others those there were. */
  lemma {:induction false} CuratedAreLabels(labels: seq<ManualLabel>, s: Signal)
    ensures s in Curated(labels) <==> s.manual && ManualLabel(s.address, s.value) in labels
  {
    if labels != [] {
      var front, last := labels[..|labels|-1], labels[|labels|-1];
      assert labels == front + [last];
      CuratedAreLabels(front, s);
    }
  }

  lemma DetectedStay(kept: seq<Signal>, manual: seq<Signal>)
    requires (forall s :: s in kept ==> !s.manual) && (forall s :: s in manual ==> s.manual)
    ensures Filter(kept + manual, Detected()) == kept
  {
    FilterAppend(kept, manual, Detected());
    FilterAll(kept, Detected());
    FilterNone(manual, Detected());
  }

  lemma {:induction false} CuratedIsManual(labels: seq<ManualLabel>)
    ensures forall s :: s in Curated(labels) ==> s.manual
  {
    if labels != [] {
      CuratedIsManual(labels[..|labels|-1]);
    }
  }
}
