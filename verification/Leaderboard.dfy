/**
 The leaderboard index: of all entities of a window, role and lens it stores those among
 the first 500 by any of the three metrics, and a page reads it back by one of them.
 */
module Leaderboards {
  import opened Cube
  import opened Grouping
  import opened Positions
  import opened Ranking
  import opened Roles
  import opened Text
  import opened Wrappers

  const LIMIT: nat := 500

  datatype Pay = Pay(
    payer: string,
    payee: string,
    facilitator: string,
    day: Day,
    time: int,
    amount: Amount,
    facilitatorKnown: bool)

  type ListedRole = r: Role | r != FacilitatorRole witness PayerRole
  datatype Board = Board(window: Window, role: ListedRole, lens: Lens)
  datatype Sort = ByVolume | ByTxns | ByCounterparties

  datatype Entity = Entity(address: string, sums: Accum, counterparties: nat, firstSeen: int, lastSeen: int)

  // ----- the aggregates

  function AddressIn(role: ListedRole): Pay -> string {
    (p: Pay) => if role == PayerRole then p.payer else p.payee
  }

  function CounterpartyIn(role: ListedRole): Pay -> string {
    (p: Pay) => if role == PayerRole then p.payee else p.payer
  }

  /** Windows reach back from the last day of the data. */
  function InSlice(anchor: Day, s: Board): Pay -> bool {
    (p: Pay) => InWindow(anchor, s.window, p.day) && (s.lens == AllLens || p.facilitatorKnown)
  }

  function Members(payments: seq<Pay>, anchor: Day, s: Board): seq<Pay> {
    Filter(payments, InSlice(anchor, s))
  }

  function PayAccum(p: Pay): Accum {
    Accum(1, p.amount)
  }

  function Earliest(q: seq<Pay>): int
    requires q != []
  {
    if |q| == 1 || q[0].time <= Earliest(q[1..]) then q[0].time else Earliest(q[1..])
  }

  function Latest(q: seq<Pay>): int
    requires q != []
  {
    if |q| == 1 || q[0].time >= Latest(q[1..]) then q[0].time else Latest(q[1..])
  }

  ghost predicate SomeAt(q: seq<Pay>, time: int) {
    exists i :: 0 <= i < |q| && q[i].time == time
  }

  lemma SomeAtLater(q: seq<Pay>, time: int)
    requires q != [] && SomeAt(q[1..], time)
    ensures SomeAt(q, time)
  {
    var i :| 0 <= i < |q[1..]| && q[1..][i].time == time;
    assert q[i+1].time == time;
  }

  /** The two times are those of the first and the last payment. */
  lemma {:induction false} SeenSpansAll(q: seq<Pay>)
    requires q != []
    ensures SomeAt(q, Earliest(q)) && SomeAt(q, Latest(q))
    ensures forall p :: p in q ==> Earliest(q) <= p.time <= Latest(q)
  {
    assert q == [q[0]] + q[1..];
    if |q| > 1 {
      SeenSpansAll(q[1..]);
      SomeAtLater(q, Earliest(q[1..]));
      SomeAtLater(q, Latest(q[1..]));
    }
  }

  /** count, sum, count distinct, min and max over one entity's payments. */
  function EntityOf(address: string, own: seq<Pay>, role: ListedRole): Entity
    requires own != []
  {
    Entity(address, Sum(AccumSum(), own, PayAccum), |set p | p in own :: CounterpartyIn(role)(p)|,
           Earliest(own), Latest(own))
  }

  function Own(payments: seq<Pay>, anchor: Day, s: Board, address: string): seq<Pay> {
    Filter(Members(payments, anchor, s), KeyIs(AddressIn(s.role), address))
  }

  function Addresses(payments: seq<Pay>, anchor: Day, s: Board): set<string> {
    set p | p in Members(payments, anchor, s) :: AddressIn(s.role)(p)
  }

  lemma AddressOwnsSome(payments: seq<Pay>, anchor: Day, s: Board, address: string)
    requires address in Addresses(payments, anchor, s)
    ensures Own(payments, anchor, s, address) != []
  {
    var p :| p in Members(payments, anchor, s) && AddressIn(s.role)(p) == address;
    assert p in Own(payments, anchor, s, address);
  }

  function EntityAt(payments: seq<Pay>, anchor: Day, s: Board, address: string): (e: Entity)
    requires address in Addresses(payments, anchor, s)
    ensures e.address == address
  {
    AddressOwnsSome(payments, anchor, s, address);
    EntityOf(address, Own(payments, anchor, s, address), s.role)
  }

  /** One row for each address that occurs. */
  function Entities(payments: seq<Pay>, anchor: Day, s: Board): set<Entity> {
    set a | a in Addresses(payments, anchor, s) :: EntityAt(payments, anchor, s, a)
  }

  // ----- the orders

  function Metric(sort: Sort, e: Entity): real {
    match sort
    case ByVolume => e.sums.volume
    case ByTxns => e.sums.txns as real
    case ByCounterparties => e.counterparties as real
  }

  predicate Ahead(sort: Sort, a: Entity, b: Entity) {
    Metric(sort, a) > Metric(sort, b) || (Metric(sort, a) == Metric(sort, b) && StringLess(a.address, b.address))
  }

  function Order(sort: Sort): (Entity, Entity) -> bool {
    (a: Entity, b: Entity) => Ahead(sort, a, b)
  }

  lemma AheadTransitive(sort: Sort, a: Entity, b: Entity, c: Entity)
    requires Ahead(sort, a, b) && Ahead(sort, b, c)
    ensures Ahead(sort, a, c)
  {
    if StringLess(a.address, b.address) && StringLess(b.address, c.address) {
      StringLessIsTransitive(a.address, b.address, c.address);
    }
  }

  /** The address breaks every tie, so each metric orders the entities in one way only. */
  lemma OrderSorts(payments: seq<Pay>, anchor: Day, s: Board, sort: Sort)
    ensures Sortable(Order(sort), Entities(payments, anchor, s))
  {
    var all, less := Entities(payments, anchor, s), Order(sort);
    forall x, y | x in all && y in all
      ensures x != y ==> less(x, y) || less(y, x)
      ensures less(x, y) ==> !less(y, x)
    {
      StringLessIsTotal(x.address, y.address);
    }
    forall x, y, z | x in all && y in all && z in all && less(x, y) && less(y, z)
      ensures less(x, z)
    {
      AheadTransitive(sort, x, y, z);
    }
    TotalOrderSorts(less, all);
  }

  // ----- the index

  predicate Kept(all: set<Entity>, e: Entity) {
    exists sort: Sort :: RowNumber(Order(sort), all, e) <= LIMIT
  }

  /** The stored rows of one slice. */
  function Index(payments: seq<Pay>, anchor: Day, s: Board): set<Entity> {
    var all := Entities(payments, anchor, s);
    set e | e in all && Kept(all, e)
  }

  /** Reading the index by one of its metrics, limited, is reading everything so. */
  lemma IndexIsFaithful(payments: seq<Pay>, anchor: Day, s: Board, sort: Sort)
    ensures Sortable(Order(sort), Entities(payments, anchor, s))
    ensures Sortable(Order(sort), Index(payments, anchor, s))
    ensures Top(Order(sort), Index(payments, anchor, s), LIMIT)
         == Top(Order(sort), Entities(payments, anchor, s), LIMIT)
  {
    var all, less := Entities(payments, anchor, s), Order(sort);
    OrderSorts(payments, anchor, s, sort);
    forall e | e in Top(less, all, LIMIT) ensures e in Index(payments, anchor, s) {
      TopMembers(less, all, LIMIT);
      RowNumberOfTop(less, all, e, LIMIT);
    }
    TopOfPart(less, all, Index(payments, anchor, s), LIMIT);
  }

  // ----- the page

  /** The sorts a request may name; any other is refused. */
  function SortNamed(name: string): (sort: Option<Sort>)
    ensures sort.None? <==> name !in {"volume", "txns", "counterparties"}
  {
    if name == "volume" then Some(ByVolume)
    else if name == "txns" then Some(ByTxns)
    else if name == "counterparties" then Some(ByCounterparties)
    else None
  }

  datatype LeaderboardRow = LeaderboardRow(rank: nat, name: string, entity: Entity)

  /** The left join with the identities: an address without one has the empty label. */
  function NameOf(identities: map<string, string>, address: string): string {
    if address in identities then identities[address] else ""
  }

  /** What the database answers: the first rows of the index. */
  ghost function FirstStored(payments: seq<Pay>, anchor: Day, s: Board, sort: Sort): seq<Entity> {
    IndexIsFaithful(payments, anchor, s, sort);
    Top(Order(sort), Index(payments, anchor, s), LIMIT)
  }

  /** The first entities of all, each with its true rank and its own name. */
  ghost predicate TrueRanks(rows: seq<LeaderboardRow>, less: (Entity, Entity) -> bool, all: set<Entity>,
                            identities: map<string, string>)
  {
    && Sortable(less, all)
    && |rows| == |Top(less, all, LIMIT)|
    && forall i :: 0 <= i < |rows| ==>
         && rows[i].entity == Top(less, all, LIMIT)[i]
         && rows[i].rank == i + 1 == RowNumber(less, all, rows[i].entity)
         && rows[i].name == NameOf(identities, rows[i].entity.address)
  }

  ghost predicate Numbered(rows: seq<LeaderboardRow>, answer: seq<Entity>, identities: map<string, string>) {
    && |rows| == |answer|
    && forall i :: 0 <= i < |rows| ==>
         rows[i] == LeaderboardRow(i + 1, NameOf(identities, answer[i].address), answer[i])
  }

  lemma NumberedIsTrue(rows: seq<LeaderboardRow>, less: (Entity, Entity) -> bool, all: set<Entity>,
                       identities: map<string, string>)
    requires Sortable(less, all) && Numbered(rows, Top(less, all, LIMIT), identities)
    ensures TrueRanks(rows, less, all, identities)
  {
    forall i | 0 <= i < |rows| ensures RowNumber(less, all, rows[i].entity) == i + 1 {
      PlaceIsRowNumber(less, all, LIMIT, i);
    }
  }

  method Number(answer: seq<Entity>, identities: map<string, string>) returns (rows: seq<LeaderboardRow>)
    ensures Numbered(rows, answer, identities)
  {
    rows := [];
    for i := 0 to |answer|
      invariant Numbered(rows, answer[..i], identities)
    {
      rows := rows + [LeaderboardRow(|rows| + 1, NameOf(identities, answer[i].address), answer[i])];
    }
    assert answer[..|answer|] == answer;
  }

  /** Down the page the metric never rises, and equal ones stand by address. */
  ghost predicate ByMetric(rows: seq<LeaderboardRow>, sort: Sort) {
    forall i, j :: 0 <= i < j < |rows| ==>
      var a, b := Metric(sort, rows[i].entity), Metric(sort, rows[j].entity);
      a > b || (a == b && StringLess(rows[i].entity.address, rows[j].entity.address))
  }

  lemma RanksFollowMetric(rows: seq<LeaderboardRow>, sort: Sort, all: set<Entity>, identities: map<string, string>)
    requires TrueRanks(rows, Order(sort), all, identities)
    ensures ByMetric(rows, sort)
  {
    TopIsPrefix(Order(sort), all, LIMIT);
    OrderedLists(Order(sort), all);
    forall i, j | 0 <= i < j < |rows| ensures Ahead(sort, rows[i].entity, rows[j].entity) {
      assert Order(sort)(Ordered(Order(sort), all)[i], Ordered(Order(sort), all)[j]);
    }
  }

  /** What a request for this sort is answered with. */
  ghost predicate Listed(rows: seq<LeaderboardRow>, payments: seq<Pay>, anchor: Day, s: Board, sort: Sort,
                         identities: map<string, string>)
  {
    TrueRanks(rows, Order(sort), Entities(payments, anchor, s), identities) && ByMetric(rows, sort)
  }

  /** None is the refusal of an unknown sort or of a chain other than Base; ask stands for the database. */
  method Leaderboard(ghost payments: seq<Pay>, ghost anchor: Day, chain: string, s: Board, sortKey: string,
                     ask: Sort -> seq<Entity>, identities: map<string, string>)
    returns (r: Option<seq<LeaderboardRow>>)
    requires forall sort :: ask(sort) == FirstStored(payments, anchor, s, sort)
    ensures r.None? <==> SortNamed(sortKey).None? || chain != "base"
    ensures r.Some? ==> Listed(r.value, payments, anchor, s, SortNamed(sortKey).value, identities)
  {
    var sort := SortNamed(sortKey);
    if sort.None? {
      return None;
    }
    if chain != "base" {
      return None;
    }
    var rows := Number(ask(sort.value), identities);
    IndexIsFaithful(payments, anchor, s, sort.value);
    NumberedIsTrue(rows, Order(sort.value), Entities(payments, anchor, s), identities);
    RanksFollowMetric(rows, sort.value, Entities(payments, anchor, s), identities);
    return Some(rows);
  }
}
