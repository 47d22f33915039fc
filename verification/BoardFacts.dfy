/** The leaderboard told by the payments' own fields. */
module BoardFacts {
  import opened Cube
  import opened Days
  import opened Grouping
  import opened Leaderboards
  import opened Positions
  import opened Ranking
  import opened Roles
  import opened Text

  /** The payment is one of the address's, in the role, lens and window of the board. */
  predicate Belongs(p: Pay, anchor: Day, s: Board, address: string) {
    && (s.role == PayerRole ==> p.payer == address) && (s.role == PayeeRole ==> p.payee == address)
    && (s.lens == KnownLens ==> p.facilitatorKnown)
    && (s.window == Window7d ==> DayNumber(anchor) - DayNumber(p.day) < 7)
    && (s.window == Window30d ==> DayNumber(anchor) - DayNumber(p.day) < 30)
  }

  function PaymentsOf(payments: seq<Pay>, anchor: Day, s: Board, address: string): seq<Pay> {
    Filter(payments, BelongsTo(anchor, s, address))
  }

  function BelongsTo(anchor: Day, s: Board, address: string): Pay -> bool {
    (p: Pay) => Belongs(p, anchor, s, address)
  }

  lemma WindowReaches(anchor: Day, w: Window, d: Day)
    ensures InWindow(anchor, w, d) <==>
              && (w == Window7d ==> DayNumber(anchor) - DayNumber(d) < 7)
              && (w == Window30d ==> DayNumber(anchor) - DayNumber(d) < 30)
  {
    if w != WindowAll {
      var first := Back(anchor, WindowDays(w) - 1);
      BackIsSoManyLess(anchor, WindowDays(w) - 1);
      EarlierIsByNumber(d, first);
    }
  }

  lemma OwnArePaymentsOf(payments: seq<Pay>, anchor: Day, s: Board, address: string)
    ensures Own(payments, anchor, s, address) == PaymentsOf(payments, anchor, s, address)
  {
    forall p | p in payments
      ensures BelongsTo(anchor, s, address)(p) == (InSlice(anchor, s)(p) && KeyIs(AddressIn(s.role), address)(p))
    {
      WindowReaches(anchor, s.window, p.day);
    }
    FilterBoth(payments, InSlice(anchor, s), KeyIs(AddressIn(s.role), address), BelongsTo(anchor, s, address));
  }

  function AmountOf(): Pay -> real {
    (p: Pay) => p.amount
  }

  /** Whoever is on the other side of these payments. */
  ghost function OtherSide(q: seq<Pay>, role: Role): set<string> {
    if role == PayerRole then set p | p in q :: p.payee else set p | p in q :: p.payer
  }

  /** The entity's figures are those of its payments. */
  ghost predicate Describes(e: Entity, q: seq<Pay>, role: Role) {
    && q != [] && e.sums == CountAndVolume(q, AmountOf()) && e.counterparties == |OtherSide(q, role)|
    && (exists p :: p in q && p.time == e.firstSeen) && (exists p :: p in q && p.time == e.lastSeen)
    && forall p :: p in q ==> e.firstSeen <= p.time <= e.lastSeen
  }

  lemma EntityDescribes(payments: seq<Pay>, anchor: Day, s: Board, address: string)
    requires address in Addresses(payments, anchor, s)
    ensures Describes(EntityAt(payments, anchor, s, address), PaymentsOf(payments, anchor, s, address), s.role)
  {
    var e, q := EntityAt(payments, anchor, s, address), Own(payments, anchor, s, address);
    AddressOwnsSome(payments, anchor, s, address);
    OwnArePaymentsOf(payments, anchor, s, address);
    AccumsAreCounts(q, PayAccum, AmountOf());
    SeenIsOfSome(q);
    CountOthers(q, s.role);
  }

  lemma CountOthers(q: seq<Pay>, role: ListedRole)
    ensures (set p | p in q :: CounterpartyIn(role)(p)) == OtherSide(q, role)
  {
  }

  lemma SeenIsOfSome(q: seq<Pay>)
    requires q != []
    ensures (exists p :: p in q && p.time == Earliest(q)) && (exists p :: p in q && p.time == Latest(q))
    ensures forall p :: p in q ==> Earliest(q) <= p.time <= Latest(q)
  {
    SeenSpansAll(q);
    var i :| 0 <= i < |q| && q[i].time == Earliest(q);
    var j :| 0 <= j < |q| && q[j].time == Latest(q);
    assert q[i] in q && q[j] in q;
  }

  lemma ListedHasPayments(payments: seq<Pay>, anchor: Day, s: Board, address: string)
    ensures address in Addresses(payments, anchor, s) <==> PaymentsOf(payments, anchor, s, address) != []
  {
    OwnArePaymentsOf(payments, anchor, s, address);
    if address in Addresses(payments, anchor, s) {
      AddressOwnsSome(payments, anchor, s, address);
    }
    if Own(payments, anchor, s, address) != [] {
      var p := Own(payments, anchor, s, address)[0];
      assert p in Own(payments, anchor, s, address);
      assert p in Members(payments, anchor, s) && AddressIn(s.role)(p) == address;
    }
  }

  // ----- the page

  /** The first has more of what is asked for, or as much and the lesser address. */
  predicate StandsBefore(sortKey: string, a: Entity, b: Entity) {
    || (sortKey == "volume" && a.sums.volume > b.sums.volume)
    || (sortKey == "txns" && a.sums.txns > b.sums.txns)
    || (sortKey == "counterparties" && a.counterparties > b.counterparties)
    || (StringLess(a.address, b.address)
        && (sortKey == "volume" ==> a.sums.volume == b.sums.volume)
        && (sortKey == "txns" ==> a.sums.txns == b.sums.txns)
        && (sortKey == "counterparties" ==> a.counterparties == b.counterparties))
  }

  lemma AheadMeans(sortKey: string, a: Entity, b: Entity)
    requires SortNamed(sortKey).Some?
    ensures Ahead(SortNamed(sortKey).value, a, b) <==> StandsBefore(sortKey, a, b)
  {
  }

  /** Every row describes its address, with its place and its label, and they stand in order. */
  ghost predicate BoardShows(rows: seq<LeaderboardRow>, payments: seq<Pay>, anchor: Day, s: Board, sortKey: string,
                             identities: map<string, string>)
  {
    && (forall i :: 0 <= i < |rows| ==>
          && rows[i].rank == i + 1
          && rows[i].name == (if rows[i].entity.address in identities then identities[rows[i].entity.address] else "")
          && Describes(rows[i].entity, PaymentsOf(payments, anchor, s, rows[i].entity.address), s.role))
    && (forall i, j :: 0 <= i < j < |rows| ==> StandsBefore(sortKey, rows[i].entity, rows[j].entity))
    && |rows| <= 500
  }

  /** Whoever is not on the board has 500 before it, or no payments there. */
  ghost predicate NoneForgotten(rows: seq<LeaderboardRow>, payments: seq<Pay>, anchor: Day, s: Board, sortKey: string,
                                address: string)
  {
    || PaymentsOf(payments, anchor, s, address) == []
    || (exists i :: 0 <= i < |rows| && rows[i].entity.address == address)
    || (|rows| == 500 && exists e: Entity ::
          && e.address == address && Describes(e, PaymentsOf(payments, anchor, s, address), s.role)
          && forall i :: 0 <= i < |rows| ==> StandsBefore(sortKey, rows[i].entity, e))
  }

  lemma RowIsShown(rows: seq<LeaderboardRow>, payments: seq<Pay>, anchor: Day, s: Board, sort: Sort,
                   identities: map<string, string>, i: nat)
    requires Listed(rows, payments, anchor, s, sort, identities) && i < |rows|
    ensures Describes(rows[i].entity, PaymentsOf(payments, anchor, s, rows[i].entity.address), s.role)
  {
    var all := Entities(payments, anchor, s);
    TopMembers(Order(sort), all, Leaderboards.LIMIT);
    assert rows[i].entity in Top(Order(sort), all, Leaderboards.LIMIT);
    var a :| a in Addresses(payments, anchor, s) && rows[i].entity == EntityAt(payments, anchor, s, a);
    EntityDescribes(payments, anchor, s, a);
  }

  /** What a request for a sort by its name is answered with. */
  lemma ListedIsShown(rows: seq<LeaderboardRow>, payments: seq<Pay>, anchor: Day, s: Board, sortKey: string,
                      identities: map<string, string>)
    requires SortNamed(sortKey).Some?
    requires Listed(rows, payments, anchor, s, SortNamed(sortKey).value, identities)
    ensures BoardShows(rows, payments, anchor, s, sortKey, identities)
  {
    var sort, all := SortNamed(sortKey).value, Entities(payments, anchor, s);
    forall i | 0 <= i < |rows|
      ensures Describes(rows[i].entity, PaymentsOf(payments, anchor, s, rows[i].entity.address), s.role)
    {
      RowIsShown(rows, payments, anchor, s, sort, identities, i);
    }
    forall i, j | 0 <= i < j < |rows| ensures StandsBefore(sortKey, rows[i].entity, rows[j].entity) {
      assert Metric(sort, rows[i].entity) >= Metric(sort, rows[j].entity);
      AheadMeans(sortKey, rows[i].entity, rows[j].entity);
    }
    TopIsPrefix(Order(sort), all, Leaderboards.LIMIT);
  }

  lemma AbsentIsBehind(rows: seq<LeaderboardRow>, all: set<Entity>, less: (Entity, Entity) -> bool,
                       identities: map<string, string>, e: Entity)
    requires TrueRanks(rows, less, all, identities) && e in all
    requires forall i :: 0 <= i < |rows| ==> rows[i].entity != e
    ensures |rows| == 500 && forall i :: 0 <= i < |rows| ==> less(rows[i].entity, e)
  {
    var list := Ordered(less, all);
    OrderedLists(less, all);
    TopIsPrefix(less, all, Leaderboards.LIMIT);
    var k :| 0 <= k < |list| && list[k] == e;
    ComesLater(rows, list, k);
    forall i | 0 <= i < |rows| ensures less(rows[i].entity, e) {
      assert rows[i].entity == list[i];
    }
  }

  lemma ComesLater(rows: seq<LeaderboardRow>, list: seq<Entity>, k: nat)
    requires |rows| <= |list| && k < |list|
    requires forall i :: 0 <= i < |rows| ==> rows[i].entity == list[i]
    ensures k < |rows| ==> rows[k].entity == list[k]
  {
  }

  lemma NoneIsForgotten(rows: seq<LeaderboardRow>, payments: seq<Pay>, anchor: Day, s: Board, sortKey: string,
                        identities: map<string, string>, address: string)
    requires SortNamed(sortKey).Some?
    requires Listed(rows, payments, anchor, s, SortNamed(sortKey).value, identities)
    ensures NoneForgotten(rows, payments, anchor, s, sortKey, address)
  {
    var sort, all := SortNamed(sortKey).value, Entities(payments, anchor, s);
    ListedHasPayments(payments, anchor, s, address);
    if address in Addresses(payments, anchor, s) {
      var e := EntityAt(payments, anchor, s, address);
      EntityDescribes(payments, anchor, s, address);
      if forall i :: 0 <= i < |rows| ==> rows[i].entity.address != address {
        AbsentIsBehind(rows, all, Order(sort), identities, e);
        forall i | 0 <= i < |rows| ensures StandsBefore(sortKey, rows[i].entity, e) {
          AheadMeans(sortKey, rows[i].entity, e);
        }
      }
    }
  }
}
