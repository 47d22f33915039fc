/** The rollup's tables told by the payments' own fields, row by row. */
module RollupFacts {
  import opened BoardFacts
  import opened Cube
  import opened Grouping
  import opened Leaderboards
  import opened Positions
  import opened PricePoints
  import opened Roles
  import opened Rollups

  function Shown(q: seq<Pay>): Accum {
    CountAndVolume(q, AmountOf())
  }

  predicate Plays(p: Pay, role: Role, address: string) {
    && (role == PayerRole ==> p.payer == address)
    && (role == PayeeRole ==> p.payee == address)
    && (role == FacilitatorRole ==> p.facilitator == address)
  }

  // ----- rows

  function OnEdge(payer: string, payee: string, known: bool): Pay -> bool {
    (p: Pay) => p.payer == payer && p.payee == payee && p.facilitatorKnown == known
  }

  function OnDayAs(role: Role, address: string, day: Day, known: bool): Pay -> bool {
    (p: Pay) => Plays(p, role, address) && p.day == day && p.facilitatorKnown == known
  }

  function SettledWith(facilitator: string, role: Role, counterparty: string, known: bool): Pay -> bool {
    (p: Pay) => p.facilitator == facilitator && Plays(p, role, counterparty) && p.facilitatorKnown == known
  }

  function EntityAs(role: Role, address: string, known: bool): Pay -> bool {
    (p: Pay) => Plays(p, role, address) && p.facilitatorKnown == known
  }

  /** An edge row is about the payments from its payer to its payee. */
  lemma EdgeRowMeans(edges: Edges, payments: seq<Pay>, i: nat)
    requires IsEdges(edges, payments) && i < |edges|
    ensures var k := edges[i].key;
            var q := Filter(payments, OnEdge(k.payer, k.payee, k.known));
            q != [] && edges[i].total == Shown(q)
  {
    var k := edges[i].key;
    assert OneGroup(AccumSum(), edges[i], payments, EdgeKeyOf, PayAccum);
    FilterSame(payments, KeyIs(EdgeKeyOf, k), OnEdge(k.payer, k.payee, k.known));
    AccumsAreCounts(Filter(payments, OnEdge(k.payer, k.payee, k.known)), PayAccum, AmountOf());
  }

  /** A day row is about the payments in which its address plays its role that day. */
  lemma DayRowMeans(days: DayRows, payments: seq<Pay>, i: nat)
    requires IsDays(days, payments) && i < |days|
    ensures var k := days[i].key;
            days[i].total == Shown(Filter(payments, OnDayAs(k.role, k.address, k.day, k.known)))
  {
    var k := days[i].key;
    var raw, parts := OnDayAs(k.role, k.address, k.day, k.known), Unpivot(payments, AllRoles());
    assert OneGroup(AccumSum(), days[i], parts, DayKeyOf, PartAccum);
    forall t | t in parts ensures KeyIs(DayKeyOf, k)(t) == InRole(k.role, raw)(t) {
      PartyMeans(t, k.address);
    }
    FilterSame(parts, KeyIs(DayKeyOf, k), InRole(k.role, raw));
    EveryRoleOnce(k.role);
    RoleSumsPayments(payments, AllRoles(), k.role, raw);
    AccumsAreCounts(Filter(payments, raw), PayAccum, AmountOf());
  }

  lemma PartyMeans(t: Part, address: string)
    ensures PartyOf(t) == address <==> Plays(t.pay, t.role, address)
  {
  }

  /** A facilitator's row is about the payments it settled with that counterparty in that role. */
  lemma SideRowMeans(sides: Sides, payments: seq<Pay>, i: nat)
    requires IsSides(sides, payments) && i < |sides| && sides[i].key.role != FacilitatorRole
    ensures var k := sides[i].key;
            sides[i].total == Shown(Filter(payments, SettledWith(k.facilitator, k.role, k.counterparty, k.known)))
  {
    var k := sides[i].key;
    var raw, parts := SettledWith(k.facilitator, k.role, k.counterparty, k.known), Unpivot(payments, TwoSides());
    assert OneGroup(AccumSum(), sides[i], parts, SideKeyOf, PartAccum);
    forall t | t in parts ensures KeyIs(SideKeyOf, k)(t) == InRole(k.role, raw)(t) {
      PartyMeans(t, k.counterparty);
    }
    FilterSame(parts, KeyIs(SideKeyOf, k), InRole(k.role, raw));
    EveryRoleOnce(k.role);
    RoleSumsPayments(payments, TwoSides(), k.role, raw);
    AccumsAreCounts(Filter(payments, raw), PayAccum, AmountOf());
  }

  // ----- price points

  function Amounts(q: seq<Pay>): (r: seq<Amount>)
    ensures |r| == |q| && forall i :: 0 <= i < |r| ==> r[i] == q[i].amount
  {
    if q == [] then [] else [q[0].amount] + Amounts(q[1..])
  }

  lemma {:induction false} RoleAmounts(payments: seq<Pay>, roles: seq<Role>, role: Role, p: Pay -> bool)
    requires Once(roles, role)
    ensures AmountsIn(Filter(Unpivot(payments, roles), InRole(role, p))) == Amounts(Filter(payments, p))
  {
    if payments != [] {
      var pay, rest := payments[0], Unpivot(payments[1..], roles);
      RoleAmounts(payments[1..], roles, role, p);
      OnePart(pay, roles, role, p);
      FilterAppend(PartsOf(pay, roles), rest, InRole(role, p));
      if p(pay) {
        assert Filter(payments, p) == [pay] + Filter(payments[1..], p);
      } else {
        assert [] + Filter(rest, InRole(role, p)) == Filter(rest, InRole(role, p));
      }
    }
  }

  /** The stored price points of an entity are those of the amounts it paid, was paid or settled in that lens. */
  lemma PointsMean(payments: seq<Pay>, k: PartyKey)
    requires k in PointsOf(payments)
    ensures PointsOf(payments)[k] == StoredPoints(Amounts(Filter(payments, EntityAs(k.role, k.address, k.known))))
  {
    EntityParts(Unpivot(payments, AllRoles()), k);
    EveryRoleOnce(k.role);
    RoleAmounts(payments, AllRoles(), k.role, EntityAs(k.role, k.address, k.known));
  }

  lemma EntityParts(parts: seq<Part>, k: PartyKey)
    ensures Filter(parts, KeyIs(PartyKeyOf, k)) == Filter(parts, InRole(k.role, EntityAs(k.role, k.address, k.known)))
  {
    var raw := EntityAs(k.role, k.address, k.known);
    forall t | t in parts ensures KeyIs(PartyKeyOf, k)(t) == InRole(k.role, raw)(t) {
      PartyMeans(t, k.address);
      assert KeyIs(PartyKeyOf, k)(t) == (PartyKeyOf(t) == k);
      assert raw(t.pay) == (Plays(t.pay, k.role, k.address) && t.pay.facilitatorKnown == k.known);
    }
    FilterSame(parts, KeyIs(PartyKeyOf, k), InRole(k.role, raw));
  }
}
