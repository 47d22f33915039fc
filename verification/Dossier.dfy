/**
 The dossier of one transaction: a node for it, one for each payment event, one for
 each address with the roles it plays, and three edges for each event.
 */
module Dossier {
  import opened Digits
  import opened Positions
  import opened Roles
  import opened Text
  import opened Wrappers

  datatype Kind = TransactionNode | EventNode | AddressNode

  datatype Row = Row(
    logIndex: nat,
    payer: string,
    payee: string,
    facilitator: string,
    amount: string,
    selfSettled: bool,
    facilitatorKnown: bool,
    facilitatorLabel: Option<string>)

  /** Fields a node may lack are None. */
  datatype Node = Node(
    id: string,
    kind: Kind,
    name: string,
    roles: seq<Role>,
    selfSettled: Option<bool>,
    facilitatorKnown: Option<bool>,
    entityLabel: Option<string>)

  datatype Edge = Edge(id: string, source: string, target: string, amount: string)

  datatype Graph = Graph(nodes: seq<Node>, edges: seq<Edge>, addrIdx: map<string, nat>, edgeSeen: set<string>)

  // ----- identifiers

  function TxId(tx: string): string {
    "tx:" + tx
  }

  function EventId(tx: string, logIndex: nat): string {
    "evt:" + tx + ":" + Print(logIndex)
  }

  function AddressId(a: string): string {
    "addr:" + a
  }

  lemma IdsTellKindsApart(tx: string, logIndex: nat, a: string)
    ensures TxId(tx) != EventId(tx, logIndex) && TxId(tx) != AddressId(a) && EventId(tx, logIndex) != AddressId(a)
  {
    assert TxId(tx)[0] == 't' && EventId(tx, logIndex)[0] == 'e' && AddressId(a)[0] == 'a';
  }

  lemma AddressIdsDiffer(a: string, b: string)
    requires AddressId(a) == AddressId(b)
    ensures a == b
  {
    assert AddressId(a)[5..] == a && AddressId(b)[5..] == b;
  }

  /** Whatever stands before, the numeral after the last colon can be read back. */
  lemma NumeralTells(x: string, y: string, i: nat, j: nat)
    requires x + ":" + Print(i) == y + ":" + Print(j)
    ensures i == j
  {
    var s, t := x + ":" + Print(i), y + ":" + Print(j);
    ColonPlace(x, Print(i));
    ColonPlace(y, Print(j));
    if |Print(i)| < |Print(j)| {
      ColonInNumeral(y, Print(j), |s| - |Print(i)| - 1);
    } else if |Print(j)| < |Print(i)| {
      ColonInNumeral(x, Print(i), |t| - |Print(j)| - 1);
    } else {
      assert s[|s|-|Print(i)|..] == Print(i) && t[|t|-|Print(j)|..] == Print(j);
      ValueOfPrint(i);
      ValueOfPrint(j);
    }
  }

  lemma ColonPlace(x: string, digits: string)
    ensures var s := x + ":" + digits;
            s[|s|-|digits|-1] == ':'
  {
  }

  lemma ColonInNumeral(x: string, digits: string, k: int)
    requires AllDigits(digits) && |x| < k < |x| + 1 + |digits|
    ensures (x + ":" + digits)[k] != ':'
  {
    assert (x + ":" + digits)[k] == digits[k-|x|-1];
    assert IsDigit(digits[k-|x|-1]);
  }

  lemma EventIdsDiffer(tx: string, i: nat, j: nat)
    requires EventId(tx, i) == EventId(tx, j)
    ensures i == j
  {
    NumeralTells("evt:" + tx, "evt:" + tx, i, j);
  }

  function EmitsEdge(tx: string, r: Row): Edge {
    Edge("e:emits:" + EventId(tx, r.logIndex), TxId(tx), EventId(tx, r.logIndex), "")
  }

  function PaysEdge(r: Row): Edge {
    Edge("e:pays:" + r.payer + ":" + r.payee + ":" + Print(r.logIndex), AddressId(r.payer), AddressId(r.payee),
         r.amount)
  }

  function SettlesEdge(tx: string, r: Row): Edge {
    Edge("e:settles:" + EventId(tx, r.logIndex), AddressId(r.facilitator), EventId(tx, r.logIndex), "")
  }

  function ThreeEdges(tx: string, r: Row): seq<Edge> {
    [EmitsEdge(tx, r), PaysEdge(r), SettlesEdge(tx, r)]
  }

  lemma ThreeIdsDiffer(tx: string, r: Row, s: Row)
    ensures EmitsEdge(tx, r).id != PaysEdge(s).id
    ensures EmitsEdge(tx, r).id != SettlesEdge(tx, s).id
    ensures PaysEdge(r).id != SettlesEdge(tx, s).id
  {
    assert EmitsEdge(tx, r).id[2] == 'e' && SettlesEdge(tx, s).id[2] == 's';
    assert PaysEdge(r).id[2] == 'p' && PaysEdge(s).id[2] == 'p';
  }

  lemma EdgeIdsTellRowsApart(tx: string, r: Row, s: Row)
    requires EmitsEdge(tx, r).id == EmitsEdge(tx, s).id || PaysEdge(r).id == PaysEdge(s).id
             || SettlesEdge(tx, r).id == SettlesEdge(tx, s).id
    ensures r.logIndex == s.logIndex
  {
    EventInId("e:emits:", tx, r.logIndex, s.logIndex);
    EventInId("e:settles:", tx, r.logIndex, s.logIndex);
    if PaysEdge(r).id == PaysEdge(s).id {
      NumeralTells("e:pays:" + r.payer + ":" + r.payee, "e:pays:" + s.payer + ":" + s.payee, r.logIndex, s.logIndex);
    }
  }

  lemma EventInId(prefix: string, tx: string, i: nat, j: nat)
    ensures prefix + EventId(tx, i) == prefix + EventId(tx, j) ==> i == j
  {
    assert (prefix + EventId(tx, i))[|prefix|..] == EventId(tx, i);
    assert (prefix + EventId(tx, j))[|prefix|..] == EventId(tx, j);
    if EventId(tx, i) == EventId(tx, j) {
      EventIdsDiffer(tx, i, j);
    }
  }

  // ----- what the rows say

  ghost predicate DistinctLogs(rows: seq<Row>) {
    forall i, j :: 0 <= i < j < |rows| ==> rows[i].logIndex != rows[j].logIndex
  }

  predicate PlaysIn(r: Row, a: string, role: Role) {
    match role
    case PayerRole => r.payer == a
    case PayeeRole => r.payee == a
    case FacilitatorRole => r.facilitator == a
  }

  function AddRole(roles: seq<Role>, role: Role): seq<Role> {
    if role in roles then roles else roles + [role]
  }

  function RolesAfter(roles: seq<Role>, r: Row, a: string): seq<Role> {
    var p := if r.payer == a then AddRole(roles, PayerRole) else roles;
    var q := if r.payee == a then AddRole(p, PayeeRole) else p;
    if r.facilitator == a then AddRole(q, FacilitatorRole) else q
  }

  /** The roles an address plays, as they first come up. */
  function RolesPlayed(rows: seq<Row>, a: string): seq<Role> {
    if rows == [] then [] else RolesAfter(RolesPlayed(rows[..|rows|-1], a), rows[|rows|-1], a)
  }

  /** What an address node says beside its roles; None where it lacks the field. */
  datatype Facts = Facts(selfSettled: Option<bool>, known: Option<bool>, entity: Option<string>)

  function FactsAfter(f: Facts, r: Row, a: string): Facts {
    if r.facilitator != a then f
    else Facts(
      if r.selfSettled then Some(true) else if f.selfSettled.None? then Some(false) else f.selfSettled,
      Some(r.facilitatorKnown),
      if r.facilitatorLabel.Some? then r.facilitatorLabel else f.entity)
  }

  function FactsOf(rows: seq<Row>, a: string): Facts {
    if rows == [] then Facts(None, None, None) else FactsAfter(FactsOf(rows[..|rows|-1], a), rows[|rows|-1], a)
  }

  ghost predicate NoRepeats(roles: seq<Role>) {
    forall i, j :: 0 <= i < j < |roles| ==> roles[i] != roles[j]
  }

  ghost predicate Plays(rows: seq<Row>, a: string, role: Role) {
    exists i :: 0 <= i < |rows| && PlaysIn(rows[i], a, role)
  }

  /** Exactly the roles it plays, each once. */
  lemma {:induction false} RolesArePlayed(rows: seq<Row>, a: string)
    ensures NoRepeats(RolesPlayed(rows, a))
    ensures forall role :: role in RolesPlayed(rows, a) <==> Plays(rows, a, role)
  {
    if rows != [] {
      var init, last := rows[..|rows|-1], rows[|rows|-1];
      RolesArePlayed(init, a);
      RolesAfterRow(RolesPlayed(init, a), last, a);
      forall role ensures role in RolesPlayed(rows, a) <==> Plays(rows, a, role) {
        PlayedSoFar(rows, a, role);
      }
    }
  }

  lemma RolesAfterRow(roles: seq<Role>, r: Row, a: string)
    requires NoRepeats(roles)
    ensures NoRepeats(RolesAfter(roles, r, a))
    ensures forall role :: role in RolesAfter(roles, r, a) <==> role in roles || PlaysIn(r, a, role)
  {
  }

  lemma PlayedSoFar(rows: seq<Row>, a: string, role: Role)
    requires rows != []
    ensures Plays(rows, a, role) <==> Plays(rows[..|rows|-1], a, role) || PlaysIn(rows[|rows|-1], a, role)
  {
    var init := rows[..|rows|-1];
    if i :| 0 <= i < |init| && PlaysIn(init[i], a, role) {
      assert PlaysIn(rows[i], a, role);
    }
    if i :| 0 <= i < |rows| && PlaysIn(rows[i], a, role) {
      assert i < |init| ==> PlaysIn(init[i], a, role);
    }
  }

  function Rank(role: Role): nat {
    match role
    case PayerRole => 0
    case PayeeRole => 1
    case FacilitatorRole => 2
  }

  /** In the m-th row it plays the first role, and no sooner the second. */
  ghost predicate PlaysFirst(rows: seq<Row>, a: string, first: Role, second: Role, m: int) {
    && 0 <= m < |rows| && PlaysIn(rows[m], a, first)
    && (forall n :: 0 <= n < m ==> !PlaysIn(rows[n], a, second))
    && (PlaysIn(rows[m], a, second) ==> Rank(first) < Rank(second))
  }

  ghost predicate Sooner(rows: seq<Row>, a: string, first: Role, second: Role) {
    exists m :: PlaysFirst(rows, a, first, second, m)
  }

  ghost predicate SoonerFirst(rows: seq<Row>, a: string, roles: seq<Role>) {
    forall i, j :: 0 <= i < j < |roles| ==> Sooner(rows, a, roles[i], roles[j])
  }

  lemma SoonerStays(rows: seq<Row>, r: Row, a: string, roles: seq<Role>)
    requires SoonerFirst(rows, a, roles)
    ensures SoonerFirst(rows + [r], a, roles)
  {
    forall i, j | 0 <= i < j < |roles| ensures Sooner(rows + [r], a, roles[i], roles[j]) {
      var m :| PlaysFirst(rows, a, roles[i], roles[j], m);
      assert PlaysFirst(rows + [r], a, roles[i], roles[j], m);
    }
  }

  /** A role taken up in the last row comes after those taken up in rows before, or before it in this one. */
  lemma AddRoleInOrder(rows: seq<Row>, r: Row, a: string, roles: seq<Role>, role: Role)
    requires SoonerFirst(rows + [r], a, roles) && PlaysIn(r, a, role)
    requires forall x :: Plays(rows, a, x) ==> x in roles
    requires forall x :: x in roles ==> Plays(rows, a, x) || (PlaysIn(r, a, x) && Rank(x) < Rank(role)) || x == role
    ensures SoonerFirst(rows + [r], a, AddRole(roles, role))
  {
    if role !in roles {
      forall i | 0 <= i < |roles| ensures Sooner(rows + [r], a, roles[i], role) {
        assert roles[i] in roles;
        if m :| 0 <= m < |rows| && PlaysIn(rows[m], a, roles[i]) {
          NeverPlayed(rows, a, role);
          assert PlaysFirst(rows + [r], a, roles[i], role, m);
        } else {
          NeverPlayed(rows, a, role);
          assert PlaysFirst(rows + [r], a, roles[i], role, |rows|);
        }
      }
    }
  }

  lemma NeverPlayed(rows: seq<Row>, a: string, role: Role)
    requires !Plays(rows, a, role)
    ensures forall n :: 0 <= n < |rows| ==> !PlaysIn(rows[n], a, role)
  {
  }

  lemma RowInOrder(rows: seq<Row>, r: Row, a: string, roles: seq<Role>)
    requires SoonerFirst(rows + [r], a, roles) && forall x :: x in roles <==> Plays(rows, a, x)
    ensures SoonerFirst(rows + [r], a, RolesAfter(roles, r, a))
  {
    var p := if r.payer == a then AddRole(roles, PayerRole) else roles;
    var q := if r.payee == a then AddRole(p, PayeeRole) else p;
    if r.payer == a {
      AddRoleInOrder(rows, r, a, roles, PayerRole);
    }
    if r.payee == a {
      AddRoleInOrder(rows, r, a, p, PayeeRole);
    }
    if r.facilitator == a {
      AddRoleInOrder(rows, r, a, q, FacilitatorRole);
    }
  }

  /** The roles stand in the order it first played them, within a row payer, payee, facilitator. */
  lemma {:induction false} RolesInOrder(rows: seq<Row>, a: string)
    ensures SoonerFirst(rows, a, RolesPlayed(rows, a))
  {
    if rows != [] {
      var init, last := rows[..|rows|-1], rows[|rows|-1];
      RolesInOrder(init, a);
      RolesArePlayed(init, a);
      SoonerStays(init, last, a, RolesPlayed(init, a));
      RowInOrder(init, last, a, RolesPlayed(init, a));
      assert init + [last] == rows;
    }
  }

  /** True just when some row it settles is self-settled, absent when it settles none. */
  lemma {:induction false} FlagIsSettled(rows: seq<Row>, a: string)
    ensures FactsOf(rows, a).selfSettled == Some(true) <==>
              exists i :: 0 <= i < |rows| && rows[i].facilitator == a && rows[i].selfSettled
    ensures FactsOf(rows, a).selfSettled == None <==> forall i :: 0 <= i < |rows| ==> rows[i].facilitator != a
  {
    if rows != [] {
      var init, last := rows[..|rows|-1], rows[|rows|-1];
      FlagIsSettled(init, a);
      assert forall i :: 0 <= i < |init| ==> rows[i] == init[i];
      if i :| 0 <= i < |rows| && rows[i].facilitator == a && rows[i].selfSettled {
        assert i < |init| ==> init[i].facilitator == a && init[i].selfSettled;
      }
      if FactsOf(init, a).selfSettled == None && last.facilitator != a {
        assert forall i :: 0 <= i < |rows| ==> rows[i].facilitator != a;
      }
      if FactsOf(init, a).selfSettled != None {
        var i :| 0 <= i < |init| && init[i].facilitator == a;
        assert rows[i].facilitator == a;
      }
    }
  }

  /** The last row the address settles. */
  ghost predicate LastSettled(rows: seq<Row>, a: string, i: int) {
    && 0 <= i < |rows| && rows[i].facilitator == a
    && forall j :: i < j < |rows| ==> rows[j].facilitator != a
  }

  /** The last row the address settles that carries a label. */
  ghost predicate LastLabelled(rows: seq<Row>, a: string, i: int) {
    && 0 <= i < |rows| && rows[i].facilitator == a && rows[i].facilitatorLabel.Some?
    && forall j :: i < j < |rows| && rows[j].facilitator == a ==> rows[j].facilitatorLabel.None?
  }

  /** The known flag is that of the last row the address settles, absent when it settles none. */
  lemma {:induction false} KnownIsLast(rows: seq<Row>, a: string)
    ensures forall i :: LastSettled(rows, a, i) ==> FactsOf(rows, a).known == Some(rows[i].facilitatorKnown)
    ensures FactsOf(rows, a).known == None <==> forall i :: 0 <= i < |rows| ==> rows[i].facilitator != a
  {
    if rows != [] {
      var init, last := rows[..|rows|-1], rows[|rows|-1];
      KnownIsLast(init, a);
      assert forall i :: 0 <= i < |init| ==> rows[i] == init[i];
      if last.facilitator != a {
        forall i | LastSettled(rows, a, i) ensures LastSettled(init, a, i) {
        }
        assert FactsOf(rows, a).known == None <==> forall i :: 0 <= i < |init| ==> init[i].facilitator != a;
      } else {
        assert rows[|rows|-1].facilitator == a;
      }
    }
  }

  /** The label is the last one among the rows the address settles, absent when none carries one. */
  lemma {:induction false} LabelIsLast(rows: seq<Row>, a: string)
    ensures forall i :: LastLabelled(rows, a, i) ==> FactsOf(rows, a).entity == rows[i].facilitatorLabel
    ensures FactsOf(rows, a).entity == None <==>
              forall i :: 0 <= i < |rows| && rows[i].facilitator == a ==> rows[i].facilitatorLabel.None?
  {
    if rows != [] {
      var init, last := rows[..|rows|-1], rows[|rows|-1];
      LabelIsLast(init, a);
      assert forall i :: 0 <= i < |init| ==> rows[i] == init[i];
      if last.facilitator == a && last.facilitatorLabel.Some? {
        assert rows[|rows|-1].facilitator == a;
      } else {
        forall i | LastLabelled(rows, a, i) ensures LastLabelled(init, a, i) {
        }
        assert FactsOf(rows, a).entity == None <==>
                 forall i :: 0 <= i < |init| && init[i].facilitator == a ==> init[i].facilitatorLabel.None?;
      }
    }
  }

  function EventOf(tx: string, r: Row): Node {
    Node(EventId(tx, r.logIndex), EventNode, Print(r.logIndex), [], Some(r.selfSettled), Some(r.facilitatorKnown), None)
  }

  function TxOf(tx: string): Node {
    Node(TxId(tx), TransactionNode, tx, [], None, None, None)
  }

  function AllEdges(tx: string, rows: seq<Row>): (r: seq<Edge>)
    ensures |r| == 3 * |rows|
  {
    if rows == [] then [] else AllEdges(tx, rows[..|rows|-1]) + ThreeEdges(tx, rows[|rows|-1])
  }

  function AllEvents(tx: string, rows: seq<Row>): (r: seq<Node>)
    ensures |r| == |rows| && forall i :: 0 <= i < |r| ==> r[i] == EventOf(tx, rows[i])
  {
    if rows == [] then [] else AllEvents(tx, rows[..|rows|-1]) + [EventOf(tx, rows[|rows|-1])]
  }

  // ----- building

  function IsEvent(): Node -> bool {
    (n: Node) => n.kind == EventNode
  }

  function IsTx(): Node -> bool {
    (n: Node) => n.kind == TransactionNode
  }

  /** The address index finds each address node, and every address node is found. */
  ghost predicate Indexed(g: Graph) {
    && (forall a :: a in g.addrIdx ==>
          g.addrIdx[a] < |g.nodes| && g.nodes[g.addrIdx[a]].kind == AddressNode && g.nodes[g.addrIdx[a]].name == a)
    && (forall k :: 0 <= k < |g.nodes| && g.nodes[k].kind == AddressNode ==>
          && g.nodes[k].name in g.addrIdx && g.addrIdx[g.nodes[k].name] == k
          && g.nodes[k].id == AddressId(g.nodes[k].name))
  }

  ghost function NodeAt(g: Graph, a: string): Option<Node>
    requires Indexed(g)
  {
    if a in g.addrIdx then Some(g.nodes[g.addrIdx[a]]) else None
  }

  ghost function RolesAt(g: Graph, a: string): seq<Role>
    requires Indexed(g)
  {
    if a in g.addrIdx then g.nodes[g.addrIdx[a]].roles else []
  }

  function FactsIn(n: Node): Facts {
    Facts(n.selfSettled, n.facilitatorKnown, n.entityLabel)
  }

  ghost function FactsAt(g: Graph, a: string): Facts
    requires Indexed(g)
  {
    if a in g.addrIdx then FactsIn(g.nodes[g.addrIdx[a]]) else Facts(None, None, None)
  }

  ghost predicate SameRest(g: Graph, h: Graph) {
    && Filter(h.nodes, IsEvent()) == Filter(g.nodes, IsEvent())
    && Filter(h.nodes, IsTx()) == Filter(g.nodes, IsTx())
    && h.edges == g.edges && h.edgeSeen == g.edgeSeen
  }

  lemma {:induction false} ReplaceKeepsFilter(nodes: seq<Node>, k: nat, n: Node, keep: Node -> bool)
    requires k < |nodes| && !keep(nodes[k]) && !keep(n)
    ensures Filter(nodes[k := n], keep) == Filter(nodes, keep)
  {
    assert nodes == nodes[..k] + [nodes[k]] + nodes[k+1..];
    assert nodes[k := n] == nodes[..k] + [n] + nodes[k+1..];
    FilterAppend(nodes[..k] + [nodes[k]], nodes[k+1..], keep);
    FilterAppend(nodes[..k] + [n], nodes[k+1..], keep);
    FilterAppend(nodes[..k], [nodes[k]], keep);
    FilterAppend(nodes[..k], [n], keep);
    assert [nodes[k]][1..] == [] && [n][1..] == [];
  }

  function NewAddress(a: string, role: Role): Node {
    Node(AddressId(a), AddressNode, a, [role], None, None, None)
  }

  function AddAddr(g: Graph, a: string, role: Role): Graph
    requires Indexed(g)
  {
    if a in g.addrIdx then
      var i := g.addrIdx[a];
      g.(nodes := g.nodes[i := g.nodes[i].(roles := AddRole(g.nodes[i].roles, role))])
    else g.(nodes := g.nodes + [NewAddress(a, role)], addrIdx := g.addrIdx[a := |g.nodes|])
  }

  function Rewrite(g: Graph, a: string, n: Node): Graph
    requires Indexed(g) && a in g.addrIdx
  {
    g.(nodes := g.nodes[g.addrIdx[a] := n])
  }

  lemma RewriteKeepsIndex(g: Graph, a: string, n: Node)
    requires Indexed(g) && a in g.addrIdx && n.kind == AddressNode && n.name == a && n.id == AddressId(a)
    ensures Indexed(Rewrite(g, a, n))
  {
  }

  /** Rewriting an address node in place touches nothing else. */
  lemma RewriteKeeps(g: Graph, a: string, n: Node)
    requires Indexed(g) && a in g.addrIdx && n.kind == AddressNode && n.name == a && n.id == AddressId(a)
    ensures Indexed(Rewrite(g, a, n)) && SameRest(g, Rewrite(g, a, n))
    ensures NodeAt(Rewrite(g, a, n), a) == Some(n)
    ensures forall b :: b != a ==> NodeAt(Rewrite(g, a, n), b) == NodeAt(g, b)
  {
    RewriteKeepsIndex(g, a, n);
    ReplaceKeepsFilter(g.nodes, g.addrIdx[a], n, IsEvent());
    ReplaceKeepsFilter(g.nodes, g.addrIdx[a], n, IsTx());
    forall b | b != a && b in g.addrIdx ensures g.addrIdx[b] != g.addrIdx[a] {
    }
  }

  function Extend(g: Graph, n: Node): Graph {
    g.(nodes := g.nodes + [n], addrIdx := g.addrIdx[n.name := |g.nodes|])
  }

  lemma ExtendKeeps(g: Graph, n: Node)
    requires Indexed(g) && n.name !in g.addrIdx && n.kind == AddressNode && n.id == AddressId(n.name)
    ensures Indexed(Extend(g, n)) && SameRest(g, Extend(g, n))
    ensures NodeAt(Extend(g, n), n.name) == Some(n)
    ensures forall b :: b != n.name ==> NodeAt(Extend(g, n), b) == NodeAt(g, b)
  {
    ExtendKeepsIndex(g, n);
    FilterPush(g.nodes, n, IsEvent());
    FilterPush(g.nodes, n, IsTx());
    forall b | b != n.name ensures NodeAt(Extend(g, n), b) == NodeAt(g, b) {
    }
  }

  lemma ExtendKeepsIndex(g: Graph, n: Node)
    requires Indexed(g) && n.name !in g.addrIdx && n.kind == AddressNode && n.id == AddressId(n.name)
    ensures Indexed(Extend(g, n))
  {
  }

  /** An address has gained a role; of all else nothing has changed. */
  ghost predicate Gained(g: Graph, h: Graph, a: string, role: Role) {
    && Indexed(g) && Indexed(h) && SameRest(g, h)
    && a in h.addrIdx
    && RolesAt(h, a) == AddRole(RolesAt(g, a), role) && FactsAt(h, a) == FactsAt(g, a)
    && forall b :: b != a ==> NodeAt(h, b) == NodeAt(g, b)
  }

  lemma AddAddrKeeps(g: Graph, a: string, role: Role)
    requires Indexed(g)
    ensures Gained(g, AddAddr(g, a, role), a, role)
  {
    if a in g.addrIdx {
      var i := g.addrIdx[a];
      var n := g.nodes[i].(roles := AddRole(g.nodes[i].roles, role));
      RewriteKeeps(g, a, n);
      assert AddAddr(g, a, role) == Rewrite(g, a, n);
    } else {
      ExtendKeeps(g, NewAddress(a, role));
      assert AddAddr(g, a, role) == Extend(g, NewAddress(a, role));
    }
  }

  /** The facilitator's node takes its facts from the row; once self-settled it stays so. */
  function Marked(n: Node, r: Row): Node {
    n.(facilitatorKnown := Some(r.facilitatorKnown),
       entityLabel := if r.facilitatorLabel.Some? then r.facilitatorLabel else n.entityLabel,
       selfSettled := if r.selfSettled then Some(true) else if n.selfSettled.None? then Some(false) else n.selfSettled)
  }

  function Mark(g: Graph, r: Row): Graph
    requires Indexed(g) && r.facilitator in g.addrIdx
  {
    Rewrite(g, r.facilitator, Marked(g.nodes[g.addrIdx[r.facilitator]], r))
  }

  lemma MarkKeeps(g: Graph, r: Row)
    requires Indexed(g) && r.facilitator in g.addrIdx
    ensures var h := Mark(g, r);
            && Indexed(h) && SameRest(g, h)
            && RolesAt(h, r.facilitator) == RolesAt(g, r.facilitator)
            && FactsAt(h, r.facilitator) == FactsAfter(FactsAt(g, r.facilitator), r, r.facilitator)
            && forall b :: b != r.facilitator ==> NodeAt(h, b) == NodeAt(g, b)
  {
    RewriteKeeps(g, r.facilitator, Marked(g.nodes[g.addrIdx[r.facilitator]], r));
  }

  function AddEdge(g: Graph, e: Edge): Graph {
    if e.id in g.edgeSeen then g else g.(edges := g.edges + [e], edgeSeen := g.edgeSeen + {e.id})
  }

  function AddEdges(g: Graph, tx: string, r: Row): Graph {
    AddEdge(AddEdge(AddEdge(g, EmitsEdge(tx, r)), PaysEdge(r)), SettlesEdge(tx, r))
  }

  function PushEvent(g: Graph, tx: string, r: Row): Graph {
    g.(nodes := g.nodes + [EventOf(tx, r)])
  }

  lemma PushEventKeeps(g: Graph, tx: string, r: Row)
    requires Indexed(g)
    ensures var h := PushEvent(g, tx, r);
            && Indexed(h)
            && Filter(h.nodes, IsEvent()) == Filter(g.nodes, IsEvent()) + [EventOf(tx, r)]
            && Filter(h.nodes, IsTx()) == Filter(g.nodes, IsTx())
            && forall b :: NodeAt(h, b) == NodeAt(g, b)
  {
    FilterPush(g.nodes, EventOf(tx, r), IsEvent());
    FilterPush(g.nodes, EventOf(tx, r), IsTx());
    PushKeepsAddresses(g, EventOf(tx, r));
  }

  lemma PushKeepsAddresses(g: Graph, n: Node)
    requires Indexed(g) && n.kind != AddressNode
    ensures var h := g.(nodes := g.nodes + [n]);
            Indexed(h) && forall b :: NodeAt(h, b) == NodeAt(g, b)
  {
  }

  // ----- the order of the address nodes

  /** The addresses that have a node, in the order of their nodes. */
  function NamesOf(nodes: seq<Node>): seq<string> {
    if nodes == [] then []
    else
      var n := nodes[|nodes|-1];
      NamesOf(nodes[..|nodes|-1]) + if n.kind == AddressNode then [n.name] else []
  }

  /** Every row's payer, payee and facilitator. */
  function Mentions(rows: seq<Row>): seq<string> {
    if rows == [] then []
    else
      var r := rows[|rows|-1];
      Mentions(rows[..|rows|-1]) + [r.payer] + [r.payee] + [r.facilitator]
  }

  lemma MentionsOfNext(rows: seq<Row>, r: Row)
    ensures Mentions(rows + [r]) == Mentions(rows) + [r.payer] + [r.payee] + [r.facilitator]
  {
    assert (rows + [r])[..|rows|] == rows;
  }

  /** A node for each address mentioned, in the order of first mention. */
  ghost predicate InOrder(g: Graph, mentions: seq<string>) {
    && Indexed(g) && NamesOf(g.nodes) == FirstMentions({}, mentions)
    && forall a :: a in g.addrIdx <==> a in mentions
  }

  lemma NamesPush(nodes: seq<Node>, n: Node)
    ensures NamesOf(nodes + [n]) == NamesOf(nodes) + if n.kind == AddressNode then [n.name] else []
  {
    assert (nodes + [n])[..|nodes|] == nodes;
  }

  lemma {:induction false} NamesStay(nodes: seq<Node>, k: nat, n: Node)
    requires k < |nodes| && n.kind == nodes[k].kind && n.name == nodes[k].name
    ensures NamesOf(nodes[k := n]) == NamesOf(nodes)
  {
    var front := nodes[..|nodes|-1];
    if k < |front| {
      NamesStay(front, k, n);
      assert nodes[k := n][..|nodes|-1] == front[k := n];
    } else {
      assert nodes[k := n][..|nodes|-1] == front;
    }
  }

  lemma RewriteKeepsOrder(g: Graph, a: string, n: Node, mentions: seq<string>)
    requires InOrder(g, mentions) && a in g.addrIdx
    requires n.kind == AddressNode && n.name == a && n.id == AddressId(a)
    ensures InOrder(Rewrite(g, a, n), mentions)
  {
    RewriteKeepsIndex(g, a, n);
    NamesStay(g.nodes, g.addrIdx[a], n);
  }

  lemma PushKeepsOrder(g: Graph, n: Node, mentions: seq<string>)
    requires InOrder(g, mentions) && n.kind != AddressNode
    ensures InOrder(g.(nodes := g.nodes + [n]), mentions)
  {
    PushKeepsAddresses(g, n);
    NamesPush(g.nodes, n);
  }

  lemma AddAddrInOrder(g: Graph, a: string, role: Role, mentions: seq<string>)
    requires InOrder(g, mentions)
    ensures InOrder(AddAddr(g, a, role), mentions + [a])
  {
    OneMoreMention(mentions, a);
    if a in g.addrIdx {
      var n := g.nodes[g.addrIdx[a]].(roles := AddRole(g.nodes[g.addrIdx[a]].roles, role));
      RewriteKeepsOrder(g, a, n, mentions);
      assert AddAddr(g, a, role) == Rewrite(g, a, n);
    } else {
      ExtendKeepsIndex(g, NewAddress(a, role));
      NamesPush(g.nodes, NewAddress(a, role));
      assert AddAddr(g, a, role) == Extend(g, NewAddress(a, role));
    }
  }

  lemma WithAddressesInOrder(g: Graph, r: Row, mentions: seq<string>)
    requires InOrder(g, mentions)
    ensures InOrder(WithAddresses(g, r), mentions + [r.payer] + [r.payee] + [r.facilitator])
  {
    AddAddrInOrder(g, r.payer, PayerRole, mentions);
    var g1 := AddAddr(g, r.payer, PayerRole);
    AddAddrInOrder(g1, r.payee, PayeeRole, mentions + [r.payer]);
    var g2 := AddAddr(g1, r.payee, PayeeRole);
    AddAddrInOrder(g2, r.facilitator, FacilitatorRole, mentions + [r.payer] + [r.payee]);
    var g3 := AddAddr(g2, r.facilitator, FacilitatorRole);
    var n := Marked(g3.nodes[g3.addrIdx[r.facilitator]], r);
    RewriteKeepsOrder(g3, r.facilitator, n, mentions + [r.payer] + [r.payee] + [r.facilitator]);
  }

  // ----- what holds after each row

  ghost predicate AddressesDrawn(g: Graph, rows: seq<Row>) {
    && Indexed(g)
    && forall a :: AddressDrawn(g, rows, a)
  }

  ghost predicate AddressDrawn(g: Graph, rows: seq<Row>, a: string)
    requires Indexed(g)
  {
    && RolesAt(g, a) == RolesPlayed(rows, a) && FactsAt(g, a) == FactsOf(rows, a)
    && (a in g.addrIdx <==> RolesPlayed(rows, a) != [])
  }

  ghost predicate EdgesDrawn(g: Graph, tx: string, rows: seq<Row>) {
    && g.edges == AllEdges(tx, rows)
    && g.edgeSeen == set e | e in g.edges :: e.id
  }

  ghost predicate EventsDrawn(g: Graph, tx: string, rows: seq<Row>) {
    && Filter(g.nodes, IsEvent()) == AllEvents(tx, rows)
    && Filter(g.nodes, IsTx()) == [TxOf(tx)]
  }

  function WithAddresses(g: Graph, r: Row): Graph
    requires Indexed(g)
  {
    AddAddrKeeps(g, r.payer, PayerRole);
    var g1 := AddAddr(g, r.payer, PayerRole);
    AddAddrKeeps(g1, r.payee, PayeeRole);
    var g2 := AddAddr(g1, r.payee, PayeeRole);
    AddAddrKeeps(g2, r.facilitator, FacilitatorRole);
    Mark(AddAddr(g2, r.facilitator, FacilitatorRole), r)
  }

  lemma WithAddressesDraws(g: Graph, rows: seq<Row>, r: Row)
    requires AddressesDrawn(g, rows)
    ensures AddressesDrawn(WithAddresses(g, r), rows + [r]) && SameRest(g, WithAddresses(g, r))
  {
    AddAddrKeeps(g, r.payer, PayerRole);
    var g1 := AddAddr(g, r.payer, PayerRole);
    AddAddrKeeps(g1, r.payee, PayeeRole);
    var g2 := AddAddr(g1, r.payee, PayeeRole);
    AddAddrKeeps(g2, r.facilitator, FacilitatorRole);
    var g3 := AddAddr(g2, r.facilitator, FacilitatorRole);
    MarkKeeps(g3, r);
    var h := WithAddresses(g, r);
    forall a ensures AddressDrawn(h, rows + [r], a) {
      MarkedView(g3, h, r, a);
      OneAddress(g, g1, g2, g3, h, r, a);
      OneAddressDraws(g, h, rows, r, a);
    }
  }

  lemma OneAddressDraws(g: Graph, h: Graph, rows: seq<Row>, r: Row, a: string)
    requires Indexed(g) && Indexed(h) && AddressDrawn(g, rows, a)
    requires RolesAt(h, a) == RolesAfter(RolesAt(g, a), r, a) && FactsAt(h, a) == FactsAfter(FactsAt(g, a), r, a)
    requires a in h.addrIdx <==> a in g.addrIdx || a == r.payer || a == r.payee || a == r.facilitator
    ensures AddressDrawn(h, rows + [r], a)
  {
    assert (rows + [r])[..|rows|] == rows;
    RolesComeUp(RolesPlayed(rows, a), r, a);
  }

  /** What the graph shows of one address. */
  datatype View = View(present: bool, roles: seq<Role>, facts: Facts)

  ghost function ViewAt(g: Graph, a: string): View
    requires Indexed(g)
  {
    View(a in g.addrIdx, RolesAt(g, a), FactsAt(g, a))
  }

  lemma GainedView(g: Graph, h: Graph, a: string, role: Role, b: string)
    requires Gained(g, h, a, role)
    ensures ViewAt(h, b) == Seen(ViewAt(g, b), b == a, role)
  {
    assert b != a ==> NodeAt(h, b) == NodeAt(g, b);
  }

  function Seen(v: View, here: bool, role: Role): View {
    if here then View(true, AddRole(v.roles, role), v.facts) else v
  }

  lemma ThreeRoles(v: View, r: Row, a: string)
    ensures var w := Seen(Seen(Seen(v, a == r.payer, PayerRole), a == r.payee, PayeeRole),
                           a == r.facilitator, FacilitatorRole);
            && w.roles == RolesAfter(v.roles, r, a) && w.facts == v.facts
            && (w.present <==> v.present || a == r.payer || a == r.payee || a == r.facilitator)
  {
  }

  lemma OneAddress(g: Graph, g1: Graph, g2: Graph, g3: Graph, h: Graph, r: Row, a: string)
    requires Gained(g, g1, r.payer, PayerRole) && Gained(g1, g2, r.payee, PayeeRole)
    requires Gained(g2, g3, r.facilitator, FacilitatorRole)
    requires Indexed(h) && (a in h.addrIdx <==> a in g3.addrIdx) && RolesAt(h, a) == RolesAt(g3, a)
    requires FactsAt(h, a) == FactsAfter(FactsAt(g3, a), r, a)
    ensures RolesAt(h, a) == RolesAfter(RolesAt(g, a), r, a)
    ensures FactsAt(h, a) == FactsAfter(FactsAt(g, a), r, a)
    ensures a in h.addrIdx <==> a in g.addrIdx || a == r.payer || a == r.payee || a == r.facilitator
  {
    GainedView(g, g1, r.payer, PayerRole, a);
    GainedView(g1, g2, r.payee, PayeeRole, a);
    GainedView(g2, g3, r.facilitator, FacilitatorRole, a);
    ThreeRoles(ViewAt(g, a), r, a);
  }

  lemma RolesComeUp(roles: seq<Role>, r: Row, a: string)
    ensures RolesAfter(roles, r, a) != [] <==> roles != [] || a == r.payer || a == r.payee || a == r.facilitator
  {
  }

  lemma MarkedView(g: Graph, h: Graph, r: Row, b: string)
    requires Indexed(g) && r.facilitator in g.addrIdx && h == Mark(g, r)
    ensures Indexed(h) && (b in h.addrIdx <==> b in g.addrIdx) && RolesAt(h, b) == RolesAt(g, b)
    ensures FactsAt(h, b) == FactsAfter(FactsAt(g, b), r, b)
  {
    MarkKeeps(g, r);
    assert b != r.facilitator ==> NodeAt(h, b) == NodeAt(g, b);
  }

  // ----- edges

  lemma {:induction false} EdgeIdsFromRows(tx: string, rows: seq<Row>, e: Edge)
    requires e in AllEdges(tx, rows)
    ensures exists i :: 0 <= i < |rows| && e in ThreeEdges(tx, rows[i])
  {
    var init, last := rows[..|rows|-1], rows[|rows|-1];
    if e in AllEdges(tx, init) {
      EdgeIdsFromRows(tx, init, e);
      var i :| 0 <= i < |init| && e in ThreeEdges(tx, init[i]);
      assert e in ThreeEdges(tx, rows[i]);
    } else {
      assert e in ThreeEdges(tx, last);
    }
  }

  lemma RowEdgesDiffer(tx: string, r: Row, s: Row, d: Edge, e: Edge)
    requires r.logIndex != s.logIndex && d in ThreeEdges(tx, r) && e in ThreeEdges(tx, s)
    ensures d.id != e.id
  {
    ThreeIdsDiffer(tx, r, s);
    ThreeIdsDiffer(tx, s, r);
    if EmitsEdge(tx, r).id == EmitsEdge(tx, s).id || PaysEdge(r).id == PaysEdge(s).id
       || SettlesEdge(tx, r).id == SettlesEdge(tx, s).id {
      EdgeIdsTellRowsApart(tx, r, s);
    }
  }

  /** The edges of a row with a new log index have ids of their own. */
  lemma NewEdgesAreNew(tx: string, rows: seq<Row>, r: Row)
    requires forall i :: 0 <= i < |rows| ==> rows[i].logIndex != r.logIndex
    ensures forall d, e :: d in AllEdges(tx, rows) && e in ThreeEdges(tx, r) ==> d.id != e.id
  {
    forall d, e | d in AllEdges(tx, rows) && e in ThreeEdges(tx, r) ensures d.id != e.id {
      EdgeIdsFromRows(tx, rows, d);
      var i :| 0 <= i < |rows| && d in ThreeEdges(tx, rows[i]);
      RowEdgesDiffer(tx, rows[i], r, d, e);
    }
  }

  lemma NoEdgeSeen(g: Graph, tx: string, rows: seq<Row>, r: Row)
    requires EdgesDrawn(g, tx, rows) && forall i :: 0 <= i < |rows| ==> rows[i].logIndex != r.logIndex
    ensures forall e :: e in ThreeEdges(tx, r) ==> e.id !in g.edgeSeen
  {
    NewEdgesAreNew(tx, rows, r);
  }

  /** So all three are added. */
  lemma AddEdgesDraws(g: Graph, tx: string, rows: seq<Row>, r: Row)
    requires EdgesDrawn(g, tx, rows) && forall i :: 0 <= i < |rows| ==> rows[i].logIndex != r.logIndex
    ensures EdgesDrawn(AddEdges(g, tx, r), tx, rows + [r])
    ensures AddEdges(g, tx, r).nodes == g.nodes && AddEdges(g, tx, r).addrIdx == g.addrIdx
  {
    var a, b, c := EmitsEdge(tx, r), PaysEdge(r), SettlesEdge(tx, r);
    NoEdgeSeen(g, tx, rows, r);
    assert ThreeEdges(tx, r)[0] == a && ThreeEdges(tx, r)[1] == b && ThreeEdges(tx, r)[2] == c;
    assert a.id !in g.edgeSeen && b.id !in g.edgeSeen && c.id !in g.edgeSeen;
    AddThree(g, tx, r);
    ThreeMoreEdges(tx, rows, r);
    IdsOfThree(g.edges, a, b, c);
  }

  lemma IdsOfThree(edges: seq<Edge>, a: Edge, b: Edge, c: Edge)
    ensures (set e | e in edges + [a] + [b] + [c] :: e.id) == (set e | e in edges :: e.id) + {a.id} + {b.id} + {c.id}
  {
  }

  lemma AddThree(g: Graph, tx: string, r: Row)
    requires EmitsEdge(tx, r).id !in g.edgeSeen && PaysEdge(r).id !in g.edgeSeen && SettlesEdge(tx, r).id !in g.edgeSeen
    ensures var a, b, c := EmitsEdge(tx, r), PaysEdge(r), SettlesEdge(tx, r);
            AddEdges(g, tx, r)
              == g.(edges := g.edges + [a] + [b] + [c], edgeSeen := g.edgeSeen + {a.id} + {b.id} + {c.id})
  {
    ThreeIdsDiffer(tx, r, r);
  }

  lemma ThreeMoreEdges(tx: string, rows: seq<Row>, r: Row)
    ensures AllEdges(tx, rows + [r]) == AllEdges(tx, rows) + [EmitsEdge(tx, r)] + [PaysEdge(r)] + [SettlesEdge(tx, r)]
  {
    assert (rows + [r])[..|rows|] == rows;
  }

  // ----- the graph

  lemma PushEventDraws(g: Graph, tx: string, rows: seq<Row>, r: Row)
    requires AddressesDrawn(g, rows) && EventsDrawn(g, tx, rows)
    ensures AddressesDrawn(PushEvent(g, tx, r), rows) && EventsDrawn(PushEvent(g, tx, r), tx, rows + [r])
  {
    PushEventKeeps(g, tx, r);
    var h := PushEvent(g, tx, r);
    forall a ensures AddressDrawn(h, rows, a) {
      assert AddressDrawn(g, rows, a) && NodeAt(h, a) == NodeAt(g, a);
      SameNodeDrawn(g, h, rows, a);
    }
    assert (rows + [r])[..|rows|] == rows;
  }

  lemma SameNodeDrawn(g: Graph, h: Graph, rows: seq<Row>, a: string)
    requires Indexed(g) && Indexed(h) && AddressDrawn(g, rows, a) && NodeAt(h, a) == NodeAt(g, a)
    ensures AddressDrawn(h, rows, a)
  {
  }

  method DrawAddresses(g: Graph, r: Row) returns (h: Graph)
    requires Indexed(g)
    ensures h == WithAddresses(g, r)
  {
    AddAddrKeeps(g, r.payer, PayerRole);
    h := AddAddr(g, r.payer, PayerRole);
    AddAddrKeeps(h, r.payee, PayeeRole);
    h := AddAddr(h, r.payee, PayeeRole);
    AddAddrKeeps(h, r.facilitator, FacilitatorRole);
    h := AddAddr(h, r.facilitator, FacilitatorRole);
    h := Mark(h, r);
  }

  method DrawEdges(g: Graph, tx: string, r: Row) returns (h: Graph)
    ensures h == AddEdges(g, tx, r)
  {
    h := AddEdge(g, EmitsEdge(tx, r));
    h := AddEdge(h, PaysEdge(r));
    h := AddEdge(h, SettlesEdge(tx, r));
  }

  ghost predicate Drawn(g: Graph, tx: string, rows: seq<Row>) {
    && AddressesDrawn(g, rows) && EventsDrawn(g, tx, rows) && EdgesDrawn(g, tx, rows)
    && InOrder(g, Mentions(rows))
  }

  lemma RowIsDrawn(g: Graph, tx: string, rows: seq<Row>, r: Row)
    requires Drawn(g, tx, rows) && forall i :: 0 <= i < |rows| ==> rows[i].logIndex != r.logIndex
    ensures Indexed(PushEvent(g, tx, r))
    ensures Drawn(AddEdges(WithAddresses(PushEvent(g, tx, r), r), tx, r), tx, rows + [r])
  {
    var pushed := PushEvent(g, tx, r);
    PushEventDraws(g, tx, rows, r);
    WithAddressesDraws(pushed, rows, r);
    AddEdgesDraws(WithAddresses(pushed, r), tx, rows, r);
    SameNodesSameAddresses(WithAddresses(pushed, r), AddEdges(WithAddresses(pushed, r), tx, r), rows + [r]);
    PushKeepsOrder(g, EventOf(tx, r), Mentions(rows));
    WithAddressesInOrder(pushed, r, Mentions(rows));
    MentionsOfNext(rows, r);
  }

  lemma SameNodesSameAddresses(g: Graph, h: Graph, rows: seq<Row>)
    requires AddressesDrawn(g, rows) && h.nodes == g.nodes && h.addrIdx == g.addrIdx
    ensures AddressesDrawn(h, rows)
  {
    forall a ensures AddressDrawn(h, rows, a) {
      assert AddressDrawn(g, rows, a);
    }
  }

  method DrawRow(g: Graph, tx: string, ghost rows: seq<Row>, r: Row) returns (h: Graph)
    requires Drawn(g, tx, rows) && forall i :: 0 <= i < |rows| ==> rows[i].logIndex != r.logIndex
    ensures Drawn(h, tx, rows + [r])
  {
    RowIsDrawn(g, tx, rows, r);
    h := PushEvent(g, tx, r);
    h := DrawAddresses(h, r);
    h := DrawEdges(h, tx, r);
  }

  function Start(tx: string): Graph {
    Graph([TxOf(tx)], [], map[], {})
  }

  ghost predicate DrawnUpTo(g: Graph, tx: string, rows: seq<Row>, n: nat)
    requires n <= |rows|
  {
    Drawn(g, tx, rows[..n])
  }

  lemma StartIsDrawn(tx: string, rows: seq<Row>)
    ensures DrawnUpTo(Start(tx), tx, rows, 0)
  {
    assert [TxOf(tx)][1..] == [];
  }

  lemma AllAreDrawn(g: Graph, tx: string, rows: seq<Row>)
    requires DrawnUpTo(g, tx, rows, |rows|)
    ensures Drawn(g, tx, rows)
  {
    assert rows[..|rows|] == rows;
  }

  method DrawNext(g: Graph, tx: string, rows: seq<Row>, i: nat) returns (h: Graph)
    requires DistinctLogs(rows) && i < |rows| && DrawnUpTo(g, tx, rows, i)
    ensures DrawnUpTo(h, tx, rows, i + 1)
  {
    NextIsNew(rows, i);
    h := DrawRow(g, tx, rows[..i], rows[i]);
  }

  lemma NextIsNew(rows: seq<Row>, i: nat)
    requires DistinctLogs(rows) && i < |rows|
    ensures forall k :: 0 <= k < i ==> rows[..i][k].logIndex != rows[i].logIndex
    ensures rows[..i] + [rows[i]] == rows[..i+1]
  {
  }

  /** The database hands out a transaction's rows only if there are some. */
  method BuildGraph(tx: string, rows: seq<Row>) returns (g: Graph)
    requires DistinctLogs(rows)
    ensures Drawn(g, tx, rows)
  {
    g := Start(tx);
    StartIsDrawn(tx, rows);
    for i := 0 to |rows|
      invariant DrawnUpTo(g, tx, rows, i)
    {
      g := DrawNext(g, tx, rows, i);
    }
    AllAreDrawn(g, tx, rows);
  }

  ghost predicate HasNode(g: Graph, id: string) {
    exists k :: 0 <= k < |g.nodes| && g.nodes[k].id == id
  }

  ghost predicate IdsDiffer(nodes: seq<Node>) {
    forall i, j :: 0 <= i < j < |nodes| ==> nodes[i].id != nodes[j].id
  }

  lemma FilterKeepsPlaces(nodes: seq<Node>, i: nat, j: nat, keep: Node -> bool) returns (p: nat, q: nat)
    requires i < j < |nodes| && keep(nodes[i]) && keep(nodes[j])
    ensures p < q < |Filter(nodes, keep)| && Filter(nodes, keep)[p] == nodes[i] && Filter(nodes, keep)[q] == nodes[j]
  {
    var a, b := nodes[..j], nodes[j..];
    assert nodes == a + b && a[i] == nodes[i] && b[0] == nodes[j];
    FilterAppend(a, b, keep);
    p, q := JoinedPlaces(Filter(a, keep), Filter(b, keep), nodes[i], nodes[j]);
  }

  lemma JoinedPlaces(a: seq<Node>, b: seq<Node>, x: Node, y: Node) returns (p: nat, q: nat)
    requires x in a && y in b
    ensures p < q < |a + b| && (a + b)[p] == x && (a + b)[q] == y
  {
    p :| 0 <= p < |a| && a[p] == x;
    var k :| 0 <= k < |b| && b[k] == y;
    q := |a| + k;
  }

  lemma RowOfEvent(g: Graph, tx: string, rows: seq<Row>, k: nat) returns (i: nat)
    requires EventsDrawn(g, tx, rows) && k < |g.nodes| && g.nodes[k].kind == EventNode
    ensures i < |rows| && g.nodes[k] == EventOf(tx, rows[i])
  {
    assert g.nodes[k] in Filter(g.nodes, IsEvent());
    i :| 0 <= i < |AllEvents(tx, rows)| && AllEvents(tx, rows)[i] == g.nodes[k];
  }

  lemma IsTheTx(g: Graph, tx: string, rows: seq<Row>, k: nat)
    requires EventsDrawn(g, tx, rows) && k < |g.nodes| && g.nodes[k].kind == TransactionNode
    ensures g.nodes[k] == TxOf(tx)
  {
    assert g.nodes[k] in Filter(g.nodes, IsTx());
  }

  lemma SameKindIdsDiffer(g: Graph, tx: string, rows: seq<Row>, i: nat, j: nat)
    requires DistinctLogs(rows) && AddressesDrawn(g, rows) && EventsDrawn(g, tx, rows)
    requires i < j < |g.nodes| && g.nodes[i].kind == g.nodes[j].kind
    ensures g.nodes[i].id != g.nodes[j].id
  {
    match g.nodes[i].kind
    case TransactionNode =>
      var p, q := FilterKeepsPlaces(g.nodes, i, j, IsTx());
      assert false;
    case EventNode =>
      var p, q := FilterKeepsPlaces(g.nodes, i, j, IsEvent());
      if g.nodes[i].id == g.nodes[j].id {
        EventIdsDiffer(tx, rows[p].logIndex, rows[q].logIndex);
      }
    case AddressNode =>
      if g.nodes[i].id == g.nodes[j].id {
        AddressIdsDiffer(g.nodes[i].name, g.nodes[j].name);
      }
  }

  lemma OtherKindIdsDiffer(g: Graph, tx: string, rows: seq<Row>, i: nat, j: nat)
    requires AddressesDrawn(g, rows) && EventsDrawn(g, tx, rows)
    requires i < |g.nodes| && j < |g.nodes|
    requires (g.nodes[i].kind == TransactionNode && g.nodes[j].kind != TransactionNode)
             || (g.nodes[i].kind == EventNode && g.nodes[j].kind == AddressNode)
    ensures g.nodes[i].id != g.nodes[j].id
  {
    var x := 0;
    if g.nodes[i].kind == TransactionNode {
      IsTheTx(g, tx, rows, i);
    }
    if g.nodes[i].kind == EventNode {
      var e := RowOfEvent(g, tx, rows, i);
      x := rows[e].logIndex;
    }
    if g.nodes[j].kind == EventNode {
      var e := RowOfEvent(g, tx, rows, j);
      x := rows[e].logIndex;
    }
    IdsTellKindsApart(tx, x, g.nodes[j].name);
  }

  lemma NodeIdsDiffer(g: Graph, tx: string, rows: seq<Row>)
    requires DistinctLogs(rows) && AddressesDrawn(g, rows) && EventsDrawn(g, tx, rows)
    ensures IdsDiffer(g.nodes)
  {
    forall i, j | 0 <= i < j < |g.nodes| ensures g.nodes[i].id != g.nodes[j].id {
      if g.nodes[i].kind == g.nodes[j].kind {
        SameKindIdsDiffer(g, tx, rows, i, j);
      } else if g.nodes[i].kind == TransactionNode || (g.nodes[i].kind == EventNode && g.nodes[j].kind == AddressNode) {
        OtherKindIdsDiffer(g, tx, rows, i, j);
      } else {
        OtherKindIdsDiffer(g, tx, rows, j, i);
      }
    }
  }

  lemma {:induction false} EdgeIdsDiffer(tx: string, rows: seq<Row>)
    requires DistinctLogs(rows)
    ensures forall i, j :: 0 <= i < j < |AllEdges(tx, rows)| ==> AllEdges(tx, rows)[i].id != AllEdges(tx, rows)[j].id
  {
    if rows != [] {
      var init, last := rows[..|rows|-1], rows[|rows|-1];
      EdgeIdsDiffer(tx, init);
      NewEdgesAreNew(tx, init, last);
      ThreeIdsDiffer(tx, last, last);
      JoinedIdsDiffer(AllEdges(tx, init), ThreeEdges(tx, last));
    }
  }

  lemma JoinedIdsDiffer(a: seq<Edge>, b: seq<Edge>)
    requires forall i, j :: 0 <= i < j < |a| ==> a[i].id != a[j].id
    requires forall i, j :: 0 <= i < j < |b| ==> b[i].id != b[j].id
    requires forall d, e :: d in a && e in b ==> d.id != e.id
    ensures forall i, j :: 0 <= i < j < |a + b| ==> (a + b)[i].id != (a + b)[j].id
  {
    forall i, j | 0 <= i < j < |a + b| ensures (a + b)[i].id != (a + b)[j].id {
      if i < |a| <= j {
        assert a[i] in a && b[j-|a|] in b;
      }
    }
  }

  lemma PartyHasNode(g: Graph, rows: seq<Row>, a: string, role: Role, i: nat)
    requires AddressesDrawn(g, rows) && i < |rows| && PlaysIn(rows[i], a, role)
    ensures a in g.addrIdx && HasNode(g, AddressId(a))
  {
    RolesArePlayed(rows, a);
    assert role in RolesPlayed(rows, a) && AddressDrawn(g, rows, a);
    assert g.nodes[g.addrIdx[a]].id == AddressId(a);
  }

  lemma EventHasNode(g: Graph, tx: string, rows: seq<Row>, i: nat)
    requires EventsDrawn(g, tx, rows) && i < |rows|
    ensures HasNode(g, EventId(tx, rows[i].logIndex)) && HasNode(g, TxId(tx))
  {
    assert AllEvents(tx, rows)[i] in Filter(g.nodes, IsEvent());
    assert [TxOf(tx)][0] in Filter(g.nodes, IsTx());
    var k :| 0 <= k < |g.nodes| && g.nodes[k] == EventOf(tx, rows[i]);
    var m :| 0 <= m < |g.nodes| && g.nodes[m] == TxOf(tx);
    assert g.nodes[k].id == EventId(tx, rows[i].logIndex) && g.nodes[m].id == TxId(tx);
  }

  lemma EndsHaveNodes(g: Graph, tx: string, rows: seq<Row>, e: Edge)
    requires AddressesDrawn(g, rows) && EventsDrawn(g, tx, rows) && e in AllEdges(tx, rows)
    ensures HasNode(g, e.source) && HasNode(g, e.target)
  {
    EdgeIdsFromRows(tx, rows, e);
    var i :| 0 <= i < |rows| && e in ThreeEdges(tx, rows[i]);
    EndsAreOfRow(tx, rows[i], e);
    RowHasNodes(g, tx, rows, i);
  }

  /** The transaction, the event, and the three parties. */
  function RowIds(tx: string, r: Row): set<string> {
    {TxId(tx), EventId(tx, r.logIndex), AddressId(r.payer), AddressId(r.payee), AddressId(r.facilitator)}
  }

  lemma EndsAreOfRow(tx: string, r: Row, e: Edge)
    requires e in ThreeEdges(tx, r)
    ensures e.source in RowIds(tx, r) && e.target in RowIds(tx, r)
  {
  }

  lemma RowHasNodes(g: Graph, tx: string, rows: seq<Row>, i: nat)
    requires AddressesDrawn(g, rows) && EventsDrawn(g, tx, rows) && i < |rows|
    ensures forall id :: id in RowIds(tx, rows[i]) ==> HasNode(g, id)
  {
    EventHasNode(g, tx, rows, i);
    PartyHasNode(g, rows, rows[i].payer, PayerRole, i);
    PartyHasNode(g, rows, rows[i].payee, PayeeRole, i);
    PartyHasNode(g, rows, rows[i].facilitator, FacilitatorRole, i);
  }

  /** No two nodes share an id, nor two edges; every edge ends at nodes; each row has its three edges. */
  lemma GraphIsWellFormed(g: Graph, tx: string, rows: seq<Row>)
    requires DistinctLogs(rows) && Drawn(g, tx, rows)
    ensures IdsDiffer(g.nodes)
    ensures forall i, j :: 0 <= i < j < |g.edges| ==> g.edges[i].id != g.edges[j].id
    ensures forall e :: e in g.edges ==> HasNode(g, e.source) && HasNode(g, e.target)
    ensures |g.edges| == 3 * |rows|
  {
    NodeIdsDiffer(g, tx, rows);
    EdgeIdsDiffer(tx, rows);
    forall e | e in g.edges ensures HasNode(g, e.source) && HasNode(g, e.target) {
      EndsHaveNodes(g, tx, rows, e);
    }
  }

  /** Known flag and label are those of the last rows that bring one, absent when none does. */
  ghost predicate FactsAreLast(n: Node, rows: seq<Row>, a: string) {
    && (forall i :: LastSettled(rows, a, i) ==> n.facilitatorKnown == Some(rows[i].facilitatorKnown))
    && (n.facilitatorKnown == None <==> forall i :: 0 <= i < |rows| ==> rows[i].facilitator != a)
    && (forall i :: LastLabelled(rows, a, i) ==> n.entityLabel == rows[i].facilitatorLabel)
    && (n.entityLabel == None <==>
          forall i :: 0 <= i < |rows| && rows[i].facilitator == a ==> rows[i].facilitatorLabel.None?)
  }

  /** The node of an address: there just when some row names it, with its roles and what is known of it. */
  lemma AddressNodeIsTrue(g: Graph, rows: seq<Row>, a: string)
    requires AddressesDrawn(g, rows)
    ensures a in g.addrIdx <==> exists i, role :: 0 <= i < |rows| && PlaysIn(rows[i], a, role)
    ensures a in g.addrIdx ==>
              var n := g.nodes[g.addrIdx[a]];
              && n.kind == AddressNode && n.id == AddressId(a) && NoRepeats(n.roles)
              && (forall role :: role in n.roles <==> Plays(rows, a, role))
              && (n.selfSettled == Some(true) <==>
                    exists i :: 0 <= i < |rows| && rows[i].facilitator == a && rows[i].selfSettled)
              && (n.selfSettled == None <==> forall i :: 0 <= i < |rows| ==> rows[i].facilitator != a)
              && FactsAreLast(n, rows, a)
  {
    assert AddressDrawn(g, rows, a);
    RolesArePlayed(rows, a);
    FlagIsSettled(rows, a);
    KnownIsLast(rows, a);
    LabelIsLast(rows, a);
    if a in g.addrIdx {
      var role := RolesPlayed(rows, a)[0];
      assert role in RolesPlayed(rows, a);
    }
    if i, role :| 0 <= i < |rows| && PlaysIn(rows[i], a, role) {
      assert role in RolesPlayed(rows, a);
    }
  }

  // ----- what each row adds

  /** The transaction emits the event, the payer pays the payee the row's amount, the facilitator settles the event. */
  ghost predicate DrawsRow(edges: seq<Edge>, tx: string, r: Row) {
    var event := "evt:" + tx + ":" + Print(r.logIndex);
    && |edges| == 3
    && edges[0] == Edge("e:emits:" + event, "tx:" + tx, event, "")
    && edges[1] == Edge("e:pays:" + r.payer + ":" + r.payee + ":" + Print(r.logIndex),
                        "addr:" + r.payer, "addr:" + r.payee, r.amount)
    && edges[2] == Edge("e:settles:" + event, "addr:" + r.facilitator, event, "")
  }

  lemma {:induction false} EdgesOfRow(tx: string, rows: seq<Row>, i: nat)
    requires i < |rows|
    ensures AllEdges(tx, rows)[3*i..3*i+3] == ThreeEdges(tx, rows[i])
  {
    var n := |rows| - 1;
    if i < n {
      EdgesOfRow(tx, rows[..n], i);
      assert AllEdges(tx, rows)[3*i..3*i+3] == AllEdges(tx, rows[..n])[3*i..3*i+3];
    }
  }

  /** The event's card: its log index, whether it settled itself and whether its facilitator is known. */
  ghost predicate ShowsEvent(n: Node, tx: string, r: Row) {
    && n.id == "evt:" + tx + ":" + Print(r.logIndex) && n.kind == EventNode && n.name == Print(r.logIndex)
    && n.selfSettled == Some(r.selfSettled) && n.facilitatorKnown == Some(r.facilitatorKnown)
    && n.roles == [] && n.entityLabel == None
  }

  /** Row by row, the graph's edges and event cards; and one card for the transaction. */
  lemma RowsAreDrawn(g: Graph, tx: string, rows: seq<Row>)
    requires Drawn(g, tx, rows)
    ensures |g.edges| == 3 * |rows|
    ensures forall i :: 0 <= i < |rows| ==> DrawsRow(g.edges[3*i..3*i+3], tx, rows[i])
    ensures var events := Filter(g.nodes, IsEvent());
            |events| == |rows| && forall i :: 0 <= i < |rows| ==> ShowsEvent(events[i], tx, rows[i])
    ensures Filter(g.nodes, IsTx()) == [Node("tx:" + tx, TransactionNode, tx, [], None, None, None)]
  {
    forall i | 0 <= i < |rows| ensures DrawsRow(g.edges[3*i..3*i+3], tx, rows[i]) {
      EdgesOfRow(tx, rows, i);
    }
  }

  /** The card of an address. */
  lemma AddressIsNamed(g: Graph, rows: seq<Row>, a: string)
    requires AddressesDrawn(g, rows) && a in g.addrIdx
    ensures g.nodes[g.addrIdx[a]].id == "addr:" + a && g.nodes[g.addrIdx[a]].name == a
    ensures g.nodes[g.addrIdx[a]].kind == AddressNode
  {
  }
}
