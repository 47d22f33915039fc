/**
 What merging neighbours draws, told by the server's five lists: which edges, and which
 cards, where.
 */
module Drawing {
  import opened EntityGraph
  import opened Graph
  import opened GraphInvariant
  import opened Layout
  import opened Positions
  import opened Text
  import opened Wrappers

  // ----- edges

  /** A payment edge, named after its ends. */
  function FlowEdge(source: string, target: string, share: real, outside: bool): Edge {
    Edge(source + "->" + target, source, target, false, Some(share), outside, false)
  }

  function SettlesEdge(source: string, target: string): Edge {
    Edge(source + "=>" + target, source, target, true, None, false, false)
  }

  /** Money flows from payers to the anchor and from it to payees; whoever settles points at whom it settles for. */
  ghost predicate OfNeighbor(e: Edge, anchorId: string, n: Neighbors, outside: bool) {
    || (exists r :: r in n.payers && e == FlowEdge(r.address, anchorId, r.share, outside))
    || (exists r :: r in n.payees && e == FlowEdge(anchorId, r.address, r.share, outside))
    || (exists r :: r in n.facilitators && e == SettlesEdge(r.address, anchorId))
    || (exists r :: r in n.settledPayers && e == SettlesEdge(r.address, anchorId))
    || (exists r :: r in n.settledPayees && e == SettlesEdge(anchorId, r.address))
  }

  /** Each row has its edge, by name. */
  ghost predicate EveryRowJoined(edges: seq<Edge>, anchorId: string, n: Neighbors) {
    && (forall r :: r in n.payers ==> HasEdge(edges, r.address + "->" + anchorId))
    && (forall r :: r in n.payees ==> HasEdge(edges, anchorId + "->" + r.address))
    && (forall r :: r in n.facilitators ==> HasEdge(edges, r.address + "=>" + anchorId))
    && (forall r :: r in n.settledPayers ==> HasEdge(edges, r.address + "=>" + anchorId))
    && (forall r :: r in n.settledPayees ==> HasEdge(edges, anchorId + "=>" + r.address))
  }

  ghost predicate OfDirections(e: Edge, anchorId: string, ds: seq<Direction>, outside: bool) {
    exists d :: d in ds && FromRow(e, anchorId, d, d.rows, outside)
  }

  lemma {:induction false} NewEdgesAreOfDirections(s: State, anchorId: string, anchor: Rect, ds: seq<Direction>,
                                                   outside: bool, e: Edge)
    requires e in MergedAll(s, anchorId, anchor, ds, outside).edges
    ensures e in s.edges || OfDirections(e, anchorId, ds, outside)
    decreases |ds|
  {
    if ds != [] {
      NewEdgesAreOfDirections(MergedOne(s, anchorId, anchor, ds[0], outside), anchorId, anchor, ds[1..], outside, e);
      AddEdgesGrows(s.edges, anchorId, ds[0], ds[0].rows, outside);
      assert forall d :: d in ds[1..] ==> d in ds;
    }
  }

  lemma OfDirectionsMeans(e: Edge, anchorId: string, n: Neighbors, outside: bool)
    requires OfDirections(e, anchorId, Directions(n), outside)
    ensures OfNeighbor(e, anchorId, n, outside)
  {
    var ds := Directions(n);
    var d :| d in ds && FromRow(e, anchorId, d, d.rows, outside);
    var r :| r in d.rows && e == RowEdge(anchorId, d, r, outside);
    RowEdgeIs(anchorId, d, r, outside);
    assert d == ds[0] || d == ds[1] || d == ds[2] || d == ds[3] || d == ds[4];
  }

  lemma RowEdgeIs(anchorId: string, d: Direction, r: NeighborRow, outside: bool)
    ensures var e, a := RowEdge(anchorId, d, r, outside), r.address;
            && (d.toAnchor && d.settles ==> e == SettlesEdge(a, anchorId))
            && (d.toAnchor && !d.settles ==> e == FlowEdge(a, anchorId, r.share, outside))
            && (!d.toAnchor && d.settles ==> e == SettlesEdge(anchorId, a))
            && (!d.toAnchor && !d.settles ==> e == FlowEdge(anchorId, a, r.share, outside))
  {
  }

  lemma AbsorbedIsJoined(s: State, anchorId: string, n: Neighbors, outside: bool)
    requires AllAbsorbed(s, anchorId, Directions(n), outside)
    ensures EveryRowJoined(s.edges, anchorId, n)
  {
    var ds := Directions(n);
    assert ds[0] in ds && ds[1] in ds && ds[2] in ds && ds[3] in ds && ds[4] in ds;
    forall r | r in n.payers ensures HasEdge(s.edges, r.address + "->" + anchorId) {
      assert RowEdge(anchorId, ds[0], r, outside).id == r.address + "->" + anchorId;
    }
    forall r | r in n.payees ensures HasEdge(s.edges, anchorId + "->" + r.address) {
      assert RowEdge(anchorId, ds[1], r, outside).id == anchorId + "->" + r.address;
    }
    forall r | r in n.facilitators ensures HasEdge(s.edges, r.address + "=>" + anchorId) {
      assert RowEdge(anchorId, ds[2], r, outside).id == r.address + "=>" + anchorId;
    }
    forall r | r in n.settledPayers ensures HasEdge(s.edges, r.address + "=>" + anchorId) {
      assert RowEdge(anchorId, ds[3], r, outside).id == r.address + "=>" + anchorId;
    }
    forall r | r in n.settledPayees ensures HasEdge(s.edges, anchorId + "=>" + r.address) {
      assert RowEdge(anchorId, ds[4], r, outside).id == anchorId + "=>" + r.address;
    }
  }

  /** After a merge each row has its edge, and every edge that was not there before is one of these. */
  lemma MergeJoins(s: State, anchorId: string, n: Neighbors, outside: bool)
    requires Orderly(s) && anchorId in Ids(s.nodes)
    ensures var t := Merged(s, anchorId, n, outside);
            && EveryRowJoined(t.edges, anchorId, n)
            && forall e :: e in t.edges ==> e in s.edges || OfNeighbor(e, anchorId, n, outside)
  {
    var t, anchor := Merged(s, anchorId, n, outside), NodeRect(Find(s.nodes, anchorId).value);
    MergedAbsorbs(s, anchorId, n, outside);
    AbsorbedIsJoined(t, anchorId, n, outside);
    forall e | e in t.edges ensures e in s.edges || OfNeighbor(e, anchorId, n, outside) {
      NewEdgesAreOfDirections(s, anchorId, anchor, Directions(n), outside, e);
      if OfDirections(e, anchorId, Directions(n), outside) {
        OfDirectionsMeans(e, anchorId, n, outside);
      }
    }
  }

  ghost predicate Joins(e: Edge, source: string, target: string, verb: bool) {
    e.source == source && e.target == target && e.verb == verb
  }

  /** Where no id holds a mark, an edge of that name runs between just those cards. */
  lemma NameTellsEnds(s: State, source: string, target: string, verb: bool)
    requires Orderly(s) && HasEdge(s.edges, source + (if verb then "=>" else "->") + target)
    requires '-' !in source && '=' !in source && forall id :: id in Ids(s.nodes) ==> '-' !in id && '=' !in id
    ensures exists e :: e in s.edges && Joins(e, source, target, verb)
  {
    var i :| 0 <= i < |s.edges| && s.edges[i].id == source + (if verb then "=>" else "->") + target;
    var e := s.edges[i];
    assert e in s.edges;
    EdgeIdsTellEdgesApart(e.source, e.target, e.verb, source, target, verb);
  }

  // ----- cards

  function NotIn(known: set<string>): NeighborRow -> bool {
    (r: NeighborRow) => r.address !in known
  }

  lemma {:induction false} FreshIsFilter(known: set<string>, rows: seq<NeighborRow>)
    ensures Fresh(known, rows) == Filter(rows, NotIn(known))
  {
    if rows != [] {
      FreshIsFilter(known, rows[1..]);
    }
  }

  /** A card for each of these rows, in their order. */
  ghost predicate CardsOf(cards: seq<Node>, rows: seq<NeighborRow>, role: RoleClass, outside: bool) {
    && |cards| == |rows|
    && forall i :: 0 <= i < |cards| ==>
         && cards[i].id == rows[i].address && cards[i].name == rows[i].name
         && cards[i].kind == (if outside then GhostCard else EntityCard)
         && cards[i].role == (if outside then GhostRole else role)
         && cards[i].expandable == !outside
  }

  function CardW(outside: bool): real {
    if outside then GHOST_W else NODE_W
  }

  function CardH(outside: bool): real {
    if outside then GHOST_H else NODE_H
  }

  /** The column's own top: half the cards and gaps above the centre. */
  function ColumnTop(centre: real, count: nat, h: real): real {
    centre - (count as real * h + (if count == 0 then 0.0 else (count - 1) as real) * ROW_GAP) / 2.0
  }

  /** Where the i-th card of the column belongs: at its top, or a gap beneath the card before it. */
  function Place(cards: seq<Node>, centre: real, h: real, i: nat): real
    requires i < |cards|
  {
    if i == 0 then ColumnTop(centre, |cards|, h) else cards[i-1].y + h + ROW_GAP
  }

  /** In one column, each card in its place or pushed down to one gap beneath something in the way. */
  ghost predicate InColumn(cards: seq<Node>, others: seq<Node>, x: real, centre: real, h: real) {
    forall i :: 0 <= i < |cards| ==>
      && cards[i].x == x && cards[i].y >= Place(cards, centre, h, i)
      && (cards[i].y == Place(cards, centre, h, i) || BeneathOne(cards[i], others + cards[..i]))
  }

  ghost predicate BeneathOne(card: Node, others: seq<Node>) {
    exists k :: 0 <= k < |others| && card.y == NodeRect(others[k]).y + NodeRect(others[k]).h + ROW_GAP
  }

  lemma {:induction false} HeightOfCards(count: nat, outside: bool)
    ensures TotalHeight(Boxes(count, outside)) == count as real * CardH(outside)
  {
    if count > 0 {
      HeightOfCards(count - 1, outside);
      assert Boxes(count, outside)[..count-1] == Boxes(count - 1, outside);
    }
  }

  /** The x and the centre line of a direction's column, seen from the anchor. */
  function XOf(anchor: Rect, dir: Dir, w: real): real {
    match dir
    case Left => anchor.x - COL_GAP - w
    case Right => anchor.x + anchor.w + COL_GAP
    case Up => anchor.x + 40.0
  }

  function CentreOf(anchor: Rect, dir: Dir, h: real): real {
    if dir == Up then anchor.y - COL_GAP - h else anchor.y + anchor.h / 2.0
  }

  lemma TopOfCards(centre: real, count: nat, outside: bool)
    ensures Top(centre, Boxes(count, outside)) == ColumnTop(centre, count, CardH(outside))
  {
    HeightOfCards(count, outside);
  }

  lemma PlacedInColumn(nodes: seq<Node>, anchor: Rect, dir: Dir, count: nat, outside: bool)
    ensures var placed := Placement(Rects(nodes), anchor, dir, count, outside);
            var y := ColumnTop(CentreOf(anchor, dir, CardH(outside)), count, CardH(outside));
            && Stacked(placed, XOf(anchor, dir, CardW(outside)), y, Boxes(count, outside))
            && PushedOnlyByObstacles(placed, y, Rects(nodes))
  {
    var x, centre := XOf(anchor, dir, CardW(outside)), CentreOf(anchor, dir, CardH(outside));
    PlacementIsColumn(Rects(nodes), anchor, dir, count, outside);
    TopOfCards(centre, count, outside);
    ColumnIsStacked(Rects(nodes), x, centre, Boxes(count, outside));
  }

  lemma PlacementIsColumn(occupied: seq<Rect>, anchor: Rect, dir: Dir, count: nat, outside: bool)
    ensures Placement(occupied, anchor, dir, count, outside)
         == Layout.Column(occupied, XOf(anchor, dir, CardW(outside)), CentreOf(anchor, dir, CardH(outside)),
                          Boxes(count, outside))
  {
  }

  lemma OneDirectionDraws(nodes: seq<Node>, anchor: Rect, d: Direction, outside: bool)
    requires d.role != Subject
    ensures var cards := NewNodes(nodes, anchor, d, outside);
            && CardsOf(cards, Filter(d.rows, NotIn(Ids(nodes))), d.role, outside)
            && InColumn(cards, nodes, XOf(anchor, d.dir, CardW(outside)), CentreOf(anchor, d.dir, CardH(outside)),
                        CardH(outside))
  {
    var cards, count := NewNodes(nodes, anchor, d, outside), |Fresh(Ids(nodes), d.rows)|;
    FreshIsFilter(Ids(nodes), d.rows);
    NewRects(nodes, anchor, d, outside);
    PlacedInColumn(nodes, anchor, d.dir, count, outside);
    var placed := Placement(Rects(nodes), anchor, d.dir, count, outside);
    forall i | 0 <= i < |cards|
      ensures cards[i].x == XOf(anchor, d.dir, CardW(outside))
      ensures cards[i].y >= Place(cards, CentreOf(anchor, d.dir, CardH(outside)), CardH(outside), i)
      ensures cards[i].y == Place(cards, CentreOf(anchor, d.dir, CardH(outside)), CardH(outside), i)
              || BeneathOne(cards[i], nodes + cards[..i])
    {
      OneCardPlaced(nodes, cards, placed, anchor, d.dir, outside, i);
    }
  }

  lemma OneCardPlaced(nodes: seq<Node>, cards: seq<Node>, placed: seq<Rect>, anchor: Rect, dir: Dir, outside: bool,
                      i: nat)
    requires i < |cards| && placed == Rects(cards)
    requires forall k :: 0 <= k < |cards| ==> NodeRect(cards[k]).h == CardH(outside)
    requires var y := ColumnTop(CentreOf(anchor, dir, CardH(outside)), |cards|, CardH(outside));
             && Stacked(placed, XOf(anchor, dir, CardW(outside)), y, Boxes(|cards|, outside))
             && PushedOnlyByObstacles(placed, y, Rects(nodes))
    ensures cards[i].x == XOf(anchor, dir, CardW(outside))
    ensures cards[i].y >= Place(cards, CentreOf(anchor, dir, CardH(outside)), CardH(outside), i)
    ensures cards[i].y == Place(cards, CentreOf(anchor, dir, CardH(outside)), CardH(outside), i)
            || BeneathOne(cards[i], nodes + cards[..i])
  {
    var y := ColumnTop(CentreOf(anchor, dir, CardH(outside)), |cards|, CardH(outside));
    assert placed[i] == NodeRect(cards[i]) && PushedAt(placed, y, Rects(nodes), i);
    if placed[i].y != Wanted(placed, y, i) {
      var o :| o in Rects(nodes) + placed[..i] && placed[i].y == Below(o);
      ObstacleIsCard(nodes, cards, i, o);
    }
  }

  lemma ObstacleIsCard(nodes: seq<Node>, cards: seq<Node>, i: nat, o: Rect)
    requires i < |cards| && o in Rects(nodes) + Rects(cards)[..i] && cards[i].y == Below(o)
    ensures BeneathOne(cards[i], nodes + cards[..i])
  {
    var all := Rects(nodes) + Rects(cards)[..i];
    var k :| 0 <= k < |all| && all[k] == o;
    assert all[k] == NodeRect((nodes + cards[..i])[k]);
  }

  lemma MergedInFive(s: State, anchorId: string, anchor: Rect, n: Neighbors, outside: bool)
    ensures var ds := Directions(n);
            var s1 := MergedOne(s, anchorId, anchor, ds[0], outside);
            var s2 := MergedOne(s1, anchorId, anchor, ds[1], outside);
            var s3 := MergedOne(s2, anchorId, anchor, ds[2], outside);
            var s4 := MergedOne(s3, anchorId, anchor, ds[3], outside);
            MergedAll(s, anchorId, anchor, ds, outside) == MergedOne(s4, anchorId, anchor, ds[4], outside)
  {
    var ds := Directions(n);
    var s1 := MergedOne(s, anchorId, anchor, ds[0], outside);
    var s2 := MergedOne(s1, anchorId, anchor, ds[1], outside);
    var s3 := MergedOne(s2, anchorId, anchor, ds[2], outside);
    var s4 := MergedOne(s3, anchorId, anchor, ds[3], outside);
    assert ds[0..] == ds;
    MergedStep(s, anchorId, anchor, ds, 0, outside, s1);
    MergedStep(s1, anchorId, anchor, ds, 1, outside, s2);
    MergedStep(s2, anchorId, anchor, ds, 2, outside, s3);
    MergedStep(s3, anchorId, anchor, ds, 3, outside, s4);
    MergedStep(s4, anchorId, anchor, ds, 4, outside, MergedOne(s4, anchorId, anchor, ds[4], outside));
  }

  lemma MergedStep(s: State, anchorId: string, anchor: Rect, ds: seq<Direction>, k: nat, outside: bool, t: State)
    requires k < |ds| && t == MergedOne(s, anchorId, anchor, ds[k], outside)
    ensures MergedAll(s, anchorId, anchor, ds[k..], outside) == MergedAll(t, anchorId, anchor, ds[k+1..], outside)
    ensures k + 1 == |ds| ==> MergedAll(s, anchorId, anchor, ds[k..], outside) == t
  {
    assert ds[k..][0] == ds[k] && ds[k..][1..] == ds[k+1..];
  }

  /** The cards a list adds: one for each of its rows not on the canvas yet, in one column beside the anchor. */
  ghost predicate Column(cards: seq<Node>, before: seq<Node>, anchor: Rect, rows: seq<NeighborRow>, role: RoleClass,
                         dir: Dir, outside: bool)
  {
    && CardsOf(cards, Filter(rows, NotIn(Ids(before))), role, outside)
    && InColumn(cards, before, XOf(anchor, dir, CardW(outside)), CentreOf(anchor, dir, CardH(outside)), CardH(outside))
  }

  lemma OneListDraws(s: State, anchorId: string, anchor: Rect, d: Direction, outside: bool) returns (cards: seq<Node>)
    requires d.role != Subject
    ensures MergedOne(s, anchorId, anchor, d, outside).nodes == s.nodes + cards
    ensures Column(cards, s.nodes, anchor, d.rows, d.role, d.dir, outside)
  {
    cards := NewNodes(s.nodes, anchor, d, outside);
    OneDirectionDraws(s.nodes, anchor, d, outside);
  }

  /**
   A merge adds five columns, list by list: payers left of the anchor, payees right of it,
   facilitators above, then whoever else it settled for, payers left and payees right.
   Every card keeps the role of the first list that names it.
   */
  lemma MergeDraws(s: State, anchorId: string, n: Neighbors, outside: bool)
    returns (payers: seq<Node>, payees: seq<Node>, facilitators: seq<Node>, settledPayers: seq<Node>,
             settledPayees: seq<Node>)
    requires anchorId in Ids(s.nodes)
    ensures var anchor := NodeRect(Find(s.nodes, anchorId).value);
            var with1 := s.nodes + payers;
            var with2 := with1 + payees;
            var with3 := with2 + facilitators;
            var with4 := with3 + settledPayers;
            && Merged(s, anchorId, n, outside).nodes == with4 + settledPayees
            && Column(payers, s.nodes, anchor, n.payers, Payer, Left, outside)
            && Column(payees, with1, anchor, n.payees, Payee, Right, outside)
            && Column(facilitators, with2, anchor, n.facilitators, Facilitator, Up, outside)
            && Column(settledPayers, with3, anchor, n.settledPayers, Payer, Left, outside)
            && Column(settledPayees, with4, anchor, n.settledPayees, Payee, Right, outside)
  {
    var anchor, ds := NodeRect(Find(s.nodes, anchorId).value), Directions(n);
    MergedInFive(s, anchorId, anchor, n, outside);
    payers := OneListDraws(s, anchorId, anchor, ds[0], outside);
    var s1 := MergedOne(s, anchorId, anchor, ds[0], outside);
    payees := OneListDraws(s1, anchorId, anchor, ds[1], outside);
    var s2 := MergedOne(s1, anchorId, anchor, ds[1], outside);
    facilitators := OneListDraws(s2, anchorId, anchor, ds[2], outside);
    var s3 := MergedOne(s2, anchorId, anchor, ds[2], outside);
    settledPayers := OneListDraws(s3, anchorId, anchor, ds[3], outside);
    var s4 := MergedOne(s3, anchorId, anchor, ds[3], outside);
    settledPayees := OneListDraws(s4, anchorId, anchor, ds[4], outside);
  }

  // ----- an expansion

  ghost predicate InLensCard(c: Node) {
    c.kind == EntityCard && c.expandable && c.role in {Payer, Payee, Facilitator}
  }

  ghost predicate AddsInLens(before: seq<Node>, after: seq<Node>) {
    before <= after && forall i :: |before| <= i < |after| ==> InLensCard(after[i])
  }

  lemma OneListInLens(s: State, anchorId: string, anchor: Rect, d: Direction)
    requires d.role in {Payer, Payee, Facilitator}
    ensures AddsInLens(s.nodes, MergedOne(s, anchorId, anchor, d, false).nodes)
  {
    var cards := OneListDraws(s, anchorId, anchor, d, false);
    assert CardsOf(cards, Filter(d.rows, NotIn(Ids(s.nodes))), d.role, false);
  }

  lemma {:induction false} ListsInLens(s: State, anchorId: string, anchor: Rect, ds: seq<Direction>)
    requires forall i :: 0 <= i < |ds| ==> ds[i].role in {Payer, Payee, Facilitator}
    ensures AddsInLens(s.nodes, MergedAll(s, anchorId, anchor, ds, false).nodes)
    decreases |ds|
  {
    if ds != [] {
      OneListInLens(s, anchorId, anchor, ds[0]);
      ListsInLens(MergedOne(s, anchorId, anchor, ds[0], false), anchorId, anchor, ds[1..]);
    }
  }

  /** Expanding a card adds only cards and edges within the lens, and joins the card to every one of its neighbours. */
  lemma ExpansionDraws(s: State, parent: string, n: Neighbors)
    requires Orderly(s) && parent in Ids(s.nodes)
    ensures var t := Expanded(s, parent, n);
            && AddsInLens(s.nodes, t.nodes) && EveryRowJoined(t.edges, parent, n)
            && forall e :: e in t.edges ==> e in s.edges || OfNeighbor(e, parent, n, false)
  {
    ListsInLens(s, parent, NodeRect(Find(s.nodes, parent).value), Directions(n));
    MergeJoins(s, parent, n, false);
  }

  // ----- which rows are ghosts

  /** In the order of the all lens, payers before payees: whoever the known lens does not name. */
  function Unnamed(known: Neighbors, all: Neighbors): seq<NeighborRow> {
    Filter(all.payers + all.payees, NotIn(Addresses(known.payers) + Addresses(known.payees)))
  }

  /** The ghosts are the first of them, four at most. */
  lemma GhostsAreUnnamed(known: Neighbors, all: Neighbors)
    ensures var ghosts := GhostRows(DirectionRows(known), DirectionRows(all), GHOST_CAP);
            && ghosts <= Unnamed(known, all)
            && |ghosts| == (if |Unnamed(known, all)| < 4 then |Unnamed(known, all)| else 4)
  {
    FreshIsFilter(Addresses(DirectionRows(known)), DirectionRows(all));
    assert Addresses(known.payers + known.payees) == Addresses(known.payers) + Addresses(known.payees);
  }

  // ----- the first canvas

  lemma NoRowsNoCards(cards: seq<Node>, before: seq<Node>, anchor: Rect, role: RoleClass, dir: Dir, outside: bool)
    requires Column(cards, before, anchor, [], role, dir, outside)
    ensures cards == []
  {
  }

  /** The subject's own card, at the origin. */
  function SubjectCard(subject: string, name: Option<string>): Node {
    Node(subject, EntityCard, Subject, 0.0, 0.0, name, false)
  }

  lemma GhostsAreOneColumn(s: State, subject: string, ghosts: seq<NeighborRow>) returns (cards: seq<Node>)
    requires subject in Ids(s.nodes)
    ensures Merged(s, subject, GhostNeighbors(ghosts), true).nodes == s.nodes + cards
    ensures Column(cards, s.nodes, NodeRect(Find(s.nodes, subject).value), ghosts, Payee, Right, true)
  {
    var anchor := NodeRect(Find(s.nodes, subject).value);
    var a, b, c, d, e := MergeDraws(s, subject, GhostNeighbors(ghosts), true);
    NoRowsNoCards(a, s.nodes, anchor, Payer, Left, true);
    assert s.nodes + a == s.nodes;
    NoRowsNoCards(c, s.nodes + b, anchor, Facilitator, Up, true);
    assert s.nodes + b + c == s.nodes + b;
    NoRowsNoCards(d, s.nodes + b, anchor, Payer, Left, true);
    assert s.nodes + b + d == s.nodes + b;
    NoRowsNoCards(e, s.nodes + b, anchor, Payee, Right, true);
    cards := b;
  }

  /** Ghosts only add a column to the right, of rows not on the canvas, and edges to them marked as outside the lens. */
  lemma GhostsDraw(s: State, subject: string, ghosts: seq<NeighborRow>) returns (cards: seq<Node>)
    requires Orderly(s) && subject in Ids(s.nodes)
    ensures var t := Merged(s, subject, GhostNeighbors(ghosts), true);
            && t.nodes == s.nodes + cards
            && Column(cards, s.nodes, NodeRect(Find(s.nodes, subject).value), ghosts, Payee, Right, true)
            && (forall e :: e in t.edges ==>
                  e in s.edges || exists r :: r in ghosts && e == FlowEdge(subject, r.address, r.share, true))
            && (forall r :: r in ghosts ==> HasEdge(t.edges, subject + "->" + r.address))
  {
    cards := GhostsAreOneColumn(s, subject, ghosts);
    MergeJoins(s, subject, GhostNeighbors(ghosts), true);
  }

  ghost predicate NewOnCanvas(e: Edge, subject: string, n: Neighbors, ghosts: seq<NeighborRow>) {
    || OfNeighbor(e, subject, n, false)
    || exists r :: r in ghosts && e == FlowEdge(subject, r.address, r.share, true)
  }

  /** Marking an edge changes neither which edges there are nor their names. */
  lemma MarkChangesNoEdge(before: seq<Edge>, after: seq<Edge>, marked: Option<nat>)
    requires MarkedAt(before, after, marked)
    ensures forall e :: e in after ==> e.(primary := false) in before
    ensures forall id :: HasEdge(before, id) ==> HasEdge(after, id)
  {
    forall id | HasEdge(before, id) ensures HasEdge(after, id) {
      var i :| 0 <= i < |before| && before[i].id == id;
      assert after[i].id == id;
    }
    forall e | e in after ensures e.(primary := false) in before {
      var i :| 0 <= i < |after| && after[i] == e;
      assert e.(primary := false) == before[i];
    }
  }

  lemma MarkedAreNew(before: seq<Edge>, after: seq<Edge>, subject: string, n: Neighbors, ghosts: seq<NeighborRow>)
    requires forall e :: e in before ==> NewOnCanvas(e, subject, n, ghosts)
    requires forall e :: e in after ==> e.(primary := false) in before
    ensures forall e :: e in after ==> NewOnCanvas(e.(primary := false), subject, n, ghosts)
  {
  }

  lemma JoinedByName(before: seq<Edge>, after: seq<Edge>, anchorId: string, n: Neighbors)
    requires EveryRowJoined(before, anchorId, n) && forall id :: HasEdge(before, id) ==> HasEdge(after, id)
    ensures EveryRowJoined(after, anchorId, n)
  {
  }

  lemma JoinedInMore(before: seq<Edge>, after: seq<Edge>, anchorId: string, n: Neighbors)
    requires EveryRowJoined(before, anchorId, n) && before <= after
    ensures EveryRowJoined(after, anchorId, n)
  {
    forall id | HasEdge(before, id) ensures HasEdge(after, id) {
      HasEdgeInMore(before, after, id);
    }
    JoinedByName(before, after, anchorId, n);
  }

  /** The canvas before an edge is marked: the subject, then its neighbours, then its ghosts. */
  lemma UnmarkedDraws(subject: string, name: Option<string>, n: Neighbors, ghosts: seq<NeighborRow>)
    returns (inLens: State, cards: seq<Node>)
    ensures inLens == Merged(State([SubjectCard(subject, name)], []), subject, n, false)
    ensures var t := Unmarked(subject, name, n, ghosts);
            && t.nodes == inLens.nodes + cards
            && Column(cards, inLens.nodes, Rect(0.0, 0.0, NODE_W, NODE_H + 40.0), ghosts, Payee, Right, true)
            && (forall e :: e in t.edges ==> NewOnCanvas(e, subject, n, ghosts))
            && EveryRowJoined(t.edges, subject, n)
            && forall r :: r in ghosts ==> HasEdge(t.edges, subject + "->" + r.address)
  {
    inLens := InLensDraws(subject, name, n);
    if ghosts == [] {
      cards := [];
      assert Filter(ghosts, NotIn(Ids(inLens.nodes))) == [] && inLens.nodes + cards == inLens.nodes;
    } else {
      cards := GhostsDraw(inLens, subject, ghosts);
      var t := Unmarked(subject, name, n, ghosts);
      MergedKeeps(inLens, subject, GhostNeighbors(ghosts), true);
      JoinedInMore(inLens.edges, t.edges, subject, n);
    }
  }

  lemma InLensDraws(subject: string, name: Option<string>, n: Neighbors) returns (t: State)
    ensures t == Merged(State([SubjectCard(subject, name)], []), subject, n, false)
    ensures t == Merged(Initial(subject, name), subject, n, false)
    ensures Orderly(t) && subject in Ids(t.nodes)
    ensures Find(t.nodes, subject) == Some(SubjectCard(subject, name))
    ensures (forall e :: e in t.edges ==> OfNeighbor(e, subject, n, false)) && EveryRowJoined(t.edges, subject, n)
  {
    var s := Initial(subject, name);
    InitialIsOrderly(subject, name);
    t := Merged(s, subject, n, false);
    MergedKeeps(s, subject, n, false);
    MergeJoins(s, subject, n, false);
    assert t.nodes[0] == SubjectCard(subject, name) && t.nodes[0] in t.nodes;
  }

  /** The built canvas is that one but for the mark. */
  lemma BuildDraws(subject: string, name: Option<string>, n: Neighbors, ghosts: seq<NeighborRow>)
    returns (inLens: State, cards: seq<Node>)
    ensures inLens == Merged(State([SubjectCard(subject, name)], []), subject, n, false)
    ensures var t := Built(subject, name, n, ghosts);
            && t.nodes == inLens.nodes + cards
            && Column(cards, inLens.nodes, Rect(0.0, 0.0, NODE_W, NODE_H + 40.0), ghosts, Payee, Right, true)
            && (forall e :: e in t.edges ==> NewOnCanvas(e.(primary := false), subject, n, ghosts))
            && EveryRowJoined(t.edges, subject, n)
            && forall r :: r in ghosts ==> HasEdge(t.edges, subject + "->" + r.address)
  {
    inLens, cards := UnmarkedDraws(subject, name, n, ghosts);
    var plain, t := Unmarked(subject, name, n, ghosts), Built(subject, name, n, ghosts);
    var marked := OnePrimary(subject, name, n, ghosts);
    MarkChangesNoEdge(plain.edges, t.edges, marked);
    MarkedAreNew(plain.edges, t.edges, subject, n, ghosts);
    JoinedByName(plain.edges, t.edges, subject, n);
  }

  // ----- the order of the edges

  function EdgeIds(edges: seq<Edge>): (r: seq<string>)
    ensures |r| == |edges| && forall i :: 0 <= i < |r| ==> r[i] == edges[i].id
  {
    seq(|edges|, i requires 0 <= i < |edges| => edges[i].id)
  }

  function AllIds(edges: seq<Edge>): set<string> {
    SetOf(EdgeIds(edges))
  }

  function NamesTo(rows: seq<NeighborRow>, mark: string, anchorId: string): (r: seq<string>)
    ensures |r| == |rows| && forall i :: 0 <= i < |r| ==> r[i] == rows[i].address + mark + anchorId
  {
    seq(|rows|, i requires 0 <= i < |rows| => rows[i].address + mark + anchorId)
  }

  function NamesFrom(anchorId: string, mark: string, rows: seq<NeighborRow>): (r: seq<string>)
    ensures |r| == |rows| && forall i :: 0 <= i < |r| ==> r[i] == anchorId + mark + rows[i].address
  {
    seq(|rows|, i requires 0 <= i < |rows| => anchorId + mark + rows[i].address)
  }

  function RowNames(anchorId: string, d: Direction, rows: seq<NeighborRow>): (r: seq<string>)
    ensures |r| == |rows| && forall i :: 0 <= i < |r| ==> r[i] == RowEdge(anchorId, d, rows[i], false).id
  {
    seq(|rows|, i requires 0 <= i < |rows| => RowEdge(anchorId, d, rows[i], false).id)
  }

  lemma HasEdgeIsId(edges: seq<Edge>, id: string)
    ensures HasEdge(edges, id) <==> id in AllIds(edges)
  {
    if HasEdge(edges, id) {
      var i :| 0 <= i < |edges| && edges[i].id == id;
      assert EdgeIds(edges)[i] == id;
    }
    if id in EdgeIds(edges) {
      var i :| 0 <= i < |edges| && EdgeIds(edges)[i] == id;
      assert edges[i].id == id;
    }
  }

  lemma {:induction false} RowsInOrder(edges: seq<Edge>, anchorId: string, d: Direction, rows: seq<NeighborRow>,
                                       outside: bool)
    ensures EdgeIds(AddEdges(edges, anchorId, d, rows, outside))
         == EdgeIds(edges) + FirstMentions(AllIds(edges), RowNames(anchorId, d, rows))
    decreases |rows|
  {
    if rows != [] {
      var e := RowEdge(anchorId, d, rows[0], outside);
      var more := if HasEdge(edges, e.id) then edges else edges + [e];
      RowsInOrder(more, anchorId, d, rows[1..], outside);
      FirstName(anchorId, d, rows, outside);
      if HasEdge(edges, e.id) {
        KnownEdge(edges, e.id, RowNames(anchorId, d, rows[1..]));
      } else {
        NewEdge(edges, e, RowNames(anchorId, d, rows[1..]));
      }
    }
  }

  lemma FirstName(anchorId: string, d: Direction, rows: seq<NeighborRow>, outside: bool)
    requires rows != []
    ensures RowNames(anchorId, d, rows)
         == [RowEdge(anchorId, d, rows[0], outside).id] + RowNames(anchorId, d, rows[1..])
  {
  }

  lemma KnownEdge(edges: seq<Edge>, id: string, names: seq<string>)
    requires HasEdge(edges, id)
    ensures FirstMentions(AllIds(edges), [id] + names) == FirstMentions(AllIds(edges), names)
  {
    HasEdgeIsId(edges, id);
    MentionFirst(AllIds(edges), id, names);
    assert AllIds(edges) + {id} == AllIds(edges);
  }

  lemma NewEdge(edges: seq<Edge>, e: Edge, names: seq<string>)
    requires !HasEdge(edges, e.id)
    ensures EdgeIds(edges + [e]) + FirstMentions(AllIds(edges + [e]), names)
         == EdgeIds(edges) + FirstMentions(AllIds(edges), [e.id] + names)
  {
    HasEdgeIsId(edges, e.id);
    OneMoreId(edges, e);
    MentionFirst(AllIds(edges), e.id, names);
    Regroup(EdgeIds(edges), [e.id], FirstMentions(AllIds(edges) + {e.id}, names));
  }

  lemma OneMoreId(edges: seq<Edge>, e: Edge)
    ensures EdgeIds(edges + [e]) == EdgeIds(edges) + [e.id] && AllIds(edges + [e]) == AllIds(edges) + {e.id}
  {
    assert EdgeIds(edges + [e]) == EdgeIds(edges) + [e.id];
  }

  function ListNames(anchorId: string, ds: seq<Direction>): seq<string> {
    if ds == [] then [] else RowNames(anchorId, ds[0], ds[0].rows) + ListNames(anchorId, ds[1..])
  }

  lemma {:induction false} ListsInOrder(s: State, anchorId: string, anchor: Rect, ds: seq<Direction>, outside: bool)
    ensures EdgeIds(MergedAll(s, anchorId, anchor, ds, outside).edges)
         == EdgeIds(s.edges) + FirstMentions(AllIds(s.edges), ListNames(anchorId, ds))
    decreases |ds|
  {
    if ds != [] {
      var names := RowNames(anchorId, ds[0], ds[0].rows);
      var t := MergedOne(s, anchorId, anchor, ds[0], outside);
      RowsInOrder(s.edges, anchorId, ds[0], ds[0].rows, outside);
      ListsInOrder(t, anchorId, anchor, ds[1..], outside);
      MentionsGoOn(EdgeIds(s.edges), names, ListNames(anchorId, ds[1..]));
    }
  }

  /** The edges the rows ask for, list by list and row by row. */
  function AskedFor(anchorId: string, n: Neighbors): seq<string> {
    NamesTo(n.payers, "->", anchorId) + NamesFrom(anchorId, "->", n.payees) + NamesTo(n.facilitators, "=>", anchorId)
    + NamesTo(n.settledPayers, "=>", anchorId) + NamesFrom(anchorId, "=>", n.settledPayees)
  }

  /** New edges follow the old ones in the order they are first asked for, so each once. */
  lemma EdgesInOrder(s: State, anchorId: string, n: Neighbors, outside: bool)
    requires anchorId in Ids(s.nodes)
    ensures EdgeIds(Merged(s, anchorId, n, outside).edges)
         == EdgeIds(s.edges) + FirstMentions(AllIds(s.edges), AskedFor(anchorId, n))
  {
    ListsInOrder(s, anchorId, NodeRect(Find(s.nodes, anchorId).value), Directions(n), outside);
    FiveLists(anchorId, n);
  }

  lemma ListNamesJoin(anchorId: string, d: Direction, ds: seq<Direction>)
    ensures ListNames(anchorId, [d] + ds) == RowNames(anchorId, d, d.rows) + ListNames(anchorId, ds)
  {
    assert ([d] + ds)[0] == d && ([d] + ds)[1..] == ds;
  }

  lemma FiveInARow(anchorId: string, a: Direction, b: Direction, c: Direction, d: Direction, e: Direction)
    ensures ListNames(anchorId, [a] + ([b] + ([c] + ([d] + ([e] + [])))))
         == RowNames(anchorId, a, a.rows) + (RowNames(anchorId, b, b.rows) + (RowNames(anchorId, c, c.rows)
            + (RowNames(anchorId, d, d.rows) + (RowNames(anchorId, e, e.rows) + []))))
  {
    ListNamesJoin(anchorId, e, []);
    ListNamesJoin(anchorId, d, [e] + []);
    ListNamesJoin(anchorId, c, [d] + ([e] + []));
    ListNamesJoin(anchorId, b, [c] + ([d] + ([e] + [])));
    ListNamesJoin(anchorId, a, [b] + ([c] + ([d] + ([e] + []))));
  }

  lemma TowardsAnchor(anchorId: string, d: Direction)
    requires d.toAnchor
    ensures RowNames(anchorId, d, d.rows) == NamesTo(d.rows, if d.settles then "=>" else "->", anchorId)
  {
  }

  lemma FromAnchor(anchorId: string, d: Direction)
    requires !d.toAnchor
    ensures RowNames(anchorId, d, d.rows) == NamesFrom(anchorId, if d.settles then "=>" else "->", d.rows)
  {
  }

  lemma FiveLists(anchorId: string, n: Neighbors)
    ensures ListNames(anchorId, Directions(n)) == AskedFor(anchorId, n)
  {
    var ds := Directions(n);
    FiveInARow(anchorId, ds[0], ds[1], ds[2], ds[3], ds[4]);
    TowardsAnchor(anchorId, ds[0]);
    FromAnchor(anchorId, ds[1]);
    TowardsAnchor(anchorId, ds[2]);
    TowardsAnchor(anchorId, ds[3]);
    FromAnchor(anchorId, ds[4]);
    FiveListed(ds);
  }

  lemma FiveListed(ds: seq<Direction>)
    requires |ds| == 5
    ensures ds == [ds[0]] + ([ds[1]] + ([ds[2]] + ([ds[3]] + ([ds[4]] + []))))
  {
  }
}
