/**
 The entity canvas: the subject's first graph, merging an anchor's neighbours into
 it, and the out-of-lens ghosts.  A node's id is its address.
 */
module Graph {
  import opened Layout
  import opened Wrappers

  const SUBJECT_H: real := NODE_H + 40.0

  datatype RoleClass = Subject | Payer | Payee | Facilitator | GhostRole
  datatype Kind = EntityCard | GhostCard

  /** share is the row's share as the number it is converted to. */
  datatype NeighborRow = NeighborRow(address: string, name: Option<string>, share: real)

  datatype Node = Node(
    id: string, kind: Kind, role: RoleClass, x: real, y: real, name: Option<string>, expandable: bool)

  datatype Edge = Edge(
    id: string, source: string, target: string, verb: bool, share: Option<real>, outside: bool, primary: bool)

  datatype State = State(nodes: seq<Node>, edges: seq<Edge>)

  /** A list the server left out is empty. */
  datatype Neighbors = Neighbors(
    payers: seq<NeighborRow>,
    payees: seq<NeighborRow>,
    facilitators: seq<NeighborRow>,
    settledPayers: seq<NeighborRow>,
    settledPayees: seq<NeighborRow>)

  datatype Direction = Direction(rows: seq<NeighborRow>, dir: Dir, toAnchor: bool, settles: bool, role: RoleClass)

  function Directions(n: Neighbors): seq<Direction> {
    [ Direction(n.payers, Left, true, false, Payer),
      Direction(n.payees, Right, false, false, Payee),
      Direction(n.facilitators, Up, true, true, Facilitator),
      Direction(n.settledPayers, Left, true, true, Payer),
      Direction(n.settledPayees, Right, false, true, Payee) ]
  }

  function NodeRect(n: Node): Rect {
    var outside := n.kind == GhostCard;
    Rect(n.x, n.y,
         if outside then GHOST_W else NODE_W,
         if outside then GHOST_H else if n.role == Subject then SUBJECT_H else NODE_H)
  }

  function Rects(nodes: seq<Node>): (r: seq<Rect>)
    ensures |r| == |nodes| && forall i :: 0 <= i < |r| ==> r[i] == NodeRect(nodes[i])
  {
    seq(|nodes|, i requires 0 <= i < |nodes| => NodeRect(nodes[i]))
  }

  function Ids(nodes: seq<Node>): set<string> {
    set n | n in nodes :: n.id
  }

  function Addresses(rows: seq<NeighborRow>): set<string> {
    set r | r in rows :: r.address
  }

  function Find(nodes: seq<Node>, id: string): (n: Option<Node>)
    ensures n.Some? <==> id in Ids(nodes)
    ensures n.Some? ==> n.value in nodes && n.value.id == id
    ensures n.Some? ==> exists i :: 0 <= i < |nodes| && nodes[i] == n.value && id !in Ids(nodes[..i])
  {
    if nodes == [] then None
    else if nodes[0].id == id then
      assert id !in Ids(nodes[..0]);
      Some(nodes[0])
    else
      assert nodes == [nodes[0]] + nodes[1..];
      var n := Find(nodes[1..], id);
      if n.Some? then
        var i :| 0 <= i < |nodes[1..]| && nodes[1..][i] == n.value && id !in Ids(nodes[1..][..i]);
        assert nodes[..i+1] == [nodes[0]] + nodes[1..][..i];
        assert nodes[i+1] == n.value && id !in Ids(nodes[..i+1]);
        n
      else n
  }

  function CardBox(outside: bool): Box {
    if outside then Box(GHOST_W, GHOST_H) else Box(NODE_W, NODE_H)
  }

  /** name is the row's label. */
  function MakeNode(r: NeighborRow, role: RoleClass, rect: Rect, outside: bool): Node {
    Node(r.address, if outside then GhostCard else EntityCard, role, rect.x, rect.y, r.name, !outside)
  }

  function EdgeId(source: string, target: string, settles: bool): string {
    source + (if settles then "=>" else "->") + target
  }

  function MakeEdge(source: string, target: string, r: NeighborRow, settles: bool, outside: bool): Edge {
    if settles then Edge(EdgeId(source, target, true), source, target, true, None, false, false)
    else Edge(EdgeId(source, target, false), source, target, false, Some(r.share), outside, false)
  }

  // ----- merging one direction

  /** The rows whose address is not on the canvas yet. */
  function Fresh(known: set<string>, rows: seq<NeighborRow>): (r: seq<NeighborRow>)
    ensures forall x :: x in r <==> x in rows && x.address !in known
  {
    if rows == [] then []
    else (if rows[0].address in known then [] else [rows[0]]) + Fresh(known, rows[1..])
  }

  function Boxes(count: nat, outside: bool): (b: seq<Box>)
    ensures |b| == count && forall i :: 0 <= i < count ==> b[i] == CardBox(outside)
  {
    seq(count, _ => CardBox(outside))
  }

  function Placement(occupied: seq<Rect>, anchor: Rect, dir: Dir, count: nat, outside: bool): seq<Rect> {
    var box := CardBox(outside);
    if dir == Up then Column(occupied, anchor.x + 40.0, anchor.y - COL_GAP - box.h, Boxes(count, outside))
    else Column(occupied, ColumnX(anchor, dir, box.w), anchor.y + anchor.h / 2.0, Boxes(count, outside))
  }

  function MakeNodes(newcomers: seq<NeighborRow>, role: RoleClass, rects: seq<Rect>, outside: bool): (ns: seq<Node>)
    requires |newcomers| <= |rects|
    ensures |ns| == |newcomers|
    ensures forall i :: 0 <= i < |ns| ==> ns[i] == MakeNode(newcomers[i], role, rects[i], outside)
  {
    seq(|newcomers|, i requires 0 <= i < |newcomers| => MakeNode(newcomers[i], role, rects[i], outside))
  }

  predicate HasEdge(edges: seq<Edge>, id: string) {
    exists i :: 0 <= i < |edges| && edges[i].id == id
  }

  function RowEdge(anchorId: string, d: Direction, r: NeighborRow, outside: bool): Edge {
    if d.toAnchor then MakeEdge(r.address, anchorId, r, d.settles, outside)
    else MakeEdge(anchorId, r.address, r, d.settles, outside)
  }

  function AddEdges(edges: seq<Edge>, anchorId: string, d: Direction, rows: seq<NeighborRow>, outside: bool): seq<Edge>
    decreases |rows|
  {
    if rows == [] then edges
    else
      var e := RowEdge(anchorId, d, rows[0], outside);
      AddEdges(if HasEdge(edges, e.id) then edges else edges + [e], anchorId, d, rows[1..], outside)
  }

  function NewNodes(nodes: seq<Node>, anchor: Rect, d: Direction, outside: bool): seq<Node> {
    var newcomers := Fresh(Ids(nodes), d.rows);
    var rects := Placement(Rects(nodes), anchor, d.dir, |newcomers|, outside);
    PlacementIsApart(Rects(nodes), anchor, d.dir, |newcomers|, outside);
    MakeNodes(newcomers, if outside then GhostRole else d.role, rects, outside)
  }

  lemma ColumnOfCards(occupied: seq<Rect>, x: real, centerY: real, count: nat, outside: bool)
    ensures var rects := Column(occupied, x, centerY, Boxes(count, outside));
            && |rects| == count
            && (forall i :: 0 <= i < count ==> Box(rects[i].w, rects[i].h) == CardBox(outside))
            && (Apart(occupied) ==> Apart(occupied + rects))
  {
    var sizes := Boxes(count, outside);
    StackIsStacked(occupied, x, Top(centerY, sizes), sizes);
    if Apart(occupied) {
      ColumnKeepsApart(occupied, x, centerY, sizes);
    }
  }

  lemma PlacementIsApart(occupied: seq<Rect>, anchor: Rect, dir: Dir, count: nat, outside: bool)
    ensures var rects := Placement(occupied, anchor, dir, count, outside);
            && |rects| == count
            && (forall i :: 0 <= i < count ==> Box(rects[i].w, rects[i].h) == CardBox(outside))
            && (Apart(occupied) ==> Apart(occupied + rects))
  {
    var box := CardBox(outside);
    if dir == Up {
      ColumnOfCards(occupied, anchor.x + 40.0, anchor.y - COL_GAP - box.h, count, outside);
    } else {
      ColumnOfCards(occupied, ColumnX(anchor, dir, box.w), anchor.y + anchor.h / 2.0, count, outside);
    }
  }

  function MergedOne(s: State, anchorId: string, anchor: Rect, d: Direction, outside: bool): State {
    State(s.nodes + NewNodes(s.nodes, anchor, d, outside), AddEdges(s.edges, anchorId, d, d.rows, outside))
  }

  function MergedAll(s: State, anchorId: string, anchor: Rect, ds: seq<Direction>, outside: bool): State
    decreases |ds|
  {
    if ds == [] then s
    else MergedAll(MergedOne(s, anchorId, anchor, ds[0], outside), anchorId, anchor, ds[1..], outside)
  }

  function Merged(s: State, anchorId: string, n: Neighbors, outside: bool): State {
    var anchor := Find(s.nodes, anchorId);
    if anchor.None? then s else MergedAll(s, anchorId, NodeRect(anchor.value), Directions(n), outside)
  }

  method Merge(s: State, anchorId: string, n: Neighbors, outside: bool) returns (r: State)
    ensures r == Merged(s, anchorId, n, outside)
  {
    var nodes, edges := s.nodes, s.edges;
    var found := Find(nodes, anchorId);
    if found.None? {
      return s;
    }
    var anchor := NodeRect(found.value);
    var ds := Directions(n);
    for k := 0 to |ds|
      invariant MergedAll(State(nodes, edges), anchorId, anchor, ds[k..], outside) == Merged(s, anchorId, n, outside)
    {
      var d := ds[k];
      assert ds[k..][0] == d && ds[k..][1..] == ds[k+1..];
      nodes := PushFresh(nodes, anchor, d, outside);
      edges := PushEdges(edges, anchorId, d, outside);
    }
    r := State(nodes, edges);
  }

  method PlaceFresh(occupied: seq<Rect>, anchor: Rect, dir: Dir, count: nat, outside: bool) returns (rects: seq<Rect>)
    ensures rects == Placement(occupied, anchor, dir, count, outside)
  {
    var box := CardBox(outside);
    if dir == Up {
      rects := PlaceColumn(occupied, anchor.x + 40.0, anchor.y - COL_GAP - box.h, Boxes(count, outside));
    } else {
      rects := PlaceColumn(occupied, ColumnX(anchor, dir, box.w), anchor.y + anchor.h / 2.0, Boxes(count, outside));
    }
  }

  method PushFresh(before: seq<Node>, anchor: Rect, d: Direction, outside: bool) returns (nodes: seq<Node>)
    ensures nodes == before + NewNodes(before, anchor, d, outside)
  {
    nodes := before;
    var newcomers := Fresh(Ids(nodes), d.rows);
    if |newcomers| > 0 {
      var rects := PlaceFresh(Rects(nodes), anchor, d.dir, |newcomers|, outside);
      PlacementIsApart(Rects(nodes), anchor, d.dir, |newcomers|, outside);
      nodes := PushCards(nodes, newcomers, if outside then GhostRole else d.role, rects, outside);
    }
  }

  method PushCards(before: seq<Node>, newcomers: seq<NeighborRow>, role: RoleClass, rects: seq<Rect>, outside: bool)
    returns (nodes: seq<Node>)
    requires |newcomers| <= |rects|
    ensures nodes == before + MakeNodes(newcomers, role, rects, outside)
  {
    nodes := before;
    ghost var all := MakeNodes(newcomers, role, rects, outside);
    for i := 0 to |newcomers|
      invariant nodes == before + all[..i]
    {
      assert all[..i+1] == all[..i] + [all[i]];
      nodes := nodes + [MakeNode(newcomers[i], role, rects[i], outside)];
    }
  }

  method PushEdges(before: seq<Edge>, anchorId: string, d: Direction, outside: bool) returns (edges: seq<Edge>)
    ensures edges == AddEdges(before, anchorId, d, d.rows, outside)
  {
    edges := before;
    for i := 0 to |d.rows|
      invariant AddEdges(edges, anchorId, d, d.rows[i..], outside) == AddEdges(before, anchorId, d, d.rows, outside)
    {
      var r := d.rows[i];
      assert d.rows[i..][0] == r && d.rows[i..][1..] == d.rows[i+1..];
      var source, target := if d.toAnchor then r.address else anchorId, if d.toAnchor then anchorId else r.address;
      if !HasEdge(edges, EdgeId(source, target, d.settles)) {
        edges := edges + [MakeEdge(source, target, r, d.settles, outside)];
      }
    }
  }
}
