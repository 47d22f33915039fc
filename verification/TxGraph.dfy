/** The transaction dossier on the canvas: four lanes around the transaction card. */
module TxGraph {
  import opened Layout
  import opened Positions
  import opened Roles
  import opened Wrappers

  datatype NodeKind = Transaction | Address | Event
  datatype GraphNode = GraphNode(id: string, kind: NodeKind, roles: seq<Role>)
  datatype Lane = LeftLane | RightLane | UpLane | DownLane
  datatype FlowNode = FlowNode(id: string, kind: NodeKind, rect: Rect)

  function LaneOf(n: GraphNode): Lane {
    if n.kind == Event then DownLane
    else if PayerRole in n.roles then LeftLane
    else if FacilitatorRole in n.roles && PayeeRole !in n.roles then UpLane
    else RightLane
  }

  function Members(nodes: seq<GraphNode>, lane: Lane): seq<GraphNode> {
    if nodes == [] then []
    else
      var n := nodes[|nodes|-1];
      Members(nodes[..|nodes|-1], lane) + if n.kind != Transaction && LaneOf(n) == lane then [n] else []
  }

  function Others(nodes: seq<GraphNode>): seq<GraphNode> {
    if nodes == [] then []
    else
      var n := nodes[|nodes|-1];
      Others(nodes[..|nodes|-1]) + if n.kind != Transaction then [n] else []
  }

  function FirstTransaction(nodes: seq<GraphNode>): (t: Option<GraphNode>)
    ensures t.Some? ==> t.value in nodes && t.value.kind == Transaction
    ensures t.None? ==> forall n :: n in nodes ==> n.kind != Transaction
  {
    if nodes == [] then None
    else if nodes[0].kind == Transaction then Some(nodes[0])
    else FirstTransaction(nodes[1..])
  }

  ghost predicate IsFirstTransaction(nodes: seq<GraphNode>, i: int) {
    && 0 <= i < |nodes| && nodes[i].kind == Transaction
    && forall j :: 0 <= j < i ==> nodes[j].kind != Transaction
  }

  /** The transaction card is that of the first transaction node, and it stands at the origin. */
  lemma {:induction false} HeadIsFirst(nodes: seq<GraphNode>, i: int)
    requires IsFirstTransaction(nodes, i)
    ensures Head(nodes) == [FlowNode(nodes[i].id, Transaction, Rect(0.0, 0.0, 300.0, 150.0))]
  {
    if i > 0 {
      HeadIsFirst(nodes[1..], i - 1);
    }
  }

  const ADDRESS_BOX: Box := Box(NODE_W, NODE_H)
  const EVENT_BOX: Box := Box(GHOST_W, GHOST_H)

  function TxRect(): Rect {
    Rect(0.0, 0.0, NODE_W, NODE_H)
  }

  function Copies(count: nat, box: Box): (b: seq<Box>)
    ensures |b| == count && forall i :: 0 <= i < count ==> b[i] == box
  {
    seq(count, _ => box)
  }

  function LaneX(lane: Lane): real {
    match lane
    case LeftLane => -(COL_GAP + NODE_W)
    case RightLane => NODE_W + COL_GAP
    case UpLane => 40.0
    case DownLane => 35.0
  }

  function LaneY(lane: Lane): real {
    match lane
    case LeftLane => NODE_H / 2.0
    case RightLane => NODE_H / 2.0
    case UpLane => -(COL_GAP + NODE_H)
    case DownLane => NODE_H + COL_GAP + GHOST_H
  }

  function LaneColumn(occupied: seq<Rect>, lane: Lane, count: nat): seq<Rect> {
    Column(occupied, LaneX(lane), LaneY(lane), Copies(count, if lane == DownLane then EVENT_BOX else ADDRESS_BOX))
  }

  function LaneAt(k: nat): Lane {
    if k == 0 then LeftLane else if k == 1 then RightLane else if k == 2 then UpLane else DownLane
  }

  /** The space taken by the transaction card and the first k lanes, each laid out around all before it. */
  function Occupied(nodes: seq<GraphNode>, k: nat): seq<Rect> {
    if k == 0 then [TxRect()]
    else
      var before, lane := Occupied(nodes, k - 1), LaneAt(k - 1);
      before + LaneColumn(before, lane, |Members(nodes, lane)|)
  }

  /** The nodes shown in the first k lanes, in the order of their cards. */
  function Shown(nodes: seq<GraphNode>, k: nat): seq<GraphNode> {
    if k == 0 then [] else Shown(nodes, k - 1) + Members(nodes, LaneAt(k - 1))
  }

  function Cards(members: seq<GraphNode>, rects: seq<Rect>): (r: seq<FlowNode>)
    requires |rects| == |members|
    ensures |r| == |members|
    ensures forall i :: 0 <= i < |r| ==> r[i] == FlowNode(members[i].id, members[i].kind, rects[i])
  {
    seq(|members|, i requires 0 <= i < |members| => FlowNode(members[i].id, members[i].kind, rects[i]))
  }

  /** One card for each node shown, in the space worked out for it, and no two of them touch. */
  ghost predicate Laid(nodes: seq<GraphNode>, cards: seq<FlowNode>, k: nat) {
    LaidOut(cards, Shown(nodes, k), Occupied(nodes, k))
  }

  ghost predicate LaidOut(cards: seq<FlowNode>, shown: seq<GraphNode>, space: seq<Rect>) {
    && |cards| == |shown| && |space| == |cards| + 1 && Apart(space)
    && forall i :: 0 <= i < |cards| ==>
         cards[i].rect == space[i + 1] && cards[i].id == shown[i].id && cards[i].kind == shown[i].kind
  }

  method PlaceLane(nodes: seq<GraphNode>, members: seq<GraphNode>, before: seq<FlowNode>, occupied: seq<Rect>, k: nat)
    returns (cards: seq<FlowNode>, after: seq<Rect>)
    requires members == Members(nodes, LaneAt(k)) && occupied == Occupied(nodes, k) && Laid(nodes, before, k)
    ensures after == Occupied(nodes, k + 1) && Laid(nodes, cards, k + 1)
  {
    var lane := LaneAt(k);
    var sizes := Copies(|members|, if lane == DownLane then EVENT_BOX else ADDRESS_BOX);
    var rects := PlaceColumn(occupied, LaneX(lane), LaneY(lane), sizes);
    assert |rects| == |members| && Apart(occupied + rects) by {
      ColumnKeepsApart(occupied, LaneX(lane), LaneY(lane), sizes);
    }
    after := occupied + rects;
    cards := before + Cards(members, rects);
    assert rects == LaneColumn(occupied, lane, |members|);
    LaneIsLaid(nodes, before, k, rects);
  }

  lemma LaneIsLaid(nodes: seq<GraphNode>, before: seq<FlowNode>, k: nat, rects: seq<Rect>)
    requires Laid(nodes, before, k)
    requires var members := Members(nodes, LaneAt(k));
             && |rects| == |members| && rects == LaneColumn(Occupied(nodes, k), LaneAt(k), |members|)
             && Apart(Occupied(nodes, k) + rects)
    ensures Laid(nodes, before + Cards(Members(nodes, LaneAt(k)), rects), k + 1)
  {
    LaidFurther(before, Shown(nodes, k), Occupied(nodes, k), Members(nodes, LaneAt(k)), rects);
  }

  lemma LaidFurther(cards: seq<FlowNode>, shown: seq<GraphNode>, space: seq<Rect>, members: seq<GraphNode>,
                    rects: seq<Rect>)
    requires LaidOut(cards, shown, space) && |rects| == |members| && Apart(space + rects)
    ensures LaidOut(cards + Cards(members, rects), shown + members, space + rects)
  {
  }

  lemma {:induction false} LanesAddUp(nodes: seq<GraphNode>)
    ensures multiset(Members(nodes, LeftLane)) + multiset(Members(nodes, RightLane))
            + multiset(Members(nodes, UpLane)) + multiset(Members(nodes, DownLane)) == multiset(Others(nodes))
  {
    if nodes != [] {
      LanesAddUp(nodes[..|nodes|-1]);
    }
  }

  /** Everything but the transactions is shown, each node once. */
  lemma LanesPartition(nodes: seq<GraphNode>)
    ensures multiset(Shown(nodes, 4)) == multiset(Others(nodes))
  {
    LanesAddUp(nodes);
    FourLanes(nodes);
  }

  lemma FourLanes(nodes: seq<GraphNode>)
    ensures Shown(nodes, 4) == [] + Members(nodes, LeftLane) + Members(nodes, RightLane)
                               + Members(nodes, UpLane) + Members(nodes, DownLane)
  {
    assert Shown(nodes, 1) == [] + Members(nodes, LeftLane);
    assert Shown(nodes, 2) == Shown(nodes, 1) + Members(nodes, RightLane);
    assert Shown(nodes, 3) == Shown(nodes, 2) + Members(nodes, UpLane);
  }

  method FillLanes(nodes: seq<GraphNode>)
    returns (left: seq<GraphNode>, right: seq<GraphNode>, up: seq<GraphNode>, down: seq<GraphNode>)
    ensures left == Members(nodes, LeftLane) && right == Members(nodes, RightLane)
    ensures up == Members(nodes, UpLane) && down == Members(nodes, DownLane)
  {
    left, right, up, down := [], [], [], [];
    for i := 0 to |nodes|
      invariant left == Members(nodes[..i], LeftLane) && right == Members(nodes[..i], RightLane)
      invariant up == Members(nodes[..i], UpLane) && down == Members(nodes[..i], DownLane)
    {
      assert nodes[..i+1][..i] == nodes[..i];
      var n := nodes[i];
      if n.kind == Transaction {
        continue;
      }
      match LaneOf(n)
      case LeftLane => left := left + [n];
      case RightLane => right := right + [n];
      case UpLane => up := up + [n];
      case DownLane => down := down + [n];
    }
    assert nodes[..|nodes|] == nodes;
  }

  // ----- edges

  datatype GraphEdge = GraphEdge(id: string, source: string, target: string, settles: bool)

  /** verb sets a settlement apart from a payment; every edge is drawn with one share. */
  datatype FlowEdge = FlowEdge(id: string, source: string, target: string, verb: bool)

  function FlowEdges(edges: seq<GraphEdge>): (r: seq<FlowEdge>)
    ensures |r| == |edges|
    ensures forall i :: 0 <= i < |r| ==>
              r[i] == FlowEdge(edges[i].id, edges[i].source, edges[i].target, edges[i].settles)
  {
    seq(|edges|, i requires 0 <= i < |edges| =>
      FlowEdge(edges[i].id, edges[i].source, edges[i].target, edges[i].settles))
  }

  /** The card of the transaction, if the graph has one. */
  function Head(nodes: seq<GraphNode>): seq<FlowNode> {
    var tx := FirstTransaction(nodes);
    if tx.Some? then [FlowNode(tx.value.id, Transaction, TxRect())] else []
  }

  ghost predicate OneTransaction(nodes: seq<GraphNode>) {
    forall m, n :: m in nodes && n in nodes && m.kind == Transaction && n.kind == Transaction ==> m == n
  }

  ghost predicate HasCard(flow: seq<FlowNode>, id: string) {
    exists i :: 0 <= i < |flow| && flow[i].id == id
  }

  lemma {:induction false} OthersAre(nodes: seq<GraphNode>, n: GraphNode)
    requires n in nodes && n.kind != Transaction
    ensures n in Others(nodes)
  {
    if n != nodes[|nodes|-1] {
      assert n in nodes[..|nodes|-1];
      OthersAre(nodes[..|nodes|-1], n);
    }
  }

  lemma OtherHasCard(nodes: seq<GraphNode>, cards: seq<FlowNode>, n: GraphNode)
    requires Laid(nodes, cards, 4) && n in nodes && n.kind != Transaction
    ensures HasCard(cards, n.id)
  {
    OthersAre(nodes, n);
    LanesPartition(nodes);
    assert n in multiset(Shown(nodes, 4));
    ShownHasCard(nodes, cards, n);
  }

  lemma ShownHasCard(nodes: seq<GraphNode>, cards: seq<FlowNode>, n: GraphNode)
    requires Laid(nodes, cards, 4) && n in Shown(nodes, 4)
    ensures HasCard(cards, n.id)
  {
    var i :| 0 <= i < |Shown(nodes, 4)| && Shown(nodes, 4)[i] == n;
    assert cards[i].id == n.id;
  }

  lemma HasCardLater(head: seq<FlowNode>, cards: seq<FlowNode>, id: string)
    requires HasCard(cards, id)
    ensures HasCard(head + cards, id)
  {
    var i :| 0 <= i < |cards| && cards[i].id == id;
    assert (head + cards)[|head| + i].id == id;
  }

  /** Every node of a graph with one transaction has its card. */
  lemma NodeHasCard(nodes: seq<GraphNode>, cards: seq<FlowNode>, n: GraphNode)
    requires OneTransaction(nodes) && Laid(nodes, cards, 4) && n in nodes
    ensures HasCard(Head(nodes) + cards, n.id)
  {
    if n.kind == Transaction {
      assert FirstTransaction(nodes) == Some(n);
      assert (Head(nodes) + cards)[0].id == n.id;
    } else {
      OtherHasCard(nodes, cards, n);
      HasCardLater(Head(nodes), cards, n.id);
    }
  }

  ghost predicate EndsAtNodes(nodes: seq<GraphNode>, edges: seq<GraphEdge>) {
    forall e :: e in edges ==>
      (exists n :: n in nodes && n.id == e.source) && (exists n :: n in nodes && n.id == e.target)
  }

  ghost predicate EndsAtCards(flow: seq<FlowNode>, edges: seq<FlowEdge>) {
    forall e :: e in edges ==> HasCard(flow, e.source) && HasCard(flow, e.target)
  }

  /** If the graph's edges end at its nodes, the flow's end at its cards. */
  lemma EdgesEndAtCards(nodes: seq<GraphNode>, cards: seq<FlowNode>, edges: seq<GraphEdge>)
    requires OneTransaction(nodes) && Laid(nodes, cards, 4) && EndsAtNodes(nodes, edges)
    ensures EndsAtCards(Head(nodes) + cards, FlowEdges(edges))
  {
    var drawn := FlowEdges(edges);
    forall e | e in drawn ensures HasCard(Head(nodes) + cards, e.source) && HasCard(Head(nodes) + cards, e.target) {
      var i :| 0 <= i < |drawn| && drawn[i] == e;
      assert edges[i] in edges;
      var m :| m in nodes && m.id == edges[i].source;
      var n :| n in nodes && n.id == edges[i].target;
      NodeHasCard(nodes, cards, m);
      NodeHasCard(nodes, cards, n);
    }
  }

  method PlaceLanes(nodes: seq<GraphNode>) returns (cards: seq<FlowNode>)
    ensures Laid(nodes, cards, 4)
  {
    var left, right, up, down := FillLanes(nodes);
    var occupied;
    cards, occupied := PlaceLane(nodes, left, [], [TxRect()], 0);
    cards, occupied := PlaceLane(nodes, right, cards, occupied, 1);
    cards, occupied := PlaceLane(nodes, up, cards, occupied, 2);
    cards, occupied := PlaceLane(nodes, down, cards, occupied, 3);
  }

  /**
   The transaction card, if the graph has one, then the four lanes.  All four lanes and
   the space of the transaction card are pairwise disjoint, every other node has exactly
   one card, and the edges are the graph's, ending at cards where the graph's end at nodes.
   */
  method TxGraphToFlow(nodes: seq<GraphNode>, edges: seq<GraphEdge>)
    returns (flow: seq<FlowNode>, flowEdges: seq<FlowEdge>)
    ensures Head(nodes) <= flow && Laid(nodes, flow[|Head(nodes)|..], 4)
    ensures flowEdges == FlowEdges(edges)
    ensures OneTransaction(nodes) && EndsAtNodes(nodes, edges) ==> EndsAtCards(flow, flowEdges)
  {
    var tx := FirstTransaction(nodes);
    var head := if tx.Some? then [FlowNode(tx.value.id, Transaction, TxRect())] else [];
    var cards := PlaceLanes(nodes);
    flow, flowEdges := head + cards, FlowEdges(edges);
    assert flow[|head|..] == cards;
    if OneTransaction(nodes) && EndsAtNodes(nodes, edges) {
      EdgesEndAtCards(nodes, cards, edges);
    }
  }

  // ----- what stands where

  /** Payers left, then those who only settle above, then everyone else right; events below. */
  function StandsIn(lane: Lane): GraphNode -> bool {
    (n: GraphNode) =>
      match lane
      case LeftLane => n.kind == Address && PayerRole in n.roles
      case RightLane =>
        n.kind == Address && PayerRole !in n.roles && (PayeeRole in n.roles || FacilitatorRole !in n.roles)
      case UpLane => n.kind == Address && n.roles != [] && forall r :: r in n.roles ==> r == FacilitatorRole
      case DownLane => n.kind == Event
  }

  lemma {:induction false} MembersStand(nodes: seq<GraphNode>, lane: Lane)
    ensures Members(nodes, lane) == Filter(nodes, StandsIn(lane))
  {
    if nodes != [] {
      var front, n := nodes[..|nodes|-1], nodes[|nodes|-1];
      MembersStand(front, lane);
      FilterPush(front, n, StandsIn(lane));
      assert nodes == front + [n];
      StandsWhereLaid(n, lane);
    }
  }

  lemma StandsWhereLaid(n: GraphNode, lane: Lane)
    ensures StandsIn(lane)(n) <==> n.kind != Transaction && LaneOf(n) == lane
  {
    if FacilitatorRole in n.roles && PayerRole !in n.roles && PayeeRole !in n.roles {
      forall r | r in n.roles ensures r == FacilitatorRole {
        match r
        case PayerRole =>
        case PayeeRole =>
        case FacilitatorRole =>
      }
    }
    if n.roles != [] && forall r :: r in n.roles ==> r == FacilitatorRole {
      assert n.roles[0] in n.roles;
    }
  }

  /** Half the cards and gaps above the centre line. */
  function LaneTop(centre: real, count: nat, h: real): real {
    centre - (count as real * h + (if count == 0 then 0.0 else (count - 1) as real) * ROW_GAP) / 2.0
  }

  /** A card for each of the members in their order, in one column of such cards around the centre line. */
  ghost predicate LaneDrawn(cards: seq<FlowNode>, members: seq<GraphNode>, occupied: seq<Rect>, x: real, centre: real,
                            w: real, h: real)
  {
    && |cards| == |members|
    && forall i :: 0 <= i < |cards| ==>
         && cards[i].id == members[i].id && cards[i].kind == members[i].kind
         && cards[i].rect.x == x && cards[i].rect.w == w && cards[i].rect.h == h
         && cards[i].rect.y >= PlaceInLane(cards, centre, h, i)
         && (cards[i].rect.y == PlaceInLane(cards, centre, h, i) || RightBeneath(cards[i], occupied, cards[..i]))
  }

  function PlaceInLane(cards: seq<FlowNode>, centre: real, h: real, i: nat): real
    requires i < |cards|
  {
    if i == 0 then LaneTop(centre, |cards|, h) else cards[i-1].rect.y + h + ROW_GAP
  }

  /** A card that is out of its place lies one gap beneath something that was in its way. */
  ghost predicate RightBeneath(card: FlowNode, occupied: seq<Rect>, cards: seq<FlowNode>) {
    || (exists i :: 0 <= i < |occupied| && card.rect.y == occupied[i].y + occupied[i].h + ROW_GAP)
    || (exists i :: 0 <= i < |cards| && card.rect.y == cards[i].rect.y + cards[i].rect.h + ROW_GAP)
  }

  lemma {:induction false} HeightOfCopies(count: nat, box: Box)
    ensures TotalHeight(Copies(count, box)) == count as real * box.h
  {
    if count > 0 {
      HeightOfCopies(count - 1, box);
      assert Copies(count, box)[..count-1] == Copies(count - 1, box);
    }
  }

  lemma StackedIsDrawn(members: seq<GraphNode>, rects: seq<Rect>, occupied: seq<Rect>, x: real, centre: real, box: Box)
    requires |rects| == |members|
    requires Stacked(rects, x, LaneTop(centre, |members|, box.h), Copies(|members|, box))
    requires PushedOnlyByObstacles(rects, LaneTop(centre, |members|, box.h), occupied)
    ensures LaneDrawn(Cards(members, rects), members, occupied, x, centre, box.w, box.h)
  {
    var cards, y := Cards(members, rects), LaneTop(centre, |members|, box.h);
    forall i | 0 <= i < |cards|
      ensures cards[i].rect.y >= PlaceInLane(cards, centre, box.h, i)
      ensures cards[i].rect.y == PlaceInLane(cards, centre, box.h, i) || RightBeneath(cards[i], occupied, cards[..i])
    {
      assert PlaceInLane(cards, centre, box.h, i) == Wanted(rects, y, i) && PushedAt(rects, y, occupied, i);
      if rects[i].y != Wanted(rects, y, i) {
        PushedIsBeneath(members, rects, occupied, y, i);
      }
    }
  }

  lemma PushedIsBeneath(members: seq<GraphNode>, rects: seq<Rect>, occupied: seq<Rect>, y: real, i: nat)
    requires |rects| == |members| && i < |rects|
    requires PushedAt(rects, y, occupied, i) && rects[i].y != Wanted(rects, y, i)
    ensures var cards := Cards(members, rects);
            RightBeneath(cards[i], occupied, cards[..i])
  {
    var cards := Cards(members, rects);
    var o :| o in occupied + rects[..i] && rects[i].y == Below(o);
    if o in occupied {
      var k :| 0 <= k < |occupied| && occupied[k] == o;
    } else {
      var k :| 0 <= k < i && rects[k] == o;
      assert cards[..i][k].rect == o;
    }
  }

  function RectsOf(cards: seq<FlowNode>): (r: seq<Rect>)
    ensures |r| == |cards| && forall i :: 0 <= i < |r| ==> r[i] == cards[i].rect
  {
    seq(|cards|, i requires 0 <= i < |cards| => cards[i].rect)
  }

  /** What stands before a lane is laid out: the transaction card and the lanes before it. */
  function Before(cards: seq<FlowNode>): seq<Rect> {
    [Rect(0.0, 0.0, NODE_W, NODE_H)] + RectsOf(cards)
  }

  lemma {:induction false} CardAtTheOrigin(nodes: seq<GraphNode>, k: nat)
    ensures |Occupied(nodes, k)| > 0 && Occupied(nodes, k)[0] == Rect(0.0, 0.0, NODE_W, NODE_H)
  {
    if k > 0 {
      CardAtTheOrigin(nodes, k - 1);
    }
  }

  lemma OccupiedIsBefore(nodes: seq<GraphNode>, cards: seq<FlowNode>, k: nat)
    requires LaidThrough(nodes, cards, k)
    ensures Occupied(nodes, k) == Before(cards)
  {
    CardAtTheOrigin(nodes, k);
    forall i | 0 < i < |Occupied(nodes, k)| ensures Occupied(nodes, k)[i] == cards[i-1].rect {
      assert cards[i-1].rect == Occupied(nodes, k)[(i-1) + 1];
    }
  }

  function BoxAt(k: nat): Box {
    if LaneAt(k) == DownLane then EVENT_BOX else ADDRESS_BOX
  }

  lemma OneLaneDrawn(nodes: seq<GraphNode>, k: nat) returns (cards: seq<FlowNode>)
    ensures var members := Members(nodes, LaneAt(k));
            var rects := LaneColumn(Occupied(nodes, k), LaneAt(k), |members|);
            && |rects| == |members| && cards == Cards(members, rects)
            && LaneDrawn(cards, members, Occupied(nodes, k), LaneX(LaneAt(k)), LaneY(LaneAt(k)), BoxAt(k).w, BoxAt(k).h)
  {
    var members, centre, box := Members(nodes, LaneAt(k)), LaneY(LaneAt(k)), BoxAt(k);
    var sizes := Copies(|members|, box);
    HeightOfCopies(|members|, box);
    assert Top(centre, sizes) == LaneTop(centre, |members|, box.h);
    ColumnIsStacked(Occupied(nodes, k), LaneX(LaneAt(k)), centre, sizes);
    var rects := LaneColumn(Occupied(nodes, k), LaneAt(k), |members|);
    StackedIsDrawn(members, rects, Occupied(nodes, k), LaneX(LaneAt(k)), centre, box);
    cards := Cards(members, rects);
  }

  /** Taking the last lane's cards off leaves those of the lanes before it. */
  lemma LastLane(nodes: seq<GraphNode>, cards: seq<FlowNode>, k: nat)
    returns (front: seq<FlowNode>, lane: seq<FlowNode>)
    requires k < 4 && LaidThrough(nodes, cards, k + 1)
    ensures cards == front + lane && LaidThrough(nodes, front, k)
    ensures LaneInPlace(nodes, lane, LaneAt(k), front)
  {
    lane := OneLaneDrawn(nodes, k);
    var members := Members(nodes, LaneAt(k));
    var rects := LaneColumn(Occupied(nodes, k), LaneAt(k), |members|);
    OccupiedCounts(nodes, k);
    SplitLaid(cards, Shown(nodes, k), Occupied(nodes, k), members, rects);
    front := cards[..|Shown(nodes, k)|];
    OccupiedIsBefore(nodes, front, k);
    InItsPlace(nodes, lane, k, front);
  }

  ghost predicate LaidThrough(nodes: seq<GraphNode>, cards: seq<FlowNode>, k: nat) {
    LaidAt(cards, Shown(nodes, k), Occupied(nodes, k))
  }

  lemma NothingLaid(nodes: seq<GraphNode>, cards: seq<FlowNode>)
    requires LaidThrough(nodes, cards, 0)
    ensures cards == []
  {
  }

  lemma SplitLaid(cards: seq<FlowNode>, shown: seq<GraphNode>, space: seq<Rect>, members: seq<GraphNode>,
                  rects: seq<Rect>)
    requires |rects| == |members| && |space| == |shown| + 1 && LaidAt(cards, shown + members, space + rects)
    ensures LaidAt(cards[..|shown|], shown, space) && cards == cards[..|shown|] + Cards(members, rects)
  {
    var lane, n := Cards(members, rects), |shown|;
    forall i | n <= i < |cards| ensures cards[i] == lane[i - n] {
      assert (shown + members)[i] == members[i - n] && (space + rects)[i + 1] == rects[i - n];
    }
    forall i | 0 <= i < n ensures (shown + members)[i] == shown[i] && (space + rects)[i + 1] == space[i + 1] {
    }
  }

  /** The lane's nodes in the graph's order, in the lane's column around a card at the origin. */
  ghost predicate LaneInPlace(nodes: seq<GraphNode>, cards: seq<FlowNode>, lane: Lane, before: seq<FlowNode>) {
    var members, occupied := Filter(nodes, StandsIn(lane)), Before(before);
    match lane
    case LeftLane => LaneDrawn(cards, members, occupied, -COL_GAP - NODE_W, NODE_H / 2.0, NODE_W, NODE_H)
    case RightLane => LaneDrawn(cards, members, occupied, NODE_W + COL_GAP, NODE_H / 2.0, NODE_W, NODE_H)
    case UpLane => LaneDrawn(cards, members, occupied, 40.0, -COL_GAP - NODE_H, NODE_W, NODE_H)
    case DownLane => LaneDrawn(cards, members, occupied, 35.0, NODE_H + COL_GAP + GHOST_H, GHOST_W, GHOST_H)
  }

  lemma InItsPlace(nodes: seq<GraphNode>, cards: seq<FlowNode>, k: nat, before: seq<FlowNode>)
    requires k < 4
    requires LaneDrawn(cards, Members(nodes, LaneAt(k)), Before(before), LaneX(LaneAt(k)), LaneY(LaneAt(k)),
                       BoxAt(k).w, BoxAt(k).h)
    ensures LaneInPlace(nodes, cards, LaneAt(k), before)
  {
    MembersStand(nodes, LaneAt(k));
  }

  lemma SidesDrawn(nodes: seq<GraphNode>, cards: seq<FlowNode>) returns (left: seq<FlowNode>, right: seq<FlowNode>)
    requires LaidThrough(nodes, cards, 2)
    ensures cards == left + right
    ensures LaneInPlace(nodes, left, LeftLane, []) && LaneInPlace(nodes, right, RightLane, left)
  {
    var one, none;
    one, right := LastLane(nodes, cards, 1);
    none, left := LastLane(nodes, one, 0);
    NothingLaid(nodes, none);
    assert one == left;
  }

  ghost predicate AllInPlace(nodes: seq<GraphNode>, left: seq<FlowNode>, right: seq<FlowNode>, up: seq<FlowNode>,
                             down: seq<FlowNode>)
  {
    && LaneInPlace(nodes, left, LeftLane, []) && LaneInPlace(nodes, right, RightLane, left)
    && LaneInPlace(nodes, up, UpLane, left + right) && LaneInPlace(nodes, down, DownLane, left + right + up)
  }

  /**
   Around a transaction card at the origin, payers stand left of it, those who only settle
   above, the other addresses right, and the events below, each lane in the graph's order;
   a card is out of its place only to lie beneath one that was there before.
   */
  lemma LanesDrawn(nodes: seq<GraphNode>, cards: seq<FlowNode>)
    returns (left: seq<FlowNode>, right: seq<FlowNode>, up: seq<FlowNode>, down: seq<FlowNode>)
    requires Laid(nodes, cards, 4)
    ensures cards == left + right + up + down && AllInPlace(nodes, left, right, up, down)
  {
    var three, two;
    LaidIsThrough(nodes, cards, 4);
    three, down := LastLane(nodes, cards, 3);
    two, up := LastLane(nodes, three, 2);
    left, right := SidesDrawn(nodes, two);
  }

  lemma LaidIsThrough(nodes: seq<GraphNode>, cards: seq<FlowNode>, k: nat)
    requires Laid(nodes, cards, k)
    ensures LaidThrough(nodes, cards, k)
  {
  }

  /** Each card in its space, apart or not. */
  ghost predicate LaidAt(cards: seq<FlowNode>, shown: seq<GraphNode>, space: seq<Rect>) {
    && |cards| == |shown| && |space| == |cards| + 1
    && forall i :: 0 <= i < |cards| ==>
         cards[i].rect == space[i + 1] && cards[i].id == shown[i].id && cards[i].kind == shown[i].kind
  }

  lemma {:induction false} OccupiedCounts(nodes: seq<GraphNode>, k: nat)
    ensures |Occupied(nodes, k)| == |Shown(nodes, k)| + 1
  {
    if k > 0 {
      OccupiedCounts(nodes, k - 1);
      var lane := LaneAt(k - 1);
      var count := |Members(nodes, lane)|;
      var sizes := Copies(count, if lane == DownLane then EVENT_BOX else ADDRESS_BOX);
      ColumnIsStacked(Occupied(nodes, k - 1), LaneX(lane), LaneY(lane), sizes);
    }
  }
}
