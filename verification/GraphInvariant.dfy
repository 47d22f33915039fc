/** What every build and every sequence of expansions keeps of the canvas. */
module GraphInvariant {
  import opened Graph
  import opened Layout

  ghost predicate UniqueIds(nodes: seq<Node>) {
    forall i, j :: 0 <= i < j < |nodes| ==> nodes[i].id != nodes[j].id
  }

  ghost predicate UniqueEdgeIds(edges: seq<Edge>) {
    forall i, j :: 0 <= i < j < |edges| ==> edges[i].id != edges[j].id
  }

  /** Every edge runs between cards of the canvas and is named after them. */
  ghost predicate Anchored(s: State) {
    forall e :: e in s.edges ==>
      e.source in Ids(s.nodes) && e.target in Ids(s.nodes) && e.id == EdgeId(e.source, e.target, e.verb)
  }

  ghost predicate Orderly(s: State) {
    UniqueEdgeIds(s.edges) && Anchored(s) && Apart(Rects(s.nodes))
  }

  /** Nothing already on the canvas has moved, changed or gone. */
  ghost predicate Grew(s: State, t: State) {
    s.nodes <= t.nodes && s.edges <= t.edges
  }

  // ----- one direction

  lemma AddEdgesStep(edges: seq<Edge>, anchorId: string, d: Direction, rows: seq<NeighborRow>, outside: bool)
    requires rows != []
    ensures var e := RowEdge(anchorId, d, rows[0], outside);
            AddEdges(edges, anchorId, d, rows, outside)
            == AddEdges(if HasEdge(edges, e.id) then edges else edges + [e], anchorId, d, rows[1..], outside)
  {
  }

  lemma {:induction false} AddEdgesKeeps(edges: seq<Edge>, anchorId: string, d: Direction, rows: seq<NeighborRow>,
                                         outside: bool)
    ensures var all := AddEdges(edges, anchorId, d, rows, outside);
            edges <= all && (UniqueEdgeIds(edges) ==> UniqueEdgeIds(all))
    decreases |rows|
  {
    if rows != [] {
      var e := RowEdge(anchorId, d, rows[0], outside);
      AddEdgesStep(edges, anchorId, d, rows, outside);
      AddEdgesKeeps(if HasEdge(edges, e.id) then edges else edges + [e], anchorId, d, rows[1..], outside);
    }
  }

  ghost predicate FromRow(e: Edge, anchorId: string, d: Direction, rows: seq<NeighborRow>, outside: bool) {
    exists r :: r in rows && e == RowEdge(anchorId, d, r, outside)
  }

  lemma FromLaterRow(e: Edge, anchorId: string, d: Direction, rows: seq<NeighborRow>, outside: bool)
    requires rows != []
    ensures FromRow(RowEdge(anchorId, d, rows[0], outside), anchorId, d, rows, outside)
    ensures FromRow(e, anchorId, d, rows[1..], outside) ==> FromRow(e, anchorId, d, rows, outside)
  {
    assert rows == [rows[0]] + rows[1..];
  }

  lemma {:induction false} AddEdgesComeFromRows(edges: seq<Edge>, anchorId: string, d: Direction,
                                                rows: seq<NeighborRow>, outside: bool, e: Edge)
    requires e in AddEdges(edges, anchorId, d, rows, outside)
    ensures e in edges || FromRow(e, anchorId, d, rows, outside)
    decreases |rows|
  {
    if rows != [] {
      var first := RowEdge(anchorId, d, rows[0], outside);
      AddEdgesStep(edges, anchorId, d, rows, outside);
      FromLaterRow(e, anchorId, d, rows, outside);
      var next := if HasEdge(edges, first.id) then edges else edges + [first];
      AddEdgesComeFromRows(next, anchorId, d, rows[1..], outside, e);
    }
  }

  lemma FirstRowHasEdge(edges: seq<Edge>, anchorId: string, d: Direction, rows: seq<NeighborRow>, outside: bool)
    requires rows != []
    ensures HasEdge(AddEdges(edges, anchorId, d, rows, outside), RowEdge(anchorId, d, rows[0], outside).id)
  {
    var e := RowEdge(anchorId, d, rows[0], outside);
    var more := if HasEdge(edges, e.id) then edges else edges + [e];
    AddEdgesStep(edges, anchorId, d, rows, outside);
    assert more != edges ==> more[|edges|].id == e.id;
    AddEdgesKeeps(more, anchorId, d, rows[1..], outside);
    HasEdgeInMore(more, AddEdges(more, anchorId, d, rows[1..], outside), e.id);
  }

  lemma {:induction false} RowsHaveEdges(edges: seq<Edge>, anchorId: string, d: Direction, rows: seq<NeighborRow>,
                                         outside: bool, i: nat)
    requires i < |rows|
    ensures HasEdge(AddEdges(edges, anchorId, d, rows, outside), RowEdge(anchorId, d, rows[i], outside).id)
    decreases |rows|
  {
    if i == 0 {
      FirstRowHasEdge(edges, anchorId, d, rows, outside);
    } else {
      var e := RowEdge(anchorId, d, rows[0], outside);
      AddEdgesStep(edges, anchorId, d, rows, outside);
      RowsHaveEdges(if HasEdge(edges, e.id) then edges else edges + [e], anchorId, d, rows[1..], outside, i - 1);
    }
  }

  lemma AddEdgesGrows(edges: seq<Edge>, anchorId: string, d: Direction, rows: seq<NeighborRow>, outside: bool)
    ensures var all := AddEdges(edges, anchorId, d, rows, outside);
            && edges <= all
            && (UniqueEdgeIds(edges) ==> UniqueEdgeIds(all))
            && (forall e :: e in all ==> e in edges || FromRow(e, anchorId, d, rows, outside))
            && (forall r :: r in rows ==> HasEdge(all, RowEdge(anchorId, d, r, outside).id))
  {
    var all := AddEdges(edges, anchorId, d, rows, outside);
    AddEdgesKeeps(edges, anchorId, d, rows, outside);
    forall e | e in all ensures e in edges || FromRow(e, anchorId, d, rows, outside) {
      AddEdgesComeFromRows(edges, anchorId, d, rows, outside, e);
    }
    forall r | r in rows ensures HasEdge(all, RowEdge(anchorId, d, r, outside).id) {
      var i :| 0 <= i < |rows| && rows[i] == r;
      RowsHaveEdges(edges, anchorId, d, rows, outside, i);
    }
  }

  lemma HasEdgeInMore(edges: seq<Edge>, more: seq<Edge>, id: string)
    requires HasEdge(edges, id) && edges <= more
    ensures HasEdge(more, id)
  {
    var i :| 0 <= i < |edges| && edges[i].id == id;
    assert more[i].id == id;
  }

  lemma NewRects(nodes: seq<Node>, anchor: Rect, d: Direction, outside: bool)
    requires d.role != Subject
    ensures var news, newcomers := NewNodes(nodes, anchor, d, outside), Fresh(Ids(nodes), d.rows);
            && |news| == |newcomers| && (forall i :: 0 <= i < |news| ==> news[i].id == newcomers[i].address)
            && Rects(news) == Placement(Rects(nodes), anchor, d.dir, |newcomers|, outside)
  {
    var news, newcomers := NewNodes(nodes, anchor, d, outside), Fresh(Ids(nodes), d.rows);
    var rects := Placement(Rects(nodes), anchor, d.dir, |newcomers|, outside);
    PlacementIsApart(Rects(nodes), anchor, d.dir, |newcomers|, outside);
    forall i | 0 <= i < |news| ensures NodeRect(news[i]) == rects[i] {
      CardRect(newcomers[i], if outside then GhostRole else d.role, rects[i], outside);
    }
  }

  lemma RectsJoin(nodes: seq<Node>, news: seq<Node>)
    ensures Rects(nodes + news) == Rects(nodes) + Rects(news)
  {
  }

  lemma NewNodesApart(nodes: seq<Node>, anchor: Rect, d: Direction, outside: bool)
    requires d.role != Subject && Apart(Rects(nodes))
    ensures Apart(Rects(nodes + NewNodes(nodes, anchor, d, outside)))
  {
    var count := |Fresh(Ids(nodes), d.rows)|;
    NewRects(nodes, anchor, d, outside);
    PlacementIsApart(Rects(nodes), anchor, d.dir, count, outside);
    RectsJoin(nodes, NewNodes(nodes, anchor, d, outside));
  }

  /** One card for each newcomer, named by it, and clear of all the others. */
  lemma NewNodesFit(nodes: seq<Node>, anchor: Rect, d: Direction, outside: bool)
    requires d.role != Subject
    ensures NamedBy(NewNodes(nodes, anchor, d, outside), Fresh(Ids(nodes), d.rows))
    ensures Apart(Rects(nodes)) ==> Apart(Rects(nodes + NewNodes(nodes, anchor, d, outside)))
  {
    NewRects(nodes, anchor, d, outside);
    if Apart(Rects(nodes)) {
      NewNodesApart(nodes, anchor, d, outside);
    }
  }

  lemma CardRect(r: NeighborRow, role: RoleClass, rect: Rect, outside: bool)
    requires role != Subject && Box(rect.w, rect.h) == CardBox(outside)
    ensures NodeRect(MakeNode(r, role, rect, outside)) == rect
  {
  }

  lemma IdsJoin(nodes: seq<Node>, news: seq<Node>)
    ensures Ids(nodes + news) == Ids(nodes) + Ids(news)
  {
    forall n ensures n in nodes + news <==> n in nodes || n in news {
    }
  }

  ghost predicate NamedBy(news: seq<Node>, newcomers: seq<NeighborRow>) {
    |news| == |newcomers| && forall i :: 0 <= i < |news| ==> news[i].id == newcomers[i].address
  }

  lemma IdsOfNamed(news: seq<Node>, newcomers: seq<NeighborRow>)
    requires NamedBy(news, newcomers)
    ensures Ids(news) == Addresses(newcomers)
  {
    forall a | a in Ids(news) ensures a in Addresses(newcomers) {
      var i :| 0 <= i < |news| && news[i].id == a;
      assert newcomers[i] in newcomers;
    }
    forall a | a in Addresses(newcomers) ensures a in Ids(news) {
      var i :| 0 <= i < |newcomers| && newcomers[i].address == a;
      assert news[i] in news;
    }
  }

  lemma NewIds(nodes: seq<Node>, news: seq<Node>, rows: seq<NeighborRow>)
    requires NamedBy(news, Fresh(Ids(nodes), rows))
    ensures Ids(nodes + news) == Ids(nodes) + Addresses(rows)
  {
    IdsJoin(nodes, news);
    IdsOfNamed(news, Fresh(Ids(nodes), rows));
  }

  lemma MergedOneKeeps(s: State, anchorId: string, anchor: Rect, d: Direction, outside: bool)
    requires Orderly(s) && anchorId in Ids(s.nodes) && d.role != Subject
    ensures var t := MergedOne(s, anchorId, anchor, d, outside);
            && Orderly(t) && Grew(s, t) && Ids(t.nodes) == Ids(s.nodes) + Addresses(d.rows)
  {
    NewNodesFit(s.nodes, anchor, d, outside);
    NewIds(s.nodes, NewNodes(s.nodes, anchor, d, outside), d.rows);
    AddEdgesGrows(s.edges, anchorId, d, d.rows, outside);
  }

  // ----- node ids stay unique exactly when no list repeats an address that is new

  ghost predicate DistinctAddresses(rows: seq<NeighborRow>) {
    forall i, j :: 0 <= i < j < |rows| ==> rows[i].address != rows[j].address
  }

  ghost predicate NoneRepeated(known: set<string>, ds: seq<Direction>)
    decreases |ds|
  {
    ds == [] || (DistinctAddresses(Fresh(known, ds[0].rows)) && NoneRepeated(known + Addresses(ds[0].rows), ds[1..]))
  }

  lemma UniqueJoin(nodes: seq<Node>, news: seq<Node>)
    ensures UniqueIds(nodes + news)
            <==> UniqueIds(nodes) && UniqueIds(news) && forall n :: n in news ==> n.id !in Ids(nodes)
  {
    var all := nodes + news;
    if UniqueIds(all) {
      forall i, j | 0 <= i < j < |nodes| ensures nodes[i].id != nodes[j].id {
        assert all[i].id != all[j].id;
      }
      forall i, j | 0 <= i < j < |news| ensures news[i].id != news[j].id {
        assert all[|nodes| + i].id != all[|nodes| + j].id;
      }
      forall n, m | n in news && m in nodes ensures n.id != m.id {
        var j :| 0 <= j < |news| && news[j] == n;
        var i :| 0 <= i < |nodes| && nodes[i] == m;
        assert all[i].id != all[|nodes| + j].id;
      }
    }
    if UniqueIds(nodes) && UniqueIds(news) && forall n :: n in news ==> n.id !in Ids(nodes) {
      forall i, j | 0 <= i < j < |all| ensures all[i].id != all[j].id {
        if i < |nodes| <= j {
          assert all[j] in news && all[i] in nodes;
        }
      }
    }
  }

  lemma UniqueAfterOne(s: State, anchorId: string, anchor: Rect, d: Direction, outside: bool)
    requires d.role != Subject
    ensures UniqueIds(MergedOne(s, anchorId, anchor, d, outside).nodes)
            <==> UniqueIds(s.nodes) && DistinctAddresses(Fresh(Ids(s.nodes), d.rows))
  {
    var news, newcomers := NewNodes(s.nodes, anchor, d, outside), Fresh(Ids(s.nodes), d.rows);
    NewNodesFit(s.nodes, anchor, d, outside);
    UniqueJoin(s.nodes, news);
    forall n | n in news ensures n.id !in Ids(s.nodes) {
      var i :| 0 <= i < |news| && news[i] == n;
      assert newcomers[i] in newcomers;
    }
  }

  lemma {:induction false} MergedAllKeeps(s: State, anchorId: string, anchor: Rect, ds: seq<Direction>, outside: bool)
    requires Orderly(s) && anchorId in Ids(s.nodes)
    requires forall d :: d in ds ==> d.role != Subject
    ensures var t := MergedAll(s, anchorId, anchor, ds, outside);
            && Orderly(t) && Grew(s, t)
            && (UniqueIds(t.nodes) <==> UniqueIds(s.nodes) && NoneRepeated(Ids(s.nodes), ds))
    decreases |ds|
  {
    if ds != [] {
      var next := MergedOne(s, anchorId, anchor, ds[0], outside);
      MergedOneKeeps(s, anchorId, anchor, ds[0], outside);
      UniqueAfterOne(s, anchorId, anchor, ds[0], outside);
      MergedAllKeeps(next, anchorId, anchor, ds[1..], outside);
    }
  }

  lemma MergedKeeps(s: State, anchorId: string, n: Neighbors, outside: bool)
    requires Orderly(s)
    ensures var t := Merged(s, anchorId, n, outside);
            && Orderly(t) && Grew(s, t)
            && (anchorId in Ids(s.nodes) ==>
                  (UniqueIds(t.nodes) <==> UniqueIds(s.nodes) && NoneRepeated(Ids(s.nodes), Directions(n))))
            && (anchorId !in Ids(s.nodes) ==> t == s)
  {
    var anchor := Find(s.nodes, anchorId);
    if anchor.Some? {
      MergedAllKeeps(s, anchorId, NodeRect(anchor.value), Directions(n), outside);
    }
  }

  // ----- merging again changes nothing

  /** Every row of the direction has its card and its edge. */
  ghost predicate Absorbed(s: State, anchorId: string, d: Direction, outside: bool) {
    && Addresses(d.rows) <= Ids(s.nodes)
    && forall r :: r in d.rows ==> HasEdge(s.edges, RowEdge(anchorId, d, r, outside).id)
  }

  lemma {:induction false} NoEdgesToAdd(edges: seq<Edge>, anchorId: string, d: Direction, rows: seq<NeighborRow>,
                                        outside: bool)
    requires forall r :: r in rows ==> HasEdge(edges, RowEdge(anchorId, d, r, outside).id)
    ensures AddEdges(edges, anchorId, d, rows, outside) == edges
    decreases |rows|
  {
    if rows != [] {
      assert rows[0] in rows;
      NoEdgesToAdd(edges, anchorId, d, rows[1..], outside);
    }
  }

  lemma {:induction false} NoneFresh(known: set<string>, rows: seq<NeighborRow>)
    requires forall r :: r in rows ==> r.address in known
    ensures Fresh(known, rows) == []
  {
    if rows != [] {
      assert rows[0] in rows;
      NoneFresh(known, rows[1..]);
    }
  }

  lemma AbsorbedChangesNothing(s: State, anchorId: string, anchor: Rect, d: Direction, outside: bool)
    requires Absorbed(s, anchorId, d, outside)
    ensures MergedOne(s, anchorId, anchor, d, outside) == s
  {
    NoEdgesToAdd(s.edges, anchorId, d, d.rows, outside);
    forall r | r in d.rows ensures r.address in Ids(s.nodes) {
      assert r.address in Addresses(d.rows);
    }
    NoneFresh(Ids(s.nodes), d.rows);
    assert s.nodes + NewNodes(s.nodes, anchor, d, outside) == s.nodes;
  }

  lemma AbsorbedInMore(s: State, t: State, anchorId: string, d: Direction, outside: bool)
    requires Absorbed(s, anchorId, d, outside) && Grew(s, t)
    ensures Absorbed(t, anchorId, d, outside)
  {
    forall id | id in Ids(s.nodes) ensures id in Ids(t.nodes) {
      var n :| n in s.nodes && n.id == id;
      assert n in t.nodes;
    }
    forall r | r in d.rows ensures HasEdge(t.edges, RowEdge(anchorId, d, r, outside).id) {
      HasEdgeInMore(s.edges, t.edges, RowEdge(anchorId, d, r, outside).id);
    }
  }

  lemma OneAbsorbs(s: State, anchorId: string, anchor: Rect, d: Direction, outside: bool)
    requires Orderly(s) && anchorId in Ids(s.nodes) && d.role != Subject
    ensures Absorbed(MergedOne(s, anchorId, anchor, d, outside), anchorId, d, outside)
  {
    MergedOneKeeps(s, anchorId, anchor, d, outside);
    AddEdgesGrows(s.edges, anchorId, d, d.rows, outside);
  }

  ghost predicate AllAbsorbed(s: State, anchorId: string, ds: seq<Direction>, outside: bool) {
    forall d :: d in ds ==> Absorbed(s, anchorId, d, outside)
  }

  lemma AllAbsorbedInMore(s: State, t: State, anchorId: string, ds: seq<Direction>, outside: bool)
    requires AllAbsorbed(s, anchorId, ds, outside) && Grew(s, t)
    ensures AllAbsorbed(t, anchorId, ds, outside)
  {
    forall d | d in ds ensures Absorbed(t, anchorId, d, outside) {
      AbsorbedInMore(s, t, anchorId, d, outside);
    }
  }

  lemma {:induction false} MergedAllAbsorbs(s: State, anchorId: string, anchor: Rect, ds: seq<Direction>, outside: bool)
    requires Orderly(s) && anchorId in Ids(s.nodes)
    requires forall d :: d in ds ==> d.role != Subject
    ensures AllAbsorbed(MergedAll(s, anchorId, anchor, ds, outside), anchorId, ds, outside)
    decreases |ds|
  {
    if ds != [] {
      var next := MergedOne(s, anchorId, anchor, ds[0], outside);
      var last := MergedAll(next, anchorId, anchor, ds[1..], outside);
      MergedOneKeeps(s, anchorId, anchor, ds[0], outside);
      OneAbsorbs(s, anchorId, anchor, ds[0], outside);
      MergedAllKeeps(next, anchorId, anchor, ds[1..], outside);
      AbsorbedInMore(next, last, anchorId, ds[0], outside);
      MergedAllAbsorbs(next, anchorId, anchor, ds[1..], outside);
      AllAbsorbedCons(last, anchorId, ds, outside);
    }
  }

  lemma AllAbsorbedCons(s: State, anchorId: string, ds: seq<Direction>, outside: bool)
    requires ds != [] && Absorbed(s, anchorId, ds[0], outside) && AllAbsorbed(s, anchorId, ds[1..], outside)
    ensures AllAbsorbed(s, anchorId, ds, outside)
  {
    assert ds == [ds[0]] + ds[1..];
  }

  lemma {:induction false} AllAbsorbedChangesNothing(s: State, anchorId: string, anchor: Rect, ds: seq<Direction>,
                                                     outside: bool)
    requires AllAbsorbed(s, anchorId, ds, outside)
    ensures MergedAll(s, anchorId, anchor, ds, outside) == s
    decreases |ds|
  {
    if ds != [] {
      AbsorbedChangesNothing(s, anchorId, anchor, ds[0], outside);
      AllAbsorbedChangesNothing(s, anchorId, anchor, ds[1..], outside);
    }
  }

  lemma MergedAbsorbs(s: State, anchorId: string, n: Neighbors, outside: bool)
    requires Orderly(s) && anchorId in Ids(s.nodes)
    ensures AllAbsorbed(Merged(s, anchorId, n, outside), anchorId, Directions(n), outside)
  {
    MergedAllAbsorbs(s, anchorId, NodeRect(Find(s.nodes, anchorId).value), Directions(n), outside);
  }

  /** Whatever has been added since, merging what is absorbed changes nothing. */
  lemma AbsorbedMergeChangesNothing(t: State, anchorId: string, n: Neighbors, outside: bool)
    requires AllAbsorbed(t, anchorId, Directions(n), outside)
    ensures Merged(t, anchorId, n, outside) == t
  {
    var anchor := Find(t.nodes, anchorId);
    if anchor.Some? {
      AllAbsorbedChangesNothing(t, anchorId, NodeRect(anchor.value), Directions(n), outside);
    }
  }

  lemma MergeTwice(s: State, anchorId: string, n: Neighbors, outside: bool)
    requires Orderly(s)
    ensures Merged(Merged(s, anchorId, n, outside), anchorId, n, outside) == Merged(s, anchorId, n, outside)
  {
    if anchorId in Ids(s.nodes) {
      MergedAbsorbs(s, anchorId, n, outside);
      AbsorbedMergeChangesNothing(Merged(s, anchorId, n, outside), anchorId, n, outside);
    }
  }
}
