/** Building the subject's canvas, expanding it, and the ghosts shown beside it. */
module EntityGraph {
  import opened Graph
  import opened GraphInvariant
  import opened Layout
  import opened Wrappers

  function Initial(subject: string, name: Option<string>): State {
    State([Node(subject, EntityCard, Subject, 0.0, 0.0, name, false)], [])
  }

  function GhostNeighbors(ghosts: seq<NeighborRow>): Neighbors {
    Neighbors([], ghosts, [], [], [])
  }

  function Unmarked(subject: string, name: Option<string>, n: Neighbors, ghosts: seq<NeighborRow>): State {
    var s := Merged(Initial(subject, name), subject, n, false);
    if ghosts == [] then s else Merged(s, subject, GhostNeighbors(ghosts), true)
  }

  /** Only in-lens flow edges of the subject itself compete to be the primary one. */
  predicate Competes(e: Edge, subject: string) {
    e.share.Some? && !e.outside && (e.source == subject || e.target == subject)
  }

  /** The first of the competing edges with the highest share; a share of -1 or less never wins. */
  function Best(edges: seq<Edge>, subject: string): (b: Option<Edge>)
    ensures b.Some? ==> b.value in edges && Competes(b.value, subject)
    ensures forall e :: e in edges && Competes(e, subject) ==>
              e.share.value <= if b.Some? then b.value.share.value else -1.0
    ensures b.Some? ==> b.value.share.value > -1.0
  {
    if edges == [] then None
    else
      var b, e := Best(edges[..|edges|-1], subject), edges[|edges|-1];
      assert edges == edges[..|edges|-1] + [e];
      if Competes(e, subject) && e.share.value > (if b.Some? then b.value.share.value else -1.0) then Some(e) else b
  }

  /** A payment edge within the lens, from the subject or to it. */
  predicate IsOwnFlow(e: Edge, subject: string) {
    e.share != None && !e.outside && subject in {e.source, e.target}
  }

  /** The edge there competes, no other competing edge has a higher share, and none before it as high a one. */
  ghost predicate LeadsAt(edges: seq<Edge>, subject: string, i: nat) {
    && i < |edges| && IsOwnFlow(edges[i], subject)
    && forall j :: 0 <= j < |edges| && IsOwnFlow(edges[j], subject) ==>
         && edges[j].share.value <= edges[i].share.value
         && (j < i ==> edges[j].share.value < edges[i].share.value)
  }

  /** The best edge is the first of highest share. */
  lemma {:induction false} BestIsFirst(edges: seq<Edge>, subject: string) returns (i: nat)
    requires Best(edges, subject).Some?
    ensures LeadsAt(edges, subject, i) && edges[i] == Best(edges, subject).value
  {
    var front, e := edges[..|edges|-1], edges[|edges|-1];
    var b := Best(front, subject);
    if Competes(e, subject) && e.share.value > (if b.Some? then b.value.share.value else -1.0) {
      i := |edges| - 1;
      forall j | 0 <= j < i && Competes(edges[j], subject) ensures edges[j].share.value < e.share.value {
        assert front[j] in front;
      }
    } else {
      i := BestIsFirst(front, subject);
      assert forall j :: 0 <= j < |front| ==> edges[j] == front[j];
    }
  }

  function MarkOne(e: Edge, id: string): Edge {
    if e.id == id then e.(primary := true) else e
  }

  function Mark(edges: seq<Edge>, id: string): (r: seq<Edge>)
    ensures |r| == |edges| && forall i :: 0 <= i < |r| ==> r[i] == MarkOne(edges[i], id)
  {
    seq(|edges|, i requires 0 <= i < |edges| => MarkOne(edges[i], id))
  }

  function Built(subject: string, name: Option<string>, n: Neighbors, ghosts: seq<NeighborRow>): State {
    var s := Unmarked(subject, name, n, ghosts);
    var best := Best(s.edges, subject);
    if best.None? then s else State(s.nodes, Mark(s.edges, best.value.id))
  }

  method BuildEntityGraph(subject: string, name: Option<string>, n: Neighbors, ghosts: seq<NeighborRow>)
    returns (r: State)
    ensures r == Built(subject, name, n, ghosts)
  {
    r := Initial(subject, name);
    r := Merge(r, subject, n, false);
    if |ghosts| > 0 {
      r := Merge(r, subject, GhostNeighbors(ghosts), true);
    }
    var bestId := BestId(r.edges, subject);
    if bestId.Some? {
      r := State(r.nodes, Mark(r.edges, bestId.value));
    }
  }

  method BestId(edges: seq<Edge>, subject: string) returns (bestId: Option<string>)
    ensures var b := Best(edges, subject);
            bestId == if b.Some? then Some(b.value.id) else None
  {
    bestId := None;
    var bestShare := -1.0;
    for i := 0 to |edges|
      invariant var b := Best(edges[..i], subject);
                if b.None? then bestId == None && bestShare == -1.0
                else bestId == Some(b.value.id) && bestShare == b.value.share.value
    {
      var e := edges[i];
      assert edges[..i+1][..i] == edges[..i];
      if e.share.None? || e.outside {
        continue;
      }
      if e.source != subject && e.target != subject {
        continue;
      }
      if e.share.value > bestShare {
        bestShare := e.share.value;
        bestId := Some(e.id);
      }
    }
    assert edges[..|edges|] == edges;
  }

  function Expanded(s: State, parent: string, n: Neighbors): State {
    Merged(s, parent, n, false)
  }

  datatype Expansion = Expansion(parent: string, neighbors: Neighbors)

  function ExpandedAll(s: State, steps: seq<Expansion>): State
    decreases |steps|
  {
    if steps == [] then s else ExpandedAll(Expanded(s, steps[0].parent, steps[0].neighbors), steps[1..])
  }

  // ----- the canvas invariant

  function AllAddresses(ds: seq<Direction>): set<string>
    decreases |ds|
  {
    if ds == [] then {} else Addresses(ds[0].rows) + AllAddresses(ds[1..])
  }

  lemma {:induction false} MergedAllIds(s: State, anchorId: string, anchor: Rect, ds: seq<Direction>, outside: bool)
    requires forall d :: d in ds ==> d.role != Subject
    ensures Ids(MergedAll(s, anchorId, anchor, ds, outside).nodes) == Ids(s.nodes) + AllAddresses(ds)
    decreases |ds|
  {
    if ds != [] {
      var news := NewNodes(s.nodes, anchor, ds[0], outside);
      NewNodesFit(s.nodes, anchor, ds[0], outside);
      NewIds(s.nodes, news, ds[0].rows);
      MergedAllIds(MergedOne(s, anchorId, anchor, ds[0], outside), anchorId, anchor, ds[1..], outside);
    }
  }

  lemma InitialIsOrderly(subject: string, name: Option<string>)
    ensures var s := Initial(subject, name);
            Orderly(s) && UniqueIds(s.nodes) && Ids(s.nodes) == {subject}
  {
    var s := Initial(subject, name);
    assert s.nodes[0] in s.nodes;
  }

  lemma MarkKeepsOrder(s: State, id: string)
    requires Orderly(s)
    ensures Orderly(State(s.nodes, Mark(s.edges, id)))
  {
    var marked := Mark(s.edges, id);
    forall e | e in marked
      ensures e.source in Ids(s.nodes) && e.target in Ids(s.nodes) && e.id == EdgeId(e.source, e.target, e.verb)
    {
      var i :| 0 <= i < |marked| && marked[i] == e;
      assert s.edges[i] in s.edges;
    }
  }

  lemma OnlyPayeesHaveRows(ghosts: seq<NeighborRow>)
    ensures AllAddresses(Directions(GhostNeighbors(ghosts))) == Addresses(ghosts)
  {
    var ds := Directions(GhostNeighbors(ghosts));
    var none: seq<NeighborRow> := [];
    assert ds[0].rows == none && ds[1].rows == ghosts && ds[2].rows == none && ds[3].rows == none && ds[4].rows == none;
    assert Addresses(none) == {};
    assert ds[4..][1..] == [];
    assert AllAddresses(ds[4..]) == {};
    assert ds[3..][1..] == ds[4..];
    assert AllAddresses(ds[3..]) == {};
    assert ds[2..][1..] == ds[3..];
    assert AllAddresses(ds[2..]) == {};
    assert ds[1..][1..] == ds[2..];
    assert AllAddresses(ds[1..]) == Addresses(ghosts);
  }

  lemma NoRowsNoneRepeated(known: set<string>, ghosts: seq<NeighborRow>)
    ensures NoneRepeated(known, Directions(GhostNeighbors(ghosts))) <==> DistinctAddresses(Fresh(known, ghosts))
    ensures AllAddresses(Directions(GhostNeighbors(ghosts))) == Addresses(ghosts)
  {
    var ds := Directions(GhostNeighbors(ghosts));
    var k := known + Addresses([]) + Addresses(ghosts);
    assert Addresses([]) == {} && known + Addresses([]) == known;
    assert NoneRepeated(k, ds[2..]) by {
      assert ds[2..][1..] == ds[3..] && ds[3..][1..] == ds[4..] && ds[4..][1..] == [];
      assert NoneRepeated(k, ds[4..]);
      assert NoneRepeated(k, ds[3..]);
    }
    assert ds[1..][1..] == ds[2..];
    assert AllAddresses(ds) == Addresses(ghosts) by {
      OnlyPayeesHaveRows(ghosts);
    }
  }

  /** The canvas of the lens alone. */
  lemma InLensIsOrderly(subject: string, name: Option<string>, n: Neighbors)
    ensures var s := Merged(Initial(subject, name), subject, n, false);
            && Orderly(s) && Ids(s.nodes) == {subject} + AllAddresses(Directions(n))
            && (UniqueIds(s.nodes) <==> NoneRepeated({subject}, Directions(n)))
  {
    var s0 := Initial(subject, name);
    InitialIsOrderly(subject, name);
    MergedKeeps(s0, subject, n, false);
    MergedAllIds(s0, subject, NodeRect(Find(s0.nodes, subject).value), Directions(n), false);
  }

  lemma UnmarkedIsOrderly(subject: string, name: Option<string>, n: Neighbors, ghosts: seq<NeighborRow>)
    ensures Orderly(Unmarked(subject, name, n, ghosts))
    ensures UniqueIds(Unmarked(subject, name, n, ghosts).nodes)
            <==> NoneRepeated({subject}, Directions(n))
                 && DistinctAddresses(Fresh({subject} + AllAddresses(Directions(n)), ghosts))
  {
    InLensIsOrderly(subject, name, n);
    var s1 := Merged(Initial(subject, name), subject, n, false);
    if ghosts != [] {
      MergedKeeps(s1, subject, GhostNeighbors(ghosts), true);
      NoRowsNoneRepeated(Ids(s1.nodes), ghosts);
    }
  }

  /**
   Every canvas that can be built is orderly.  Its cards have ids of their own
   exactly when no list repeats an address that is not on the canvas before it.
   */
  lemma BuildIsOrderly(subject: string, name: Option<string>, n: Neighbors, ghosts: seq<NeighborRow>)
    ensures Orderly(Built(subject, name, n, ghosts))
    ensures UniqueIds(Built(subject, name, n, ghosts).nodes)
            <==> NoneRepeated({subject}, Directions(n))
                 && DistinctAddresses(Fresh({subject} + AllAddresses(Directions(n)), ghosts))
  {
    var s := Unmarked(subject, name, n, ghosts);
    UnmarkedIsOrderly(subject, name, n, ghosts);
    var best := Best(s.edges, subject);
    if best.Some? {
      MarkKeepsOrder(s, best.value.id);
    }
  }

  /** The edges are as before, but for the mark: one edge has it, or none. */
  ghost predicate MarkedAt(before: seq<Edge>, after: seq<Edge>, marked: Option<nat>) {
    && |after| == |before|
    && forall j :: 0 <= j < |after| ==>
         !before[j].primary && after[j] == before[j].(primary := marked == Some(j))
  }

  /** The first flow edge of the subject with the highest share is primary, and no other; none if none competes. */
  lemma OnePrimary(subject: string, name: Option<string>, n: Neighbors, ghosts: seq<NeighborRow>)
    returns (marked: Option<nat>)
    ensures var s, r := Unmarked(subject, name, n, ghosts), Built(subject, name, n, ghosts);
            && r.nodes == s.nodes && MarkedAt(s.edges, r.edges, marked)
            && (marked.Some? ==> LeadsAt(s.edges, subject, marked.value))
            && (marked.None? ==> forall e :: e in s.edges && IsOwnFlow(e, subject) ==> e.share.value <= -1.0)
  {
    var s := Unmarked(subject, name, n, ghosts);
    UnmarkedIsPlain(subject, name, n, ghosts);
    var best := Best(s.edges, subject);
    if best.Some? {
      var i := BestIsFirst(s.edges, subject);
      marked := Some(i);
      OnlyBestMarked(s.edges, i);
    } else {
      marked := None;
      forall j | 0 <= j < |s.edges| ensures !s.edges[j].primary {
        assert s.edges[j] in s.edges;
      }
    }
  }

  lemma UnmarkedIsPlain(subject: string, name: Option<string>, n: Neighbors, ghosts: seq<NeighborRow>)
    ensures var s := Unmarked(subject, name, n, ghosts);
            UniqueEdgeIds(s.edges) && forall e :: e in s.edges ==> !e.primary
  {
    var s0 := Initial(subject, name);
    InitialIsOrderly(subject, name);
    var s1 := Merged(s0, subject, n, false);
    MergedKeeps(s0, subject, n, false);
    NonePrimary(s0, subject, n, false);
    if ghosts != [] {
      MergedKeeps(s1, subject, GhostNeighbors(ghosts), true);
      NonePrimary(s1, subject, GhostNeighbors(ghosts), true);
    }
  }

  lemma OnlyBestMarked(edges: seq<Edge>, i: nat)
    requires UniqueEdgeIds(edges) && (forall e :: e in edges ==> !e.primary) && i < |edges|
    ensures MarkedAt(edges, Mark(edges, edges[i].id), Some(i))
  {
    forall j | 0 <= j < |edges| ensures !edges[j].primary && (edges[j].id == edges[i].id ==> j == i) {
      assert edges[j] in edges;
    }
  }

  lemma NonePrimary(s: State, anchorId: string, n: Neighbors, outside: bool)
    requires forall e :: e in s.edges ==> !e.primary
    ensures forall e :: e in Merged(s, anchorId, n, outside).edges ==> !e.primary
  {
    var anchor := Find(s.nodes, anchorId);
    if anchor.Some? {
      NonePrimaryAll(s, anchorId, NodeRect(anchor.value), Directions(n), outside);
    }
  }

  lemma {:induction false} NonePrimaryAll(s: State, anchorId: string, anchor: Rect, ds: seq<Direction>, outside: bool)
    requires forall e :: e in s.edges ==> !e.primary
    ensures forall e :: e in MergedAll(s, anchorId, anchor, ds, outside).edges ==> !e.primary
    decreases |ds|
  {
    if ds != [] {
      AddEdgesGrows(s.edges, anchorId, ds[0], ds[0].rows, outside);
      NonePrimaryAll(MergedOne(s, anchorId, anchor, ds[0], outside), anchorId, anchor, ds[1..], outside);
    }
  }

  /** The server groups by counterparty, so each of its lists names an address once. */
  ghost predicate Grouped(n: Neighbors) {
    forall d :: d in Directions(n) ==> DistinctAddresses(d.rows)
  }

  lemma {:induction false} FreshOfDistinct(known: set<string>, rows: seq<NeighborRow>)
    requires DistinctAddresses(rows)
    ensures DistinctAddresses(Fresh(known, rows))
  {
    if rows != [] {
      var rest := Fresh(known, rows[1..]);
      FreshOfDistinct(known, rows[1..]);
      forall j | 0 <= j < |rest| ensures rest[j].address != rows[0].address {
        assert rest[j] in rows[1..];
        var k :| 0 <= k < |rows[1..]| && rows[1..][k] == rest[j];
        assert rows[k + 1].address != rows[0].address;
      }
    }
  }

  lemma {:induction false} GroupedNeverRepeats(known: set<string>, ds: seq<Direction>)
    requires forall d :: d in ds ==> DistinctAddresses(d.rows)
    ensures NoneRepeated(known, ds)
    decreases |ds|
  {
    if ds != [] {
      FreshOfDistinct(known, ds[0].rows);
      GroupedNeverRepeats(known + Addresses(ds[0].rows), ds[1..]);
    }
  }

  /**
   Any sequence of expansions keeps the canvas orderly, moves and removes nothing,
   and with grouped lists keeps ids unique; then making an expansion twice in a row is
   making it once.
   */
  lemma {:induction false} ExpansionsKeepOrder(s: State, steps: seq<Expansion>)
    requires Orderly(s)
    ensures var t := ExpandedAll(s, steps);
            && Orderly(t) && Grew(s, t)
            && (UniqueIds(s.nodes) && (forall x :: x in steps ==> Grouped(x.neighbors)) ==> UniqueIds(t.nodes))
            && forall x: Expansion ::
                 var u := Expanded(t, x.parent, x.neighbors);
                 Expanded(u, x.parent, x.neighbors) == u
    decreases |steps|
  {
    if steps != [] {
      var x := steps[0];
      MergedKeeps(s, x.parent, x.neighbors, false);
      if Grouped(x.neighbors) {
        GroupedNeverRepeats(Ids(s.nodes), Directions(x.neighbors));
      }
      assert x in steps && forall y :: y in steps[1..] ==> y in steps;
      ExpansionsKeepOrder(Expanded(s, x.parent, x.neighbors), steps[1..]);
    } else {
      forall x: Expansion
        ensures var u := Expanded(s, x.parent, x.neighbors); Expanded(u, x.parent, x.neighbors) == u
      {
        MergeTwice(s, x.parent, x.neighbors, false);
      }
    }
  }

  /**
   However many other expansions come in between, making an expansion again changes
   nothing, if its card was on the canvas the first time.  If it was not, the first time
   changed nothing.
   */
  lemma RepeatedExpansionChangesNothing(s: State, x: Expansion, steps: seq<Expansion>)
    requires Orderly(s)
    ensures x.parent !in Ids(s.nodes) ==> Expanded(s, x.parent, x.neighbors) == s
    ensures x.parent in Ids(s.nodes) ==>
              var t := ExpandedAll(Expanded(s, x.parent, x.neighbors), steps);
              Expanded(t, x.parent, x.neighbors) == t
  {
    var u := Expanded(s, x.parent, x.neighbors);
    MergedKeeps(s, x.parent, x.neighbors, false);
    if x.parent in Ids(s.nodes) {
      var t := ExpandedAll(u, steps);
      MergedAbsorbs(s, x.parent, x.neighbors, false);
      ExpansionsKeepOrder(u, steps);
      AllAbsorbedInMore(u, t, x.parent, Directions(x.neighbors), false);
      AbsorbedMergeChangesNothing(t, x.parent, x.neighbors, false);
    }
  }

  // ----- ghosts

  function GhostRows(knownRows: seq<NeighborRow>, allRows: seq<NeighborRow>, cap: nat): seq<NeighborRow> {
    var unknown := Fresh(Addresses(knownRows), allRows);
    if |unknown| <= cap then unknown else unknown[..cap]
  }

  function DirectionRows(n: Neighbors): seq<NeighborRow> {
    n.payers + n.payees
  }

  const GHOST_CAP: nat := 4

  /** The canvas of the entity page under the known lens, ghosts taken from the all lens. */
  function KnownLensCanvas(subject: string, name: Option<string>, known: Neighbors, all: Neighbors): State {
    Built(subject, name, known, GhostRows(DirectionRows(known), DirectionRows(all), GHOST_CAP))
  }

  lemma {:induction false} NoneKnown(known: set<string>, rows: seq<NeighborRow>)
    requires forall r :: r in rows ==> r.address !in known
    ensures Fresh(known, rows) == rows
  {
    if rows != [] {
      assert rows[0] in rows && rows == [rows[0]] + rows[1..];
      NoneKnown(known, rows[1..]);
    }
  }

  /**
   Exactly when: with grouped lists, the known-lens canvas has unique ids if and only if
   no address among the chosen ghosts occurs twice without being on the canvas already.
   */
  lemma KnownLensIdsUnique(subject: string, name: Option<string>, known: Neighbors, all: Neighbors)
    requires Grouped(known)
    ensures var ghosts := GhostRows(DirectionRows(known), DirectionRows(all), GHOST_CAP);
            UniqueIds(KnownLensCanvas(subject, name, known, all).nodes)
            <==> forall i, j :: 0 <= i < j < |ghosts| && ghosts[i].address == ghosts[j].address ==>
                   ghosts[i].address == subject || ghosts[i].address in AllAddresses(Directions(known))
  {
    var ghosts := GhostRows(DirectionRows(known), DirectionRows(all), GHOST_CAP);
    var taken := {subject} + AllAddresses(Directions(known));
    BuildIsOrderly(subject, name, known, ghosts);
    GroupedNeverRepeats({subject}, Directions(known));
    RepeatsAmongFresh(taken, ghosts);
  }

  /**
   Although every list the server sends is grouped, an address that both pays and is paid
   outside the known lens is taken as a ghost twice, and two cards share its id.
   */
  lemma GhostCanAppearTwice()
    ensures exists known, all :: Grouped(known) && Grouped(all)
                                 && !UniqueIds(KnownLensCanvas("a", None, known, all).nodes)
  {
    var b := NeighborRow("b", None, 1.0);
    var known, all := GhostNeighbors([]), Neighbors([b], [b], [], [], []);
    TwiceAGhost(b);
    ShortListsAreGrouped(known);
    ShortListsAreGrouped(all);
    OnlyPayeesHaveRows([]);
    TwoCardsShareAnId("a", known, all, b);
  }

  lemma TwoCardsShareAnId(subject: string, known: Neighbors, all: Neighbors, b: NeighborRow)
    requires Grouped(known) && b.address != subject && b.address !in AllAddresses(Directions(known))
    requires GhostRows(DirectionRows(known), DirectionRows(all), GHOST_CAP) == [b, b]
    ensures !UniqueIds(KnownLensCanvas(subject, None, known, all).nodes)
  {
    var ghosts := [b, b];
    assert ghosts[0].address == ghosts[1].address;
    KnownLensIdsUnique(subject, None, known, all);
  }

  lemma ShortListsAreGrouped(n: Neighbors)
    requires |n.payers| <= 1 && |n.payees| <= 1 && |n.facilitators| <= 1
    requires |n.settledPayers| <= 1 && |n.settledPayees| <= 1
    ensures Grouped(n)
  {
    var ds := Directions(n);
    forall d | d in ds ensures DistinctAddresses(d.rows) {
      assert d == ds[0] || d == ds[1] || d == ds[2] || d == ds[3] || d == ds[4];
    }
  }

  lemma TwiceAGhost(b: NeighborRow)
    ensures GhostRows(DirectionRows(GhostNeighbors([])), DirectionRows(Neighbors([b], [b], [], [], [])), GHOST_CAP)
         == [b, b]
  {
    var none: seq<NeighborRow> := [];
    assert DirectionRows(GhostNeighbors([])) == none && [b] + [b] == [b, b];
    NoneKnown(Addresses([]), [b, b]);
  }

  ghost predicate RepeatsTaken(known: set<string>, rows: seq<NeighborRow>) {
    forall i, j :: 0 <= i < j < |rows| && rows[i].address == rows[j].address ==> rows[i].address in known
  }

  lemma {:induction false} RepeatsAmongFresh(known: set<string>, rows: seq<NeighborRow>)
    ensures DistinctAddresses(Fresh(known, rows)) <==> RepeatsTaken(known, rows)
  {
    if rows != [] {
      var r, tail := rows[0], rows[1..];
      RepeatsAmongFresh(known, tail);
      HeadRepeats(known, rows);
      if r.address in known {
        assert Fresh(known, rows) == Fresh(known, tail);
      } else {
        assert Fresh(known, rows) == [r] + Fresh(known, tail);
        NewHeadRepeats(known, r, tail);
      }
    }
  }

  lemma NewHeadRepeats(known: set<string>, r: NeighborRow, rows: seq<NeighborRow>)
    requires r.address !in known
    ensures DistinctAddresses([r] + Fresh(known, rows)) <==> DistinctAddresses(Fresh(known, rows)) && RowIsNew(r, rows)
  {
    DistinctCons(r, Fresh(known, rows));
    NewAmongFresh(known, r, rows);
  }

  lemma NewAmongFresh(known: set<string>, r: NeighborRow, rows: seq<NeighborRow>)
    requires r.address !in known
    ensures RowIsNew(r, Fresh(known, rows)) <==> RowIsNew(r, rows)
  {
  }

  ghost predicate RowIsNew(r: NeighborRow, rows: seq<NeighborRow>) {
    forall x :: x in rows ==> x.address != r.address
  }

  lemma DistinctCons(r: NeighborRow, rows: seq<NeighborRow>)
    ensures DistinctAddresses([r] + rows) <==> DistinctAddresses(rows) && RowIsNew(r, rows)
  {
    var all := [r] + rows;
    if DistinctAddresses(all) {
      forall i, j | 0 <= i < j < |rows| ensures rows[i].address != rows[j].address {
        assert all[i+1].address != all[j+1].address;
      }
      forall x | x in rows ensures x.address != r.address {
        var j :| 0 <= j < |rows| && rows[j] == x;
        assert all[0].address != all[j+1].address;
      }
    }
  }

  lemma HeadRepeats(known: set<string>, rows: seq<NeighborRow>)
    requires rows != []
    ensures RepeatsTaken(known, rows)
            <==> RepeatsTaken(known, rows[1..]) && (rows[0].address in known || RowIsNew(rows[0], rows[1..]))
  {
    var tail := rows[1..];
    if RepeatsTaken(known, rows) {
      forall i, j | 0 <= i < j < |tail| && tail[i].address == tail[j].address ensures tail[i].address in known {
        assert rows[i+1].address == rows[j+1].address;
      }
      if rows[0].address !in known {
        forall x | x in tail ensures x.address != rows[0].address {
          var j :| 0 <= j < |tail| && tail[j] == x;
          assert rows[j+1] == x;
        }
      }
    }
    if RepeatsTaken(known, tail) && (rows[0].address in known || RowIsNew(rows[0], tail)) {
      forall i, j | 0 <= i < j < |rows| && rows[i].address == rows[j].address ensures rows[i].address in known {
        assert tail[j-1] == rows[j] && rows[j] in tail;
        if i > 0 {
          assert tail[i-1] == rows[i];
        }
      }
    }
  }

  function FirstMark(id: string): nat {
    if id == "" || id[0] == '-' || id[0] == '=' then 0 else 1 + FirstMark(id[1..])
  }

  lemma {:induction false} FirstMarkAfter(s: string, rest: string)
    requires '-' !in s && '=' !in s && rest != "" && (rest[0] == '-' || rest[0] == '=')
    ensures FirstMark(s + rest) == |s|
  {
    if s == "" {
      assert s + rest == rest;
    } else {
      assert (s + rest)[1..] == s[1..] + rest;
      FirstMarkAfter(s[1..], rest);
    }
  }

  /** Ids of edges between addresses free of '-' and '=' are never confused. */
  lemma EdgeIdsTellEdgesApart(s: string, t: string, v: bool, s': string, t': string, v': bool)
    requires '-' !in s && '=' !in s && '-' !in s' && '=' !in s'
    requires EdgeId(s, t, v) == EdgeId(s', t', v')
    ensures s == s' && t == t' && v == v'
  {
    var id := EdgeId(s, t, v);
    var rest, rest' := (if v then "=>" else "->") + t, (if v' then "=>" else "->") + t';
    assert id == s + rest && id == s' + rest';
    FirstMarkAfter(s, rest);
    FirstMarkAfter(s', rest');
    assert id[..|s|] == s && id[..|s|] == s';
    assert id[|s|..] == rest && id[|s|..] == rest';
    assert rest[0] == rest'[0] && rest[2..] == t && rest'[2..] == t';
  }
}
