/**
 Column layout: boxes are stacked around a centre line and pushed down past
 whatever already occupies the canvas.
 */
module Layout {
  import opened Wrappers

  const NODE_W: real := 300.0
  const NODE_H: real := 150.0
  const GHOST_W: real := 230.0
  const GHOST_H: real := 80.0
  const COL_GAP: real := 240.0
  const ROW_GAP: real := 36.0

  datatype Rect = Rect(x: real, y: real, w: real, h: real)
  datatype Box = Box(w: real, h: real)
  datatype Dir = Left | Right | Up

  predicate Overlaps(a: Rect, b: Rect) {
    a.x < b.x + b.w && b.x < a.x + a.w && a.y < b.y + b.h && b.y < a.y + a.h
  }

  /** The point lies within the rectangle, off its border. */
  predicate Inside(x: real, y: real, r: Rect) {
    r.x < x < r.x + r.w && r.y < y < r.y + r.h
  }

  function Later(a: real, b: real): real {
    if a < b then b else a
  }

  function Sooner(a: real, b: real): real {
    if a < b then a else b
  }

  /** Two cards overlap just when some point lies within both. */
  lemma OverlapMeans(a: Rect, b: Rect)
    requires a.w > 0.0 && a.h > 0.0 && b.w > 0.0 && b.h > 0.0
    ensures Overlaps(a, b) <==> exists x, y :: Inside(x, y, a) && Inside(x, y, b)
  {
    if Overlaps(a, b) {
      var x := (Later(a.x, b.x) + Sooner(a.x + a.w, b.x + b.w)) / 2.0;
      var y := (Later(a.y, b.y) + Sooner(a.y + a.h, b.y + b.h)) / 2.0;
      assert Inside(x, y, a) && Inside(x, y, b);
    }
  }

  function ColumnX(anchor: Rect, dir: Dir, w: real): real {
    match dir
    case Right => anchor.x + anchor.w + COL_GAP
    case Left => anchor.x - COL_GAP - w
    case Up => anchor.x
  }

  /** The first rectangle the probe overlaps. */
  function Collider(rects: seq<Rect>, probe: Rect): (hit: Option<Rect>)
    ensures hit.None? <==> forall r :: r in rects ==> !Overlaps(probe, r)
    ensures hit.Some? ==> hit.value in rects && Overlaps(probe, hit.value)
  {
    if rects == [] then None
    else if Overlaps(probe, rects[0]) then Some(rects[0])
    else Collider(rects[1..], probe)
  }

  /** How many rectangles reach below the line y; each push-down leaves fewer of them. */
  function Reaching(rects: seq<Rect>, y: real): nat {
    if rects == [] then 0
    else (if rects[0].y + rects[0].h > y then 1 else 0) + Reaching(rects[1..], y)
  }

  lemma {:induction false} ReachingFalls(rects: seq<Rect>, y: real, lower: real)
    requires y <= lower
    ensures Reaching(rects, lower) <= Reaching(rects, y)
    ensures (exists r :: r in rects && y < r.y + r.h <= lower) ==> Reaching(rects, lower) < Reaching(rects, y)
  {
    if rects != [] {
      ReachingFalls(rects[1..], y, lower);
    }
  }

  function Below(hit: Rect): real {
    hit.y + hit.h + ROW_GAP
  }

  /** Where a box comes to rest. */
  function Settled(rects: seq<Rect>, probe: Rect): Rect
    decreases Reaching(rects, probe.y)
  {
    var hit := Collider(rects, probe);
    if hit.None? then probe
    else
      ReachingFalls(rects, probe.y, Below(hit.value));
      Settled(rects, probe.(y := Below(hit.value)))
  }

  /** It rests clear of everything, straight below where it was wanted: there, or one gap beneath an obstacle. */
  lemma {:induction false} SettledIsClear(rects: seq<Rect>, probe: Rect)
    ensures var r := Settled(rects, probe);
            && (forall o :: o in rects ==> !Overlaps(r, o))
            && r == probe.(y := r.y) && r.y >= probe.y
            && (r.y == probe.y || exists o :: o in rects && r.y == Below(o))
    decreases Reaching(rects, probe.y)
  {
    var hit := Collider(rects, probe);
    if hit.Some? {
      ReachingFalls(rects, probe.y, Below(hit.value));
      SettledIsClear(rects, probe.(y := Below(hit.value)));
    }
  }

  function TotalHeight(sizes: seq<Box>): real {
    if sizes == [] then 0.0 else TotalHeight(sizes[..|sizes|-1]) + sizes[|sizes|-1].h
  }

  function Top(centerY: real, sizes: seq<Box>): real {
    centerY - (TotalHeight(sizes) + ROW_GAP * (if |sizes| == 0 then 0.0 else (|sizes| - 1) as real)) / 2.0
  }

  function Stack(rects: seq<Rect>, x: real, y: real, sizes: seq<Box>): seq<Rect>
    decreases |sizes|
  {
    if sizes == [] then []
    else
      var r := Settled(rects, Rect(x, y, sizes[0].w, sizes[0].h));
      [r] + Stack(rects + [r], x, Below(r), sizes[1..])
  }

  function Column(occupied: seq<Rect>, x: real, centerY: real, sizes: seq<Box>): seq<Rect> {
    Stack(occupied, x, Top(centerY, sizes), sizes)
  }

  /** No two cards touch. */
  ghost predicate Apart(rects: seq<Rect>) {
    forall i, j :: 0 <= i < j < |rects| ==> !Overlaps(rects[i], rects[j])
  }

  /** Where the i-th card of a column was wanted. */
  function Wanted(placed: seq<Rect>, y: real, i: nat): real
    requires i <= |placed|
  {
    if i == 0 then y else Below(placed[i-1])
  }

  /** One card per box, in order and in one column, at least a row gap between neighbours. */
  ghost predicate Stacked(placed: seq<Rect>, x: real, y: real, sizes: seq<Box>) {
    && |placed| == |sizes|
    && forall i :: 0 <= i < |sizes| ==>
         && placed[i].x == x && placed[i].w == sizes[i].w && placed[i].h == sizes[i].h
         && placed[i].y >= Wanted(placed, y, i)
  }

  /** A card is out of its place only to lie one gap beneath an obstacle. */
  ghost predicate PushedOnlyByObstacles(placed: seq<Rect>, y: real, rects: seq<Rect>) {
    forall i :: 0 <= i < |placed| ==> PushedAt(placed, y, rects, i)
  }

  lemma StackedCons(r: Rect, rest: seq<Rect>, x: real, y: real, sizes: seq<Box>)
    requires sizes != [] && r == Rect(x, r.y, sizes[0].w, sizes[0].h) && r.y >= y
    requires Stacked(rest, x, Below(r), sizes[1..])
    ensures Stacked([r] + rest, x, y, sizes)
  {
    var placed := [r] + rest;
    forall i | 0 < i < |sizes|
      ensures placed[i] == rest[i-1] && sizes[i] == sizes[1..][i-1]
      ensures Wanted(placed, y, i) == Wanted(rest, Below(r), i - 1)
    {
    }
  }

  /** The card is in its place or one gap beneath an obstacle. */
  ghost predicate PushedAt(placed: seq<Rect>, y: real, rects: seq<Rect>, i: nat)
    requires i < |placed|
  {
    placed[i].y == Wanted(placed, y, i) || exists o :: o in rects + placed[..i] && placed[i].y == Below(o)
  }

  lemma PushedLater(r: Rect, rest: seq<Rect>, y: real, rects: seq<Rect>, i: nat)
    requires i < |rest| && PushedAt(rest, Below(r), rects + [r], i)
    ensures PushedAt([r] + rest, y, rects, i + 1)
  {
    var placed := [r] + rest;
    assert Wanted(placed, y, i + 1) == Wanted(rest, Below(r), i);
    assert rects + placed[..i+1] == (rects + [r]) + rest[..i];
  }

  lemma PushedCons(r: Rect, rest: seq<Rect>, y: real, rects: seq<Rect>)
    requires r.y == y || exists o :: o in rects && r.y == Below(o)
    requires PushedOnlyByObstacles(rest, Below(r), rects + [r])
    ensures PushedOnlyByObstacles([r] + rest, y, rects)
  {
    var placed := [r] + rest;
    assert rects + placed[..0] == rects;
    forall i | 0 < i < |placed| ensures PushedAt(placed, y, rects, i) {
      assert PushedAt(rest, Below(r), rects + [r], i - 1);
      PushedLater(r, rest, y, rects, i - 1);
    }
  }

  lemma {:induction false} StackIsStacked(rects: seq<Rect>, x: real, y: real, sizes: seq<Box>)
    ensures Stacked(Stack(rects, x, y, sizes), x, y, sizes)
    ensures PushedOnlyByObstacles(Stack(rects, x, y, sizes), y, rects)
    decreases |sizes|
  {
    if sizes != [] {
      var r := Settled(rects, Rect(x, y, sizes[0].w, sizes[0].h));
      SettledIsClear(rects, Rect(x, y, sizes[0].w, sizes[0].h));
      StackIsStacked(rects + [r], x, Below(r), sizes[1..]);
      StackedCons(r, Stack(rects + [r], x, Below(r), sizes[1..]), x, y, sizes);
      PushedCons(r, Stack(rects + [r], x, Below(r), sizes[1..]), y, rects);
    }
  }

  lemma ColumnIsStacked(occupied: seq<Rect>, x: real, centre: real, sizes: seq<Box>)
    ensures var placed := Column(occupied, x, centre, sizes);
            && Stacked(placed, x, Top(centre, sizes), sizes)
            && PushedOnlyByObstacles(placed, Top(centre, sizes), occupied)
  {
    StackIsStacked(occupied, x, Top(centre, sizes), sizes);
  }

  lemma {:induction false} StackIsClear(rects: seq<Rect>, x: real, y: real, sizes: seq<Box>)
    ensures Apart(Stack(rects, x, y, sizes))
    ensures forall r, o :: r in Stack(rects, x, y, sizes) && o in rects ==> !Overlaps(r, o)
    decreases |sizes|
  {
    if sizes != [] {
      var probe := Rect(x, y, sizes[0].w, sizes[0].h);
      var r := Settled(rects, probe);
      var rest := Stack(rects + [r], x, Below(r), sizes[1..]);
      SettledIsClear(rects, probe);
      StackIsClear(rects + [r], x, Below(r), sizes[1..]);
      assert r in rects + [r];
      ApartJoins([r], rest);
      forall c, o | c in [r] + rest && o in rects ensures !Overlaps(c, o) {
        assert o in rects + [r];
      }
    }
  }

  lemma ApartJoins(a: seq<Rect>, b: seq<Rect>)
    requires Apart(a) && Apart(b)
    requires forall r, o :: r in b && o in a ==> !Overlaps(r, o)
    ensures Apart(a + b)
  {
    forall i, j | 0 <= i < j < |a + b| ensures !Overlaps((a + b)[i], (a + b)[j]) {
      if i < |a| <= j {
        assert (a + b)[j] in b && (a + b)[i] in a;
      }
    }
  }

  /** A new column leaves an orderly canvas orderly. */
  lemma ColumnKeepsApart(occupied: seq<Rect>, x: real, centerY: real, sizes: seq<Box>)
    requires Apart(occupied)
    ensures Stacked(Column(occupied, x, centerY, sizes), x, Top(centerY, sizes), sizes)
    ensures PushedOnlyByObstacles(Column(occupied, x, centerY, sizes), Top(centerY, sizes), occupied)
    ensures Apart(occupied + Column(occupied, x, centerY, sizes))
  {
    StackIsStacked(occupied, x, Top(centerY, sizes), sizes);
    StackIsClear(occupied, x, Top(centerY, sizes), sizes);
    ApartJoins(occupied, Column(occupied, x, centerY, sizes));
  }

  /** Where a column ends that nothing pushes down. */
  function FreeEnd(y: real, sizes: seq<Box>): real {
    y + TotalHeight(sizes) + ROW_GAP * (if |sizes| == 0 then 0.0 else (|sizes| - 1) as real)
  }

  lemma {:induction false} HeightFromFirst(sizes: seq<Box>)
    requires sizes != []
    ensures TotalHeight(sizes) == sizes[0].h + TotalHeight(sizes[1..])
  {
    var n := |sizes| - 1;
    if n > 0 {
      HeightFromFirst(sizes[..n]);
      assert sizes[1..][..n-1] == sizes[..n][1..];
    } else {
      assert sizes[..0] == [] && sizes[1..] == [] && TotalHeight([]) == 0.0;
    }
  }

  /** With everything in the way lying above, cards stack with exactly the gap between them. */
  lemma {:induction false} FreeStack(rects: seq<Rect>, x: real, y: real, sizes: seq<Box>)
    requires sizes != [] && (forall b :: b in sizes ==> b.h >= 0.0) && forall o :: o in rects ==> o.y + o.h <= y
    ensures var placed := Stack(rects, x, y, sizes);
            && |placed| == |sizes| && placed[0].y == y
            && placed[|placed|-1].y + placed[|placed|-1].h == FreeEnd(y, sizes)
    decreases |sizes|
  {
    var probe := Rect(x, y, sizes[0].w, sizes[0].h);
    HeightFromFirst(sizes);
    var rest := sizes[1..];
    if rest == [] {
      assert Stack(rects + [probe], x, Below(probe), rest) == [];
    } else {
      assert sizes[0] in sizes;
      FreeStack(rects + [probe], x, Below(probe), rest);
    }
  }

  /** On an empty canvas a column is centred on the line it was asked for. */
  lemma ColumnIsCentred(x: real, centerY: real, sizes: seq<Box>)
    requires sizes != [] && forall b :: b in sizes ==> b.h >= 0.0
    ensures var placed := Column([], x, centerY, sizes);
            && |placed| == |sizes|
            && centerY - placed[0].y == placed[|placed|-1].y + placed[|placed|-1].h - centerY
  {
    FreeStack([], x, Top(centerY, sizes), sizes);
  }

  lemma StackHead(rects: seq<Rect>, x: real, y: real, sizes: seq<Box>, rect: Rect)
    requires sizes != [] && rect == Settled(rects, Rect(x, y, sizes[0].w, sizes[0].h))
    ensures Stack(rects, x, y, sizes) == [rect] + Stack(rects + [rect], x, Below(rect), sizes[1..])
  {
  }

  lemma Reassociate(a: seq<Rect>, b: seq<Rect>, c: seq<Rect>)
    ensures a + (b + c) == (a + b) + c
  {
  }

  lemma StackStep(occupied: seq<Rect>, placed: seq<Rect>, rect: Rect, x: real, y: real, sizes: seq<Box>)
    requires sizes != [] && rect == Settled(occupied + placed, Rect(x, y, sizes[0].w, sizes[0].h))
    ensures placed + Stack(occupied + placed, x, y, sizes)
         == (placed + [rect]) + Stack(occupied + (placed + [rect]), x, Below(rect), sizes[1..])
  {
    StackHead(occupied + placed, x, y, sizes, rect);
    Reassociate(occupied, placed, [rect]);
    Reassociate(placed, [rect], Stack(occupied + (placed + [rect]), x, Below(rect), sizes[1..]));
  }

  /** Pushing the probe down until nothing is in its way. */
  method Settle(all: seq<Rect>, probe: Rect) returns (rect: Rect)
    ensures rect == Settled(all, probe)
  {
    rect := probe;
    while true
      invariant Settled(all, rect) == Settled(all, probe)
      decreases Reaching(all, rect.y)
    {
      var hit := Collider(all, rect);
      if hit.None? {
        break;
      }
      ReachingFalls(all, rect.y, Below(hit.value));
      rect := rect.(y := hit.value.y + hit.value.h + ROW_GAP);
    }
  }

  method PlaceColumn(occupied: seq<Rect>, x: real, centerY: real, sizes: seq<Box>) returns (placed: seq<Rect>)
    ensures placed == Column(occupied, x, centerY, sizes)
  {
    var totalH := TotalHeight(sizes) + ROW_GAP * (if |sizes| == 0 then 0.0 else (|sizes| - 1) as real);
    var y := centerY - totalH / 2.0;
    placed := [];
    assert occupied + [] == occupied && sizes[0..] == sizes;
    for i := 0 to |sizes|
      invariant placed + Stack(occupied + placed, x, y, sizes[i..]) == Column(occupied, x, centerY, sizes)
    {
      assert sizes[i..][0] == sizes[i] && sizes[i..][1..] == sizes[i+1..];
      var all := occupied + placed;
      var rect := Settle(all, Rect(x, y, sizes[i].w, sizes[i].h));
      StackStep(occupied, placed, rect, x, y, sizes[i..]);
      placed := placed + [rect];
      y := rect.y + rect.h + ROW_GAP;
    }
    assert sizes[|sizes|..] == [];
  }
}
