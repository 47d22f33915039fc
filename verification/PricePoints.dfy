/**
 The amounts an entity pays or is paid, the most frequent first.  At most 64 are stored,
 and each stored row says how many there are in all.
 */
module PricePoints {
  import opened Cube
  import opened Positions
  import opened Ranking

  const POINT_LIMIT: nat := 64

  /** One amount and how many payments are of it. */
  datatype Point = Point(amount: Amount, count: nat)

  /** A stored row: the point, its rank, and the number of distinct amounts. */
  datatype StoredPoint = StoredPoint(point: Point, rank: nat, distinct: nat)

  function OfAmount(amount: Amount): Amount -> bool {
    (a: Amount) => a == amount
  }

  function PointOf(amounts: seq<Amount>, amount: Amount): Point {
    Point(amount, |Filter(amounts, OfAmount(amount))|)
  }

  function Points(amounts: seq<Amount>): set<Point> {
    set a | a in amounts :: PointOf(amounts, a)
  }

  /** ORDER BY txn_count DESC, amount_usdc */
  predicate Commoner(p: Point, q: Point) {
    p.count > q.count || (p.count == q.count && p.amount < q.amount)
  }

  lemma CommonestFirstSorts(amounts: seq<Amount>)
    ensures Sortable(Commoner, Points(amounts))
  {
    TotalOrderSorts(Commoner, Points(amounts));
  }

  function StoredPoints(amounts: seq<Amount>): set<StoredPoint> {
    var all := Points(amounts);
    set p | p in all && RowNumber(Commoner, all, p) <= POINT_LIMIT ::
      StoredPoint(p, RowNumber(Commoner, all, p), |all|)
  }

  /** The point stands at its rank among the first ones. */
  ghost predicate AtItsRank(s: StoredPoint, top: seq<Point>) {
    1 <= s.rank <= |top| && s.point == top[s.rank - 1]
  }

  /** A point is stored under its row number, if that is small enough. */
  lemma StoredMeans(amounts: seq<Amount>, s: StoredPoint)
    ensures s in StoredPoints(amounts) <==>
              && s.point in Points(amounts)
              && RowNumber(Commoner, Points(amounts), s.point) == s.rank <= POINT_LIMIT
              && s.distinct == |Points(amounts)|
  {
  }

  lemma TopIsInSet(amounts: seq<Amount>, s: StoredPoint)
    requires Sortable(Commoner, Points(amounts)) && AtItsRank(s, Top(Commoner, Points(amounts), POINT_LIMIT))
    ensures s.point in Points(amounts)
  {
    TopMembers(Commoner, Points(amounts), POINT_LIMIT);
  }

  /** What is stored are the commonest amounts, each under its place among all of them. */
  lemma StoredAreCommonest(amounts: seq<Amount>, s: StoredPoint)
    ensures Sortable(Commoner, Points(amounts))
    ensures s in StoredPoints(amounts) <==>
              && AtItsRank(s, Top(Commoner, Points(amounts), POINT_LIMIT))
              && s.distinct == |Points(amounts)|
  {
    CommonestFirstSorts(amounts);
    StoredMeans(amounts, s);
    if s.point in Points(amounts) {
      RankIsPlace(Commoner, Points(amounts), POINT_LIMIT, s.point, s.rank);
    } else if AtItsRank(s, Top(Commoner, Points(amounts), POINT_LIMIT)) {
      TopIsInSet(amounts, s);
    }
  }

  function Distinct(amounts: seq<Amount>): set<Amount> {
    set a: Amount | a in amounts
  }

  function PointsIn(amounts: seq<Amount>, some: set<Amount>): set<Point> {
    set a | a in some :: PointOf(amounts, a)
  }

  lemma {:induction false} OnePointEach(amounts: seq<Amount>, some: set<Amount>)
    ensures |PointsIn(amounts, some)| == |some|
    decreases |some|
  {
    if some != {} {
      var x :| x in some;
      OnePointEach(amounts, some - {x});
      assert PointsIn(amounts, some) == PointsIn(amounts, some - {x}) + {PointOf(amounts, x)};
    }
  }

  lemma DistinctIsAmounts(amounts: seq<Amount>)
    ensures |Points(amounts)| == |Distinct(amounts)|
  {
    OnePointEach(amounts, Distinct(amounts));
    forall p ensures p in Points(amounts) <==> p in PointsIn(amounts, Distinct(amounts)) {
      if p in Points(amounts) {
        var a :| a in amounts && p == PointOf(amounts, a);
        assert a in Distinct(amounts);
      }
    }
    assert Points(amounts) == PointsIn(amounts, Distinct(amounts));
  }

  ghost predicate RankTaken(amounts: seq<Amount>, rank: nat) {
    exists s :: s in StoredPoints(amounts) && s.rank == rank
  }

  lemma TakenIsPlace(amounts: seq<Amount>, rank: nat)
    ensures Sortable(Commoner, Points(amounts))
    ensures RankTaken(amounts, rank) <==> 1 <= rank <= |Top(Commoner, Points(amounts), POINT_LIMIT)|
  {
    CommonestFirstSorts(amounts);
    var top := Top(Commoner, Points(amounts), POINT_LIMIT);
    if s :| s in StoredPoints(amounts) && s.rank == rank {
      StoredAreCommonest(amounts, s);
    }
    if 1 <= rank <= |top| {
      StoredAreCommonest(amounts, StoredPoint(top[rank-1], rank, |Points(amounts)|));
    }
  }

  /** Every rank up to the 64th is taken as far as there are distinct amounts; every row tells how many there are. */
  lemma RanksAreTaken(amounts: seq<Amount>, rank: nat)
    ensures RankTaken(amounts, rank) <==> 1 <= rank <= 64 && rank <= |Distinct(amounts)|
    ensures forall s :: s in StoredPoints(amounts) ==> s.distinct == |Distinct(amounts)|
  {
    TakenIsPlace(amounts, rank);
    TopIsPrefix(Commoner, Points(amounts), POINT_LIMIT);
    DistinctIsAmounts(amounts);
  }

  lemma {:induction false} CountIsMultiplicity(amounts: seq<Amount>, amount: Amount)
    ensures PointOf(amounts, amount).count == multiset(amounts)[amount]
  {
    if amounts != [] {
      CountIsMultiplicity(amounts[1..], amount);
      assert amounts == [amounts[0]] + amounts[1..];
    }
  }

  /** A stored amount occurs as often as its row says; none that is left out is as frequent and smaller, or more so. */
  lemma NoneCommonerIsLeftOut(amounts: seq<Amount>, s: StoredPoint, other: Amount)
    requires s in StoredPoints(amounts) && other in amounts
    requires forall t :: t in StoredPoints(amounts) ==> t.point.amount != other
    ensures s.point.count == multiset(amounts)[s.point.amount] > 0
    ensures var mine, others := multiset(amounts)[s.point.amount], multiset(amounts)[other];
            mine > others || (mine == others && s.point.amount < other)
  {
    var all, p := Points(amounts), PointOf(amounts, other);
    CommonestFirstSorts(amounts);
    CountIsMultiplicity(amounts, s.point.amount);
    CountIsMultiplicity(amounts, other);
    assert p in all;
    EarlyIsStored(amounts, p);
    if !Commoner(s.point, p) {
      assert Commoner(p, s.point) || p == s.point;
      FewerBefore(all, p, s.point);
    }
  }

  lemma EarlyIsStored(amounts: seq<Amount>, p: Point)
    requires p in Points(amounts)
    ensures RowNumber(Commoner, Points(amounts), p) <= POINT_LIMIT ==>
              exists t :: t in StoredPoints(amounts) && t.point == p
  {
    var t := StoredPoint(p, RowNumber(Commoner, Points(amounts), p), |Points(amounts)|);
    StoredMeans(amounts, t);
  }

  lemma FewerBefore(all: set<Point>, p: Point, q: Point)
    requires Commoner(p, q) || p == q
    ensures RowNumber(Commoner, all, p) <= RowNumber(Commoner, all, q)
  {
    RowNumberGrows(Commoner, all, p, q);
  }

  /** Only one distinct amount is reported just when every payment is of that amount. */
  lemma OnePriceMeansOneAmount(amounts: seq<Amount>, s: StoredPoint)
    requires s in StoredPoints(amounts)
    ensures s.distinct == 1 <==> forall a :: a in amounts ==> a == s.point.amount
  {
    var all := Points(amounts);
    if s.distinct == 1 {
      forall a | a in amounts ensures a == s.point.amount {
        OnlyMember(all, s.point, PointOf(amounts, a));
      }
    }
    if forall a :: a in amounts ==> a == s.point.amount {
      assert all == {s.point};
    }
  }

  lemma OnlyMember<T>(s: set<T>, x: T, y: T)
    requires |s| == 1 && x in s && y in s
    ensures x == y
  {
    assert y != x ==> y in s - {x};
    assert |s - {x}| == 0;
  }
}
