/** The economy page against the payments: every sum on it is a direct sum over them. */
module Economy {
  import opened Cube
  import opened Days
  import opened Grouping
  import opened Positions
  import opened Series
  import opened Wrappers

  function EveryKey(): SliceKey -> bool {
    (k: SliceKey) => true
  }

  function OnDay(day: string): SliceKey -> bool {
    (k: SliceKey) => Format(k.day) == day
  }

  function InMonth(month: string): SliceKey -> bool {
    (k: SliceKey) => Format(k.day)[..7] == month
  }

  /** All the verified payments up to asOf. */
  function Whole(payments: seq<Payment>, asOf: Day): Accum {
    Direct(payments, asOf, EveryKey())
  }

  lemma SlicesSumToWhole(payments: seq<Payment>, cube: seq<Group<CubeKey, Tally>>, slices: seq<Slice>, asOf: Day)
    requires IsCube(cube, payments) && ReadSlices(slices, cube, asOf)
    ensures Sum(AccumSum(), slices, SliceAccum) == Whole(payments, asOf)
    ensures Whole(payments, asOf) == Direct(payments, asOf, KeyInWindow(asOf, WindowAll))
  {
    AccumsRefine(payments, cube, slices, asOf, EveryKey());
    FilterAll(slices, GroupWhere(EveryKey()));
    FilterSame(payments, Counted(asOf, EveryKey()), Counted(asOf, KeyInWindow(asOf, WindowAll)));
  }

  /** The daily points sum to the "all" window, and each is its day's payments. */
  lemma DailyIsDirect(payments: seq<Payment>, cube: seq<Group<CubeKey, Tally>>, slices: seq<Slice>, asOf: Day,
                      rows: seq<Group<string, Accum>>)
    requires IsCube(cube, payments) && ReadSlices(slices, cube, asOf)
    requires IsGroupBy(AccumSum(), rows, slices, DayText, SliceAccum)
    ensures Sum(AccumSum(), rows, TotalOf()) == Whole(payments, asOf)
    ensures forall i :: 0 <= i < |rows| ==> rows[i].total == Direct(payments, asOf, OnDay(rows[i].key))
  {
    AccumSumIsLawful();
    AllGroupsSum(AccumSum(), rows, slices, DayText, SliceAccum);
    SlicesSumToWhole(payments, cube, slices, asOf);
    forall i | 0 <= i < |rows| ensures rows[i].total == Direct(payments, asOf, OnDay(rows[i].key)) {
      assert OneGroup(AccumSum(), rows[i], slices, DayText, SliceAccum);
      AccumsRefine(payments, cube, slices, asOf, OnDay(rows[i].key));
      FilterSame(slices, GroupWhere(OnDay(rows[i].key)), KeyIs(DayText, rows[i].key));
    }
  }

  /** So do the monthly ones. */
  lemma MonthlyIsDirect(payments: seq<Payment>, cube: seq<Group<CubeKey, Tally>>, slices: seq<Slice>, asOf: Day,
                        order: seq<string>, months: map<string, Accum>)
    requires IsCube(cube, payments) && ReadSlices(slices, cube, asOf)
    requires MonthTotals(months, slices) && Lists(order, months.Keys)
    ensures Sum(AccumSum(), Entries(order, months), TotalOf()) == Whole(payments, asOf)
    ensures forall m :: m in months ==> months[m] == Direct(payments, asOf, InMonth(m))
  {
    AccumSumIsLawful();
    MapIsGroupBy(AccumSum(), months, order, slices, MonthText, SliceAccum);
    AllGroupsSum(AccumSum(), Entries(order, months), slices, MonthText, SliceAccum);
    SlicesSumToWhole(payments, cube, slices, asOf);
    forall m | m in months ensures months[m] == Direct(payments, asOf, InMonth(m)) {
      assert OneGroup(AccumSum(), Group(m, months[m]), slices, MonthText, SliceAccum);
      AccumsRefine(payments, cube, slices, asOf, InMonth(m));
      FilterSame(slices, GroupWhere(InMonth(m)), KeyIs(MonthText, m));
    }
  }

  // ----- the largest payment

  function LargestSum(): Monoid<Amount> {
    Monoid(0.0, Larger)
  }

  lemma LargestSumIsLawful()
    ensures Lawful(LargestSum())
  {
    forall a: Amount, b: Amount, c: Amount ensures Law(LargestSum(), a, b, c) {
    }
  }

  function LargestOf(t: Tally): Amount {
    t.largest
  }

  function SliceLargest(s: Slice): Amount {
    s.total.largest
  }

  function PaymentAmount(p: Payment): Amount {
    p.amount
  }

  lemma LargestGrows(chosen: seq<Slice>, s: Slice)
    ensures Sum(LargestSum(), chosen + [s], SliceLargest)
         == Larger(Sum(LargestSum(), chosen, SliceLargest), s.total.largest)
  {
    LargestSumIsLawful();
    SumAppend(LargestSum(), chosen, [s], SliceLargest);
    SumOne(LargestSum(), s, SliceLargest);
  }

  /** None when nothing in the window moved more than zero. */
  method LargestInWindow(slices: seq<Slice>, lb: string) returns (r: Option<Amount>)
    ensures var top := Sum(LargestSum(), Filter(slices, AtOrAfter(lb)), SliceLargest);
            r == if top > 0.0 then Some(top) else None
  {
    var wmax: Amount := 0.0;
    ghost var chosen: seq<Slice> := [];
    for i := 0 to |slices|
      invariant chosen == Filter(slices[..i], AtOrAfter(lb))
      invariant wmax == Sum(LargestSum(), chosen, SliceLargest)
    {
      var s := slices[i];
      FilterStep(slices, i, AtOrAfter(lb));
      if TooEarly(s, lb) {
        continue;
      }
      LargestGrows(chosen, s);
      chosen := chosen + [s];
      if s.total.largest > wmax {
        wmax := s.total.largest;
      }
    }
    assert slices[..|slices|] == slices;
    return if wmax > 0.0 then Some(wmax) else None;
  }

  /** The maximum of the payments' amounts, 0 if there are none. */
  lemma {:induction false} LargestIsMaximum(q: seq<Payment>)
    ensures var top := Sum(LargestSum(), q, PaymentAmount);
            && (forall p :: p in q ==> p.amount <= top)
            && (top > 0.0 ==> exists i :: 0 <= i < |q| && q[i].amount == top)
  {
    if q != [] {
      LargestIsMaximum(q[1..]);
      var rest, top := Sum(LargestSum(), q[1..], PaymentAmount), Sum(LargestSum(), q, PaymentAmount);
      assert q == [q[0]] + q[1..];
      if top > 0.0 {
        if q[0].amount >= rest {
          assert q[0].amount == top;
        } else {
          var i :| 0 <= i < |q[1..]| && q[1..][i].amount == rest;
          assert q[i+1].amount == top;
        }
      }
    }
  }

  /** Some verified payment of the window moved that much, and none moved more. */
  ghost predicate IsLargest(r: Option<Amount>, payments: seq<Payment>, asOf: Day, w: Window) {
    var q := Filter(payments, Counted(asOf, KeyInWindow(asOf, w)));
    if r.Some? then
      r.value > 0.0 && (exists i :: 0 <= i < |q| && q[i].amount == r.value) &&
      forall p :: p in q ==> p.amount <= r.value
    else forall p :: p in q ==> p.amount == 0.0
  }

  lemma LargestRefines(payments: seq<Payment>, cube: seq<Group<CubeKey, Tally>>, slices: seq<Slice>, asOf: Day,
                       w: Window, r: Option<Amount>)
    requires IsCube(cube, payments) && ReadSlices(slices, cube, asOf)
    requires var top := Sum(LargestSum(), Filter(slices, AtOrAfter(LowerBound(asOf, w))), SliceLargest);
             r == if top > 0.0 then Some(top) else None
    ensures IsLargest(r, payments, asOf, w)
  {
    var p := KeyInWindow(asOf, w);
    BoundSelectsWindow(slices, asOf, w);
    SlicesRefine(payments, cube, slices, asOf, p);
    SumMaps(TallySum(), LargestSum(), LargestOf, Filter(slices, GroupWhere(p)), TotalOf(), SliceLargest);
    SumMaps(TallySum(), LargestSum(), LargestOf, Filter(payments, Counted(asOf, p)), TallyOf, PaymentAmount);
    LargestIsMaximum(Filter(payments, Counted(asOf, p)));
  }

  function OneFreePayment(day: Day): seq<Payment> {
    [Payment(day, "base", "facilitator", true, "payer", 0.0)]
  }

  /** A window whose one verified payment moved nothing: there is a payment, and no largest one is shown. */
  lemma FreePaymentHasNoLargest(cube: seq<Group<CubeKey, Tally>>, slices: seq<Slice>, day: Day, w: Window,
                                r: Option<Amount>)
    requires IsCube(cube, OneFreePayment(day)) && ReadSlices(slices, cube, day)
    requires var top := Sum(LargestSum(), Filter(slices, AtOrAfter(LowerBound(day, w))), SliceLargest);
             r == if top > 0.0 then Some(top) else None
    ensures r == None
    ensures Filter(OneFreePayment(day), Counted(day, KeyInWindow(day, w))) == OneFreePayment(day)
  {
    FreePaymentCounts(day, w);
    LargestRefines(OneFreePayment(day), cube, slices, day, w, r);
  }

  lemma FreePaymentCounts(day: Day, w: Window)
    ensures Filter(OneFreePayment(day), Counted(day, KeyInWindow(day, w))) == OneFreePayment(day)
  {
    if w != WindowAll {
      BackIsNotLater(day, WindowDays(w) - 1);
    }
    var free := OneFreePayment(day)[0];
    assert KeyInWindow(day, w)(SliceKey(free.day, Band(free.amount)));
    FilterOne(free, Counted(day, KeyInWindow(day, w)));
  }

  // ----- what is not verified

  predicate IsExcluded(k: CubeKey, asOf: Day) {
    !k.known && !Earlier(asOf, k.day)
  }

  function ExcludedThrough(asOf: Day): CubeKey -> bool {
    (k: CubeKey) => IsExcluded(k, asOf)
  }

  function ExcludedPayment(asOf: Day): Payment -> bool {
    (p: Payment) => !p.facilitatorKnown && !Earlier(asOf, p.day)
  }

  function PaymentThrough(asOf: Day): Payment -> bool {
    (p: Payment) => !Earlier(asOf, p.day)
  }

  /** The payments that are not verified. */
  function Excluded(payments: seq<Payment>, asOf: Day): Accum {
    Sum(AccumSum(), Filter(payments, ExcludedPayment(asOf)), PaymentAccum)
  }

  /** The answer of the query over the unverified cells; zero when there are none. */
  ghost predicate IsExcludedAnswer(answer: Accum, cube: seq<Group<CubeKey, Tally>>, asOf: Day) {
    answer == Sum(AccumSum(), Filter(cube, GroupWhere(ExcludedThrough(asOf))), CellAccum)
  }

  /** What is verified and what is excluded make up all there is. */
  lemma ExcludedIsTheRest(payments: seq<Payment>, cube: seq<Group<CubeKey, Tally>>, asOf: Day, answer: Accum)
    requires IsCube(cube, payments) && IsExcludedAnswer(answer, cube, asOf)
    ensures answer == Excluded(payments, asOf)
    ensures PlusAccum(Whole(payments, asOf), answer)
         == Sum(AccumSum(), Filter(payments, PaymentThrough(asOf)), PaymentAccum)
  {
    CellsAreDirect(payments, cube, ExcludedThrough(asOf));
    FilterSame(payments, Where(CubeKeyOf, ExcludedThrough(asOf)), ExcludedPayment(asOf));
    var all, counted := Filter(payments, PaymentThrough(asOf)), Counted(asOf, EveryKey());
    AccumSumIsLawful();
    SumSplits(AccumSum(), all, counted, ExcludedPayment(asOf), PaymentAccum);
    FilterBoth(payments, PaymentThrough(asOf), counted, counted);
    FilterBoth(payments, PaymentThrough(asOf), ExcludedPayment(asOf), ExcludedPayment(asOf));
  }

  // ----- the verified edge

  /** max(day) over the verified cells. */
  ghost predicate IsEdge(edge: Option<Day>, cube: seq<Group<CubeKey, Tally>>) {
    if edge.None? then forall r :: r in cube ==> !r.key.known
    else
      && (exists i :: 0 <= i < |cube| && cube[i].key.known && cube[i].key.day == edge.value)
      && (forall r :: r in cube && r.key.known ==> !Earlier(edge.value, r.key.day))
  }

  ghost predicate SomePaymentOn(payments: seq<Payment>, d: Day) {
    exists p :: p in payments && p.facilitatorKnown && p.day == d
  }

  lemma PaymentNotAfterEdge(payments: seq<Payment>, cube: seq<Group<CubeKey, Tally>>, edge: Option<Day>, p: Payment)
    requires IsCube(cube, payments) && IsEdge(edge, cube) && p in payments && p.facilitatorKnown
    ensures edge.Some? && !Earlier(edge.value, p.day)
  {
    var i := MemberHasGroup(TallySum(), cube, payments, CubeKeyOf, TallyOf, p);
    assert cube[i] in cube && cube[i].key.known;
  }

  lemma EdgeHasPayment(payments: seq<Payment>, cube: seq<Group<CubeKey, Tally>>, edge: Option<Day>)
    requires IsCube(cube, payments) && IsEdge(edge, cube) && edge.Some?
    ensures SomePaymentOn(payments, edge.value)
  {
    var i :| 0 <= i < |cube| && cube[i].key.known && cube[i].key.day == edge.value;
    var p := GroupHasMember(TallySum(), cube, payments, CubeKeyOf, TallyOf, i);
    assert p in payments && p.facilitatorKnown && p.day == edge.value;
  }

  /** It is the last day of a verified payment. */
  lemma EdgeOfPayments(payments: seq<Payment>, cube: seq<Group<CubeKey, Tally>>, edge: Option<Day>)
    requires IsCube(cube, payments) && IsEdge(edge, cube)
    ensures edge.None? <==> forall p :: p in payments ==> !p.facilitatorKnown
    ensures edge.Some? ==> SomePaymentOn(payments, edge.value)
    ensures edge.Some? ==> forall p :: p in payments && p.facilitatorKnown ==> !Earlier(edge.value, p.day)
  {
    forall p | p in payments && p.facilitatorKnown ensures edge.Some? && !Earlier(edge.value, p.day) {
      PaymentNotAfterEdge(payments, cube, edge, p);
    }
    if edge.Some? {
      EdgeHasPayment(payments, cube, edge);
    }
  }
}
