/**
 The daily cube and the page sums taken from it.  What each statement asks of the
 tables is a grouping; what a page shows is a sum over payments.
 */
module Cube {
  import opened Days
  import opened Grouping
  import opened Positions
  import opened Text

  type Day = d: Date | BlockDay(d) witness Date(1970, 1, 1)
  type Amount = a: real | a >= 0.0

  datatype Payment = Payment(
    day: Day,
    chain: string,
    facilitator: string,
    facilitatorKnown: bool,
    payer: string,
    amount: Amount)

  function Band(usd: real): string {
    if usd < 0.01 then "dust"
    else if usd < 1.0 then "micro"
    else if usd < 100.0 then "small"
    else if usd < 1000.0 then "mid"
    else "whale"
  }

  /** The bands part the amounts at one cent and at 1, 100 and 1000 USDC. */
  predicate InBand(amount: real, band: string) {
    || (band == "dust" && amount < 0.01)
    || (band == "micro" && 0.01 <= amount < 1.0)
    || (band == "small" && 1.0 <= amount < 100.0)
    || (band == "mid" && 100.0 <= amount < 1000.0)
    || (band == "whale" && 1000.0 <= amount)
  }

  lemma BandMeans(amount: real, band: string)
    ensures Band(amount) == band <==> InBand(amount, band)
  {
  }

  // ----- the cube

  datatype CubeKey = CubeKey(day: Day, chain: string, facilitator: string, known: bool, band: string)

  datatype Tally = Tally(txns: int, volume: real, largest: Amount)

  function CubeKeyOf(p: Payment): CubeKey {
    CubeKey(p.day, p.chain, p.facilitator, p.facilitatorKnown, Band(p.amount))
  }

  function TallyOf(p: Payment): Tally {
    Tally(1, p.amount, p.amount)
  }

  function Larger(a: Amount, b: Amount): Amount {
    if a >= b then a else b
  }

  function PlusTally(a: Tally, b: Tally): Tally {
    Tally(a.txns + b.txns, a.volume + b.volume, Larger(a.largest, b.largest))
  }

  function TallySum(): Monoid<Tally> {
    Monoid(Tally(0, 0.0, 0.0), PlusTally)
  }

  lemma TallySumIsLawful()
    ensures Lawful(TallySum())
  {
    forall a, b, c ensures Law(TallySum(), a, b, c) {
    }
  }

  ghost predicate IsCube(cube: seq<Group<CubeKey, Tally>>, payments: seq<Payment>) {
    IsGroupBy(TallySum(), cube, payments, CubeKeyOf, TallyOf)
  }

  // ----- the slices a page reads

  datatype SliceKey = SliceKey(day: Day, band: string)

  type Slice = Group<SliceKey, Tally>

  function SliceKeyOf(r: Group<CubeKey, Tally>): SliceKey {
    SliceKey(r.key.day, r.key.band)
  }

  function KnownThrough(asOf: Day): Group<CubeKey, Tally> -> bool {
    (r: Group<CubeKey, Tally>) => r.key.known && !Earlier(asOf, r.key.day)
  }

  ghost predicate InDayOrder(slices: seq<Slice>) {
    forall i, j :: 0 <= i < j < |slices| ==> !Earlier(slices[j].key.day, slices[i].key.day)
  }

  ghost predicate ReadSlices(slices: seq<Slice>, cube: seq<Group<CubeKey, Tally>>, asOf: Day) {
    && IsGroupBy(TallySum(), slices, Filter(cube, KnownThrough(asOf)), SliceKeyOf, TotalOf())
    && InDayOrder(slices)
  }

  /** The same selection of payments: verified, not after asOf, and p holds of its day and band. */
  function Counted(asOf: Day, p: SliceKey -> bool): Payment -> bool {
    (t: Payment) => t.facilitatorKnown && !Earlier(asOf, t.day) && p(SliceKey(t.day, Band(t.amount)))
  }

  function CellCounted(asOf: Day, p: SliceKey -> bool): CubeKey -> bool {
    (k: CubeKey) => k.known && !Earlier(asOf, k.day) && p(SliceKey(k.day, k.band))
  }

  /** Whatever a page selects by day and band, its slices total what those payments total. */
  lemma SlicesRefine(payments: seq<Payment>, cube: seq<Group<CubeKey, Tally>>, slices: seq<Slice>, asOf: Day,
                     p: SliceKey -> bool)
    requires IsCube(cube, payments) && ReadSlices(slices, cube, asOf)
    ensures Sum(TallySum(), Filter(slices, GroupWhere(p)), TotalOf())
         == Sum(TallySum(), Filter(payments, Counted(asOf, p)), TallyOf)
  {
    TallySumIsLawful();
    GroupsSum(TallySum(), slices, Filter(cube, KnownThrough(asOf)), SliceKeyOf, TotalOf(), p);
    FilterBoth(cube, KnownThrough(asOf), Where(SliceKeyOf, p), GroupWhere(CellCounted(asOf, p)));
    GroupsSum(TallySum(), cube, payments, CubeKeyOf, TallyOf, CellCounted(asOf, p));
    FilterSame(payments, Where(CubeKeyOf, CellCounted(asOf, p)), Counted(asOf, p));
  }

  // ----- counts and volumes

  datatype Accum = Accum(txns: int, volume: real)

  function PlusAccum(a: Accum, b: Accum): Accum {
    Accum(a.txns + b.txns, a.volume + b.volume)
  }

  function AccumSum(): Monoid<Accum> {
    Monoid(Accum(0, 0.0), PlusAccum)
  }

  lemma AccumSumIsLawful()
    ensures Lawful(AccumSum())
  {
    forall a, b, c ensures Law(AccumSum(), a, b, c) {
    }
  }

  /** How many there are, and what they move. */
  function CountAndVolume<T>(q: seq<T>, amount: T -> real): Accum {
    Accum(|q|, Added(q, amount))
  }

  /** Adding up one count and one amount for each payment is counting and adding. */
  lemma {:induction false} AccumsAreCounts<T(!new)>(q: seq<T>, f: T -> Accum, amount: T -> real)
    requires forall t :: t in q ==> f(t) == Accum(1, amount(t))
    ensures Sum(AccumSum(), q, f) == CountAndVolume(q, amount)
  {
    if q != [] {
      AccumsAreCounts(q[1..], f, amount);
    }
  }

  function AccumOf(t: Tally): Accum {
    Accum(t.txns, t.volume)
  }

  function SliceAccum(s: Slice): Accum {
    AccumOf(s.total)
  }

  function PaymentAccum(p: Payment): Accum {
    Accum(1, p.amount)
  }

  /** How many verified payments meet the condition, and what they move. */
  function Direct(payments: seq<Payment>, asOf: Day, p: SliceKey -> bool): Accum {
    Sum(AccumSum(), Filter(payments, Counted(asOf, p)), PaymentAccum)
  }

  function CellAccum(r: Group<CubeKey, Tally>): Accum {
    AccumOf(r.total)
  }

  lemma CellsAreDirect(payments: seq<Payment>, cube: seq<Group<CubeKey, Tally>>, p: CubeKey -> bool)
    requires IsCube(cube, payments)
    ensures Sum(AccumSum(), Filter(cube, GroupWhere(p)), CellAccum)
         == Sum(AccumSum(), Filter(payments, Where(CubeKeyOf, p)), PaymentAccum)
  {
    TallySumIsLawful();
    GroupsSum(TallySum(), cube, payments, CubeKeyOf, TallyOf, p);
    SumMaps(TallySum(), AccumSum(), AccumOf, Filter(cube, GroupWhere(p)), TotalOf(), CellAccum);
    SumMaps(TallySum(), AccumSum(), AccumOf, Filter(payments, Where(CubeKeyOf, p)), TallyOf, PaymentAccum);
  }

  // ----- the days there are

  /** A verified payment of that day, not after asOf. */
  predicate CountsOn(p: Payment, asOf: Day, d: Date) {
    p.facilitatorKnown && !Earlier(asOf, p.day) && p.day == d
  }

  lemma SliceHasPayment(payments: seq<Payment>, cube: seq<Group<CubeKey, Tally>>, slices: seq<Slice>, asOf: Day, i: nat)
    returns (p: Payment)
    requires IsCube(cube, payments) && ReadSlices(slices, cube, asOf) && i < |slices|
    ensures p in payments && CountsOn(p, asOf, slices[i].key.day)
  {
    var known := Filter(cube, KnownThrough(asOf));
    var r := GroupHasMember(TallySum(), slices, known, SliceKeyOf, TotalOf(), i);
    var j :| 0 <= j < |cube| && cube[j] == r;
    p := GroupHasMember(TallySum(), cube, payments, CubeKeyOf, TallyOf, j);
  }

  lemma PaymentHasSlice(payments: seq<Payment>, cube: seq<Group<CubeKey, Tally>>, slices: seq<Slice>, asOf: Day,
                        p: Payment)
    returns (i: nat)
    requires IsCube(cube, payments) && ReadSlices(slices, cube, asOf)
    requires p in payments && CountsOn(p, asOf, p.day)
    ensures i < |slices| && slices[i].key.day == p.day
  {
    var known := Filter(cube, KnownThrough(asOf));
    var j := MemberHasGroup(TallySum(), cube, payments, CubeKeyOf, TallyOf, p);
    assert cube[j] in known;
    i := MemberHasGroup(TallySum(), slices, known, SliceKeyOf, TotalOf(), cube[j]);
  }

  lemma AccumsRefine(payments: seq<Payment>, cube: seq<Group<CubeKey, Tally>>, slices: seq<Slice>, asOf: Day,
                     p: SliceKey -> bool)
    requires IsCube(cube, payments) && ReadSlices(slices, cube, asOf)
    ensures Sum(AccumSum(), Filter(slices, GroupWhere(p)), SliceAccum) == Direct(payments, asOf, p)
  {
    SlicesRefine(payments, cube, slices, asOf, p);
    AccumOfSlices(Filter(slices, GroupWhere(p)));
    AccumOfPayments(Filter(payments, Counted(asOf, p)));
  }

  lemma AccumOfSlices(q: seq<Slice>)
    ensures Sum(AccumSum(), q, SliceAccum) == AccumOf(Sum(TallySum(), q, TotalOf()))
  {
    SumMaps(TallySum(), AccumSum(), AccumOf, q, TotalOf(), SliceAccum);
  }

  lemma AccumOfPayments(q: seq<Payment>)
    ensures Sum(AccumSum(), q, PaymentAccum) == AccumOf(Sum(TallySum(), q, TallyOf))
  {
    SumMaps(TallySum(), AccumSum(), AccumOf, q, TallyOf, PaymentAccum);
  }

  // ----- windows

  datatype Window = Window7d | Window30d | WindowAll

  /** 0 stands for no lower bound. */
  function WindowDays(w: Window): nat {
    match w
    case Window7d => 7
    case Window30d => 30
    case WindowAll => 0
  }

  function LowerBound(asOf: Day, w: Window): string {
    if WindowDays(w) == 0 then "" else Format(Back(asOf, WindowDays(w) - 1))
  }

  predicate InWindow(asOf: Day, w: Window, d: Day) {
    WindowDays(w) == 0 || !Earlier(d, Back(asOf, WindowDays(w) - 1))
  }

  function DayText(s: Slice): string {
    Format(s.key.day)
  }

  function BandOf(s: Slice): string {
    s.key.band
  }

  predicate TooEarly(s: Slice, lb: string) {
    lb != "" && StringLess(DayText(s), lb)
  }

  function AtOrAfter(lb: string): Slice -> bool {
    (s: Slice) => !TooEarly(s, lb)
  }

  function KeyInWindow(asOf: Day, w: Window): SliceKey -> bool {
    (k: SliceKey) => InWindow(asOf, w, k.day)
  }

  function KeyInWindowBand(asOf: Day, w: Window, band: string): SliceKey -> bool {
    (k: SliceKey) => InWindow(asOf, w, k.day) && k.band == band
  }

  /** Comparing day texts with the bound's text selects the window's days. */
  lemma BoundIsWindow(asOf: Day, w: Window, s: Slice)
    ensures TooEarly(s, LowerBound(asOf, w)) <==> !InWindow(asOf, w, s.key.day)
  {
    if WindowDays(w) != 0 {
      var first := Back(asOf, WindowDays(w) - 1);
      assert |Format(first)| == 10;
      DaysCompare(s.key.day, first);
    }
  }

  lemma BoundSelectsWindow(slices: seq<Slice>, asOf: Day, w: Window)
    ensures Filter(slices, AtOrAfter(LowerBound(asOf, w))) == Filter(slices, GroupWhere(KeyInWindow(asOf, w)))
  {
    forall s | s in slices ensures AtOrAfter(LowerBound(asOf, w))(s) == GroupWhere(KeyInWindow(asOf, w))(s) {
      BoundIsWindow(asOf, w, s);
    }
    FilterSame(slices, AtOrAfter(LowerBound(asOf, w)), GroupWhere(KeyInWindow(asOf, w)));
  }

  /** A bounded window is its last day and the days just before it, as many as its name says. */
  lemma WindowIsLastDays(asOf: Day, w: Window, d: Day)
    requires w != WindowAll
    ensures !Earlier(asOf, d) && InWindow(asOf, w, d) <==> AmongLast(d, asOf, WindowDays(w) - 1)
  {
    ReachIsLastDays(d, asOf, WindowDays(w) - 1);
  }

  /** Counting days: the window's last day and the 6 or 29 before it, or every day up to the last. */
  predicate WithinDays(asOf: Date, w: Window, d: Date) {
    var age := DayNumber(asOf) - DayNumber(d);
    match w
    case Window7d => 0 <= age < 7
    case Window30d => 0 <= age < 30
    case WindowAll => 0 <= age
  }

  lemma WindowCountsDays(asOf: Day, w: Window, d: Day)
    ensures !Earlier(asOf, d) && InWindow(asOf, w, d) <==> WithinDays(asOf, w, d)
  {
    EarlierIsByNumber(asOf, d);
    if w != WindowAll {
      var first := Back(asOf, WindowDays(w) - 1);
      BackIsSoManyLess(asOf, WindowDays(w) - 1);
      EarlierIsByNumber(d, first);
    }
  }

  datatype WindowEconomy = WindowEconomy(total: Accum, byBand: map<string, Accum>)

  /** The chosen slices in one total, and split by band. */
  ghost predicate Sums(we: WindowEconomy, chosen: seq<Slice>) {
    && we.total == Sum(AccumSum(), chosen, SliceAccum)
    && MapGroups(AccumSum(), we.byBand, chosen, BandOf, SliceAccum)
  }

  function AddToWindow(we: WindowEconomy, s: Slice): WindowEconomy {
    var before := if BandOf(s) in we.byBand then we.byBand[BandOf(s)] else Accum(0, 0.0);
    WindowEconomy(PlusAccum(we.total, SliceAccum(s)), we.byBand[BandOf(s) := PlusAccum(before, SliceAccum(s))])
  }

  lemma AddToWindowSums(we: WindowEconomy, chosen: seq<Slice>, s: Slice)
    requires Sums(we, chosen)
    ensures Sums(AddToWindow(we, s), chosen + [s])
  {
    AccumSumIsLawful();
    SumAppend(AccumSum(), chosen, [s], SliceAccum);
    SumOne(AccumSum(), s, SliceAccum);
    MapAdds(AccumSum(), we.byBand, chosen, s, BandOf, SliceAccum);
  }

  method SumWindow(slices: seq<Slice>, lb: string) returns (we: WindowEconomy)
    ensures Sums(we, Filter(slices, AtOrAfter(lb)))
  {
    we := WindowEconomy(Accum(0, 0.0), map[]);
    ghost var chosen: seq<Slice> := [];
    for i := 0 to |slices|
      invariant chosen == Filter(slices[..i], AtOrAfter(lb))
      invariant Sums(we, chosen)
    {
      var s := slices[i];
      FilterStep(slices, i, AtOrAfter(lb));
      if TooEarly(s, lb) {
        continue;
      }
      AddToWindowSums(we, chosen, s);
      we := AddToWindow(we, s);
      chosen := chosen + [s];
    }
    assert slices[..|slices|] == slices;
  }

  /** The bands of a window sum to the window, in whatever order they are taken. */
  lemma BandsSumToWindow(we: WindowEconomy, chosen: seq<Slice>, bands: seq<string>)
    requires Sums(we, chosen) && Lists(bands, we.byBand.Keys)
    ensures Sum(AccumSum(), Entries(bands, we.byBand), TotalOf()) == we.total
  {
    AccumSumIsLawful();
    MapIsGroupBy(AccumSum(), we.byBand, bands, chosen, BandOf, SliceAccum);
    AllGroupsSum(AccumSum(), Entries(bands, we.byBand), chosen, BandOf, SliceAccum);
  }

  /** What the page says of a window and of each of its bands is so of the payments themselves. */
  ghost predicate WindowIsDirect(we: WindowEconomy, payments: seq<Payment>, asOf: Day, w: Window) {
    && we.total == Direct(payments, asOf, KeyInWindow(asOf, w))
    && forall b :: b in we.byBand ==> we.byBand[b] == Direct(payments, asOf, KeyInWindowBand(asOf, w, b))
  }

  lemma WindowRefines(payments: seq<Payment>, cube: seq<Group<CubeKey, Tally>>, slices: seq<Slice>, asOf: Day,
                      w: Window, we: WindowEconomy)
    requires IsCube(cube, payments) && ReadSlices(slices, cube, asOf)
    requires Sums(we, Filter(slices, AtOrAfter(LowerBound(asOf, w))))
    ensures WindowIsDirect(we, payments, asOf, w)
  {
    BoundSelectsWindow(slices, asOf, w);
    AccumsRefine(payments, cube, slices, asOf, KeyInWindow(asOf, w));
    forall b | b in we.byBand ensures we.byBand[b] == Direct(payments, asOf, KeyInWindowBand(asOf, w, b)) {
      AccumsRefine(payments, cube, slices, asOf, KeyInWindowBand(asOf, w, b));
      FilterBoth(slices, GroupWhere(KeyInWindow(asOf, w)), KeyIs(BandOf, b), GroupWhere(KeyInWindowBand(asOf, w, b)));
      assert OneGroup(AccumSum(), Group(b, we.byBand[b]), Filter(slices, AtOrAfter(LowerBound(asOf, w))),
                      BandOf, SliceAccum);
    }
  }
}
