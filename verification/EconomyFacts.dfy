/** The economy page told by the payments' own fields: counts and plain sums over them. */
module EconomyFacts {
  import opened Cube
  import opened Days
  import opened Economy
  import opened EconomyPages
  import opened Grouping
  import opened Positions
  import opened Series
  import opened Wrappers

  function AmountOf(): Payment -> real {
    (p: Payment) => p.amount
  }

  function VerifiedWithin(asOf: Day, w: Window): Payment -> bool {
    (p: Payment) => p.facilitatorKnown && WithinDays(asOf, w, p.day)
  }

  function OfBand(band: string): Payment -> bool {
    (p: Payment) => InBand(p.amount, band)
  }

  function OnDayText(day: string): Payment -> bool {
    (p: Payment) => Format(p.day) == day
  }

  /** The month's text is the first seven characters of its days'. */
  function InMonthText(month: string): Payment -> bool {
    (p: Payment) => FormatMonth(p.day.year, p.day.month) == month
  }

  function Shown(q: seq<Payment>): Accum {
    CountAndVolume(q, AmountOf())
  }

  /** A direct sum is a count and a sum. */
  lemma DirectIsShown(payments: seq<Payment>, asOf: Day, p: SliceKey -> bool, raw: Payment -> bool)
    requires forall t :: t in payments ==> raw(t) == Counted(asOf, p)(t)
    ensures Direct(payments, asOf, p) == Shown(Filter(payments, raw))
  {
    FilterSame(payments, Counted(asOf, p), raw);
    AccumsAreCounts(Filter(payments, raw), PaymentAccum, AmountOf());
  }

  /** Two conditions at once. */
  function Both(a: Payment -> bool, b: Payment -> bool): Payment -> bool {
    (p: Payment) => a(p) && b(p)
  }

  // ----- windows

  ghost predicate WindowShows(we: WindowEconomy, largest: Option<Amount>, payments: seq<Payment>, asOf: Day, w: Window)
  {
    var q := Filter(payments, VerifiedWithin(asOf, w));
    && we.total == Shown(q)
    && (forall b :: b in we.byBand ==> we.byBand[b] == Shown(Filter(q, OfBand(b))))
    && LargestShows(largest, q)
  }

  ghost predicate LargestShows(largest: Option<Amount>, q: seq<Payment>) {
    if largest.None? then forall p :: p in q ==> p.amount == 0.0
    else
      && largest.value > 0.0 && (exists i :: 0 <= i < |q| && q[i].amount == largest.value)
      && forall p :: p in q ==> p.amount <= largest.value
  }

  lemma WindowSelects(payments: seq<Payment>, asOf: Day, w: Window)
    ensures forall t :: t in payments ==> VerifiedWithin(asOf, w)(t) == Counted(asOf, KeyInWindow(asOf, w))(t)
  {
    forall t | t in payments ensures VerifiedWithin(asOf, w)(t) == Counted(asOf, KeyInWindow(asOf, w))(t) {
      var key := SliceKey(t.day, Band(t.amount));
      WindowCountsDays(asOf, w, t.day);
      assert KeyInWindow(asOf, w)(key) == InWindow(asOf, w, t.day);
    }
  }

  lemma BandSelects(payments: seq<Payment>, asOf: Day, w: Window, b: string)
    ensures forall t :: t in payments ==>
              Both(VerifiedWithin(asOf, w), OfBand(b))(t) == Counted(asOf, KeyInWindowBand(asOf, w, b))(t)
  {
    forall t | t in payments
      ensures Both(VerifiedWithin(asOf, w), OfBand(b))(t) == Counted(asOf, KeyInWindowBand(asOf, w, b))(t)
    {
      var key := SliceKey(t.day, Band(t.amount));
      WindowCountsDays(asOf, w, t.day);
      BandMeans(t.amount, b);
      assert KeyInWindowBand(asOf, w, b)(key) == (InWindow(asOf, w, t.day) && Band(t.amount) == b);
    }
  }

  lemma DirectWindowShows(we: WindowEconomy, largest: Option<Amount>, payments: seq<Payment>, asOf: Day, w: Window)
    requires WindowIsDirect(we, payments, asOf, w) && IsLargest(largest, payments, asOf, w)
    ensures WindowShows(we, largest, payments, asOf, w)
  {
    var q := Filter(payments, VerifiedWithin(asOf, w));
    WindowSelects(payments, asOf, w);
    DirectIsShown(payments, asOf, KeyInWindow(asOf, w), VerifiedWithin(asOf, w));
    FilterSame(payments, Counted(asOf, KeyInWindow(asOf, w)), VerifiedWithin(asOf, w));
    forall b | b in we.byBand ensures we.byBand[b] == Shown(Filter(q, OfBand(b))) {
      BandSelects(payments, asOf, w, b);
      DirectIsShown(payments, asOf, KeyInWindowBand(asOf, w, b), Both(VerifiedWithin(asOf, w), OfBand(b)));
      FilterBoth(payments, VerifiedWithin(asOf, w), OfBand(b), Both(VerifiedWithin(asOf, w), OfBand(b)));
    }
  }

  // ----- the page

  /** Every verified payment up to asOf. */
  function VerifiedUpTo(asOf: Day): Payment -> bool {
    VerifiedWithin(asOf, WindowAll)
  }

  function UnverifiedUpTo(asOf: Day): Payment -> bool {
    (p: Payment) => !p.facilitatorKnown && DayNumber(p.day) <= DayNumber(asOf)
  }

  ghost predicate DaysShow(daily: seq<DailyPoint>, all: seq<Payment>) {
    && (forall i :: 0 <= i < |daily| ==> daily[i].measure == Shown(Filter(all, OnDayText(daily[i].day))))
    && (forall i :: 0 <= i < |daily| ==> (daily[i].complete <==> i + 1 < |daily|))
  }

  ghost predicate MonthsShow(monthly: seq<MonthlyPoint>, all: seq<Payment>) {
    forall i :: 0 <= i < |monthly| ==> monthly[i].measure == Shown(Filter(all, InMonthText(monthly[i].month)))
  }

  /** What the page says of windows, days, months and the unverified rest. */
  ghost predicate PageShows(page: EconomyPage, payments: seq<Payment>, asOf: Day) {
    && (forall w :: w in page.windows && w in page.largest &&
                    WindowShows(page.windows[w], page.largest[w], payments, asOf, w))
    && DaysShow(page.daily, Filter(payments, VerifiedUpTo(asOf)))
    && MonthsShow(page.monthly, Filter(payments, VerifiedUpTo(asOf)))
    && page.excluded == Shown(Filter(payments, UnverifiedUpTo(asOf)))
  }

  lemma DaysAreShown(daily: seq<DailyPoint>, payments: seq<Payment>, asOf: Day)
    requires DailyFacts(daily, payments, asOf)
    ensures DaysShow(daily, Filter(payments, VerifiedUpTo(asOf)))
  {
    forall i | 0 <= i < |daily|
      ensures daily[i].measure == Shown(Filter(Filter(payments, VerifiedUpTo(asOf)), OnDayText(daily[i].day)))
    {
      assert DayGroups(daily)[i].total == Direct(payments, asOf, OnDay(daily[i].day));
      DayIsShown(payments, asOf, daily[i].day);
    }
  }

  lemma DayIsShown(payments: seq<Payment>, asOf: Day, day: string)
    ensures Direct(payments, asOf, OnDay(day)) == Shown(Filter(Filter(payments, VerifiedUpTo(asOf)), OnDayText(day)))
  {
    var both := Both(VerifiedUpTo(asOf), OnDayText(day));
    forall t | t in payments ensures both(t) == Counted(asOf, OnDay(day))(t) {
      var key := SliceKey(t.day, Band(t.amount));
      EarlierIsByNumber(asOf, t.day);
      assert OnDay(day)(key) == (Format(t.day) == day);
    }
    DirectIsShown(payments, asOf, OnDay(day), both);
    FilterBoth(payments, VerifiedUpTo(asOf), OnDayText(day), both);
  }

  lemma MonthIsShown(payments: seq<Payment>, asOf: Day, month: string)
    ensures Direct(payments, asOf, InMonth(month))
         == Shown(Filter(Filter(payments, VerifiedUpTo(asOf)), InMonthText(month)))
  {
    var both := Both(VerifiedUpTo(asOf), InMonthText(month));
    forall t | t in payments ensures both(t) == Counted(asOf, InMonth(month))(t) {
      var key := SliceKey(t.day, Band(t.amount));
      EarlierIsByNumber(asOf, t.day);
      assert InMonth(month)(key) == (Format(t.day)[..7] == month);
    }
    DirectIsShown(payments, asOf, InMonth(month), both);
    FilterBoth(payments, VerifiedUpTo(asOf), InMonthText(month), both);
  }

  lemma MonthsAreShown(monthly: seq<MonthlyPoint>, payments: seq<Payment>, asOf: Day)
    requires MonthlySums(monthly, payments, asOf)
    ensures MonthsShow(monthly, Filter(payments, VerifiedUpTo(asOf)))
  {
    forall i | 0 <= i < |monthly|
      ensures monthly[i].measure == Shown(Filter(Filter(payments, VerifiedUpTo(asOf)), InMonthText(monthly[i].month)))
    {
      assert MonthGroups(monthly)[i].total == Direct(payments, asOf, InMonth(monthly[i].month));
      MonthIsShown(payments, asOf, monthly[i].month);
    }
  }

  lemma ExcludedIsShown(payments: seq<Payment>, asOf: Day)
    ensures Excluded(payments, asOf) == Shown(Filter(payments, UnverifiedUpTo(asOf)))
  {
    forall t | t in payments ensures ExcludedPayment(asOf)(t) == UnverifiedUpTo(asOf)(t) {
      EarlierIsByNumber(asOf, t.day);
    }
    FilterSame(payments, ExcludedPayment(asOf), UnverifiedUpTo(asOf));
    AccumsAreCounts(Filter(payments, UnverifiedUpTo(asOf)), PaymentAccum, AmountOf());
  }

  /** Every figure of a page that is built is a count and a sum of the payments it is about. */
  lemma PageIsShown(page: EconomyPage, payments: seq<Payment>, asOf: Day)
    requires PageIsDirect(page, payments, asOf)
    ensures PageShows(page, payments, asOf)
  {
    forall w ensures w in page.windows && w in page.largest &&
                     WindowShows(page.windows[w], page.largest[w], payments, asOf, w) {
      assert WindowOnPage(page.windows, page.largest, payments, asOf, w);
      DirectWindowShows(page.windows[w], page.largest[w], payments, asOf, w);
    }
    DaysAreShown(page.daily, payments, asOf);
    MonthsAreShown(page.monthly, payments, asOf);
    ExcludedIsShown(payments, asOf);
  }
}
