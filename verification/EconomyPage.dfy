/** The economy page as a whole, against the payments. */
module EconomyPages {
  import opened Cube
  import opened Days
  import opened Economy
  import opened Grouping
  import opened Positions
  import opened Runs
  import opened Series
  import opened Text
  import opened Wrappers

  datatype EconomyPage = EconomyPage(
    windows: map<Window, WindowEconomy>,
    daily: seq<DailyPoint>,
    monthly: seq<MonthlyPoint>,
    largest: map<Window, Option<Amount>>,
    excluded: Accum)

  datatype Built = NoVerifiedRows | WrongAsOf(want: string, edge: string) | BadMonth | Page(page: EconomyPage)

  ghost predicate DailyFacts(daily: seq<DailyPoint>, payments: seq<Payment>, asOf: Day) {
    var rows := DayGroups(daily);
    && Rising(StringLess, rows)
    && Sum(AccumSum(), rows, TotalOf()) == Whole(payments, asOf)
    && (forall i :: 0 <= i < |rows| ==> rows[i].total == Direct(payments, asOf, OnDay(rows[i].key)))
    && OnlyLastOpen(daily)
  }

  function MonthGroups(series: seq<MonthlyPoint>): (r: seq<Group<string, Accum>>)
    ensures |r| == |series| && forall i :: 0 <= i < |r| ==> r[i] == Group(series[i].month, series[i].measure)
  {
    if series == [] then [] else [Group(series[0].month, series[0].measure)] + MonthGroups(series[1..])
  }

  // ----- when a month is complete

  /** The verified data has begun by that day. */
  ghost predicate BegunBy(payments: seq<Payment>, asOf: Day, d: Date) {
    exists p :: p in payments && CountsOn(p, asOf, p.day) && !Earlier(d, p.day)
  }

  /** Every day of the month lies within the verified data. */
  ghost predicate MonthWithin(month: string, payments: seq<Payment>, asOf: Day) {
    forall d: Date :: Printable(d) && FormatMonth(d.year, d.month) == month ==>
      BegunBy(payments, asOf, d) && !Earlier(asOf, d)
  }

  lemma FirstSliceBegins(payments: seq<Payment>, cube: seq<Group<CubeKey, Tally>>, slices: seq<Slice>, asOf: Day,
                         d: Date)
    requires IsCube(cube, payments) && ReadSlices(slices, cube, asOf) && slices != []
    ensures BegunBy(payments, asOf, d) <==> !Earlier(d, slices[0].key.day)
  {
    var first := SliceHasPayment(payments, cube, slices, asOf, 0);
    if p :| p in payments && CountsOn(p, asOf, p.day) && !Earlier(d, p.day) {
      FirstSliceIsEarliest(payments, cube, slices, asOf, p);
    }
  }

  lemma FirstSliceIsEarliest(payments: seq<Payment>, cube: seq<Group<CubeKey, Tally>>, slices: seq<Slice>, asOf: Day,
                             p: Payment)
    requires IsCube(cube, payments) && ReadSlices(slices, cube, asOf) && slices != []
    requires p in payments && CountsOn(p, asOf, p.day)
    ensures !Earlier(p.day, slices[0].key.day)
  {
    var i := PaymentHasSlice(payments, cube, slices, asOf, p);
    assert i > 0 ==> !Earlier(slices[i].key.day, slices[0].key.day);
  }

  lemma DayOfMonth(month: string, d: Date)
    requires ParseMonth(month).Some? && Printable(d)
    ensures var first := ParseMonth(month).value;
            FormatMonth(d.year, d.month) == month <==> d.year == first.year && d.month == first.month
  {
    var first := ParseMonth(month).value;
    FormatOfParseMonth(month);
    MonthsCompare(d.year, d.month, first.year, first.month);
  }

  lemma WithinMeansEveryDay(payments: seq<Payment>, cube: seq<Group<CubeKey, Tally>>, slices: seq<Slice>, asOf: Day,
                            month: string, first: Date)
    requires IsCube(cube, payments) && ReadSlices(slices, cube, asOf) && slices != []
    requires ParseMonth(month) == Some(first)
    ensures MonthWithin(month, payments, asOf) <==> EveryDayWithin(first, slices[0].key.day, asOf)
  {
    var begin := slices[0].key.day;
    if MonthWithin(month, payments, asOf) {
      forall d: Date | Valid(d) && d.year == first.year && d.month == first.month
        ensures !Earlier(d, begin) && !Earlier(asOf, d)
      {
        DayOfMonth(month, d);
        FirstSliceBegins(payments, cube, slices, asOf, d);
      }
    }
    if EveryDayWithin(first, begin, asOf) {
      forall d: Date | Printable(d) && FormatMonth(d.year, d.month) == month
        ensures BegunBy(payments, asOf, d) && !Earlier(asOf, d)
      {
        DayOfMonth(month, d);
        FirstSliceBegins(payments, cube, slices, asOf, d);
      }
    }
  }

  lemma FlagIsTrue(payments: seq<Payment>, cube: seq<Group<CubeKey, Tally>>, slices: seq<Slice>, asOf: Day,
                   month: string)
    requires IsCube(cube, payments) && ReadSlices(slices, cube, asOf) && slices != [] && ParseMonth(month).Some?
    ensures MonthComplete(ParseMonth(month).value, DayText(slices[0]), Format(asOf)) <==>
              MonthWithin(month, payments, asOf)
  {
    CompleteMeansEveryDay(ParseMonth(month).value, slices[0].key.day, asOf);
    WithinMeansEveryDay(payments, cube, slices, asOf, month, ParseMonth(month).value);
  }

  ghost predicate FlagsAreTrue(monthly: seq<MonthlyPoint>, payments: seq<Payment>, asOf: Day) {
    forall i :: 0 <= i < |monthly| ==> (monthly[i].complete <==> MonthWithin(monthly[i].month, payments, asOf))
  }

  lemma FlagsHold(payments: seq<Payment>, cube: seq<Group<CubeKey, Tally>>, slices: seq<Slice>, asOf: Day,
                  series: seq<MonthlyPoint>, order: seq<string>, months: map<string, Accum>)
    requires IsCube(cube, payments) && ReadSlices(slices, cube, asOf) && slices != []
    requires SeriesOf(series, order, months, DayText(slices[0]), Format(asOf))
    ensures FlagsAreTrue(series, payments, asOf)
  {
    forall i | 0 <= i < |series| ensures series[i].complete <==> MonthWithin(series[i].month, payments, asOf) {
      assert Some(series[i]) == PointOf(order[i], DayText(slices[0]), Format(asOf), months[order[i]]);
      FlagIsTrue(payments, cube, slices, asOf, order[i]);
    }
  }

  ghost predicate MonthlySums(monthly: seq<MonthlyPoint>, payments: seq<Payment>, asOf: Day) {
    DirectRows(MonthGroups(monthly), payments, asOf)
  }

  ghost predicate DirectRows(rows: seq<Group<string, Accum>>, payments: seq<Payment>, asOf: Day) {
    && Rising(StringLess, rows)
    && Sum(AccumSum(), rows, TotalOf()) == Whole(payments, asOf)
    && forall i :: 0 <= i < |rows| ==> rows[i].total == Direct(payments, asOf, InMonth(rows[i].key))
  }

  lemma MonthlySumsHold(payments: seq<Payment>, cube: seq<Group<CubeKey, Tally>>, slices: seq<Slice>, asOf: Day,
                        series: seq<MonthlyPoint>, order: seq<string>, months: map<string, Accum>, minDay: string)
    requires IsCube(cube, payments) && ReadSlices(slices, cube, asOf)
    requires MonthTotals(months, slices) && MonthsListed(order, months.Keys, slices)
    requires SeriesOf(series, order, months, minDay, Format(asOf))
    ensures MonthlySums(series, payments, asOf)
  {
    EntriesAreDirect(payments, cube, slices, asOf, order, months);
    SeriesGroups(series, order, months, minDay, Format(asOf));
  }

  lemma EntriesAreDirect(payments: seq<Payment>, cube: seq<Group<CubeKey, Tally>>, slices: seq<Slice>, asOf: Day,
                         order: seq<string>, months: map<string, Accum>)
    requires IsCube(cube, payments) && ReadSlices(slices, cube, asOf)
    requires MonthTotals(months, slices) && MonthsListed(order, months.Keys, slices)
    ensures DirectRows(Entries(order, months), payments, asOf)
  {
    MonthlyIsDirect(payments, cube, slices, asOf, order, months);
    ListedRise(order, months, slices);
  }

  lemma SeriesGroups(series: seq<MonthlyPoint>, order: seq<string>, months: map<string, Accum>,
                     minDay: string, asOfDay: string)
    requires SeriesOf(series, order, months, minDay, asOfDay) && forall m :: m in order ==> m in months
    ensures MonthGroups(series) == Entries(order, months)
  {
    var rows := Entries(order, months);
    forall i | 0 <= i < |rows| ensures MonthGroups(series)[i] == rows[i] {
      assert Some(series[i]) == PointOf(order[i], minDay, asOfDay, months[order[i]]);
    }
  }

  lemma ListedRise(order: seq<string>, months: map<string, Accum>, slices: seq<Slice>)
    requires MonthsListed(order, months.Keys, slices)
    ensures Rising(StringLess, Entries(order, months))
  {
  }

  method BuildMonthly(ghost payments: seq<Payment>, ghost cube: seq<Group<CubeKey, Tally>>, slices: seq<Slice>,
                      asOf: Day)
    returns (monthly: Option<seq<MonthlyPoint>>)
    requires IsCube(cube, payments) && ReadSlices(slices, cube, asOf)
    ensures monthly.Some?
    ensures MonthlySums(monthly.value, payments, asOf) && FlagsAreTrue(monthly.value, payments, asOf)
  {
    ghost var order, months;
    monthly, order, months := MonthlySeries(slices, asOf);
    if slices != [] {
      MonthlySumsHold(payments, cube, slices, asOf, monthly.value, order, months, DayText(slices[0]));
      FlagsHold(payments, cube, slices, asOf, monthly.value, order, months);
    } else {
      SlicesSumToWhole(payments, cube, slices, asOf);
    }
  }

  method BuildDaily(ghost payments: seq<Payment>, ghost cube: seq<Group<CubeKey, Tally>>, slices: seq<Slice>, asOf: Day)
    returns (daily: seq<DailyPoint>)
    requires IsCube(cube, payments) && ReadSlices(slices, cube, asOf)
    ensures DailyFacts(daily, payments, asOf)
  {
    daily := DailySeries(slices);
    DailyIsDirect(payments, cube, slices, asOf, DayGroups(daily));
  }

  /** However the bands are listed, they sum to the window. */
  ghost predicate BandsAddUp(we: WindowEconomy) {
    forall bands | Lists(bands, we.byBand.Keys) :: Sum(AccumSum(), Entries(bands, we.byBand), TotalOf()) == we.total
  }

  method BuildWindow(ghost payments: seq<Payment>, ghost cube: seq<Group<CubeKey, Tally>>, slices: seq<Slice>,
                     asOf: Day, w: Window)
    returns (we: WindowEconomy, largest: Option<Amount>)
    requires IsCube(cube, payments) && ReadSlices(slices, cube, asOf)
    ensures WindowIsDirect(we, payments, asOf, w)
    ensures IsLargest(largest, payments, asOf, w)
    ensures BandsAddUp(we)
  {
    we := SumWindow(slices, LowerBound(asOf, w));
    forall bands | Lists(bands, we.byBand.Keys)
      ensures Sum(AccumSum(), Entries(bands, we.byBand), TotalOf()) == we.total
    {
      BandsSumToWindow(we, Filter(slices, AtOrAfter(LowerBound(asOf, w))), bands);
    }
    WindowRefines(payments, cube, slices, asOf, w, we);
    largest := LargestInWindow(slices, LowerBound(asOf, w));
    LargestRefines(payments, cube, slices, asOf, w, largest);
  }

  /** What the page says of one window. */
  ghost predicate WindowOnPage(windows: map<Window, WindowEconomy>, largest: map<Window, Option<Amount>>,
                               payments: seq<Payment>, asOf: Day, w: Window)
  {
    && w in windows && WindowIsDirect(windows[w], payments, asOf, w) && BandsAddUp(windows[w])
    && w in largest && IsLargest(largest[w], payments, asOf, w)
  }

  /** Every window, band, day, month and maximum on the page is what the payments say directly. */
  ghost predicate PageIsDirect(page: EconomyPage, payments: seq<Payment>, asOf: Day) {
    && (forall w :: WindowOnPage(page.windows, page.largest, payments, asOf, w))
    && DailyFacts(page.daily, payments, asOf)
    && MonthlySums(page.monthly, payments, asOf) && FlagsAreTrue(page.monthly, payments, asOf)
    && page.excluded == Excluded(payments, asOf)
  }

  function Windows(): seq<Window> {
    [Window7d, Window30d, WindowAll]
  }

  lemma EveryWindowListed(w: Window)
    ensures w in Windows()
  {
    match w
    case Window7d => assert Windows()[0] == w;
    case Window30d => assert Windows()[1] == w;
    case WindowAll => assert Windows()[2] == w;
  }

  method BuildWindows(ghost payments: seq<Payment>, ghost cube: seq<Group<CubeKey, Tally>>, slices: seq<Slice>,
                      asOf: Day)
    returns (windows: map<Window, WindowEconomy>, largest: map<Window, Option<Amount>>)
    requires IsCube(cube, payments) && ReadSlices(slices, cube, asOf)
    ensures forall w :: WindowOnPage(windows, largest, payments, asOf, w)
  {
    windows, largest := map[], map[];
    var todo := Windows();
    for i := 0 to |todo|
      invariant forall k :: 0 <= k < i ==> WindowOnPage(windows, largest, payments, asOf, todo[k])
    {
      var we, top := BuildWindow(payments, cube, slices, asOf, todo[i]);
      windows, largest := windows[todo[i] := we], largest[todo[i] := top];
    }
    forall w ensures WindowOnPage(windows, largest, payments, asOf, w) {
      EveryWindowListed(w);
    }
  }

  /** The month texts always parse, so there is always a page. */
  method BuildPage(ghost payments: seq<Payment>, ghost cube: seq<Group<CubeKey, Tally>>, slices: seq<Slice>, asOf: Day,
                   excluded: Accum)
    returns (page: Option<EconomyPage>)
    requires IsCube(cube, payments) && ReadSlices(slices, cube, asOf) && IsExcludedAnswer(excluded, cube, asOf)
    ensures page.Some? && PageIsDirect(page.value, payments, asOf)
  {
    var daily := BuildDaily(payments, cube, slices, asOf);
    var windows, largest := BuildWindows(payments, cube, slices, asOf);
    var monthly := BuildMonthly(payments, cube, slices, asOf);
    if monthly.None? {
      return None;
    }
    ExcludedIsTheRest(payments, cube, asOf, excluded);
    return Some(EconomyPage(windows, daily, monthly.value, largest, excluded));
  }

  /** The page is built only for the cube's own verified edge. */
  method BuildEconomy(ghost payments: seq<Payment>, ghost cube: seq<Group<CubeKey, Tally>>, edge: Option<Day>,
                      slices: seq<Slice>, excluded: Accum, asOf: Day)
    returns (r: Built)
    requires IsCube(cube, payments) && IsEdge(edge, cube)
    requires ReadSlices(slices, cube, asOf) && IsExcludedAnswer(excluded, cube, asOf)
    ensures r.NoVerifiedRows? <==> forall p :: p in payments ==> !p.facilitatorKnown
    ensures r.Page? <==> edge == Some(asOf)
    ensures r.WrongAsOf? ==> edge.Some? && r.want == Format(asOf) && r.edge == Format(edge.value)
    ensures r.Page? ==> PageIsDirect(r.page, payments, asOf)
  {
    EdgeOfPayments(payments, cube, edge);
    if edge.None? {
      return NoVerifiedRows;
    }
    DaysCompare(asOf, edge.value);
    if Format(asOf) != Format(edge.value) {
      return WrongAsOf(Format(asOf), Format(edge.value));
    }
    var page := BuildPage(payments, cube, slices, asOf, excluded);
    return if page.None? then BadMonth else Page(page.value);
  }
}
