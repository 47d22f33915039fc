/** The economy page's day and month series, its largest payments, and the page as a whole. */
module Series {
  import opened Cube
  import opened Days
  import opened Grouping
  import opened Positions
  import opened Runs
  import opened Text
  import opened Wrappers

  // ----- one point per day

  datatype DailyPoint = DailyPoint(day: string, complete: bool, measure: Accum)

  function DayGroups(series: seq<DailyPoint>): (r: seq<Group<string, Accum>>)
    ensures |r| == |series| && forall i :: 0 <= i < |r| ==> r[i] == Group(series[i].day, series[i].measure)
  {
    if series == [] then [] else [Group(series[0].day, series[0].measure)] + DayGroups(series[1..])
  }

  lemma TextIsStrictlyOrdered()
    ensures StrictOrder(StringLess)
  {
    forall a, b, c ensures OrderLaw(StringLess, a, b, c) {
      StringLessIsTotal(a, a);
      if StringLess(a, b) && StringLess(b, c) {
        StringLessIsTransitive(a, b, c);
      }
    }
  }

  /** One group for each day there is. */
  ghost predicate DailyTotals(rows: seq<Group<string, Accum>>, slices: seq<Slice>) {
    IsGroupBy(AccumSum(), rows, slices, DayText, SliceAccum)
  }

  /** The groups stand earliest first. */
  ghost predicate DaysInOrder(rows: seq<Group<string, Accum>>, slices: seq<Slice>) {
    RowsInOrder(StringLess, rows, slices, DayText)
  }

  ghost predicate IsDaily(rows: seq<Group<string, Accum>>, slices: seq<Slice>) {
    DailyTotals(rows, slices) && DaysInOrder(rows, slices)
  }

  lemma DaysAscend(slices: seq<Slice>, s: Slice)
    requires InDayOrder(slices + [s])
    ensures Next(StringLess, slices, s, DayText)
  {
    if slices != [] {
      var all, last := slices + [s], slices[|slices|-1];
      assert all[|slices|-1] == last && all[|slices|] == s;
      DaysCompare(last.key.day, s.key.day);
    }
  }

  /** The points written so far and the one still open. */
  function Open(series: seq<DailyPoint>, day: string, cur: Accum): seq<Group<string, Accum>> {
    DayGroups(series) + if day == "" then [] else [Group(day, cur)]
  }

  predicate AllComplete(series: seq<DailyPoint>) {
    forall i :: 0 <= i < |series| ==> series[i].complete
  }

  method Flush(series: seq<DailyPoint>, day: string, cur: Accum) returns (r: seq<DailyPoint>)
    requires AllComplete(series)
    ensures AllComplete(r)
    ensures DayGroups(r) == Open(series, day, cur)
  {
    r := series;
    if day != "" {
      r := series + [DailyPoint(day, true, cur)];
    }
  }

  /** The points written and the one still open are the days of what was read. */
  ghost predicate ReadSoFar(series: seq<DailyPoint>, day: string, cur: Accum, slices: seq<Slice>) {
    day == LastDay(slices) && IsDaily(Open(series, day, cur), slices)
  }

  /** Reading a slice of another day opens that day. */
  lemma DayOpens(series: seq<DailyPoint>, before: seq<DailyPoint>, day: string, cur: Accum, slices: seq<Slice>,
                 s: Slice)
    requires InDayOrder(slices + [s]) && ReadSoFar(before, day, cur, slices) && DayText(s) != day
    requires DayGroups(series) == Open(before, day, cur)
    ensures ReadSoFar(series, DayText(s), PlusAccum(Accum(0, 0.0), SliceAccum(s)), slices + [s])
  {
    AccumSumIsLawful();
    NewDayIsLast(Open(before, day, cur), slices, s);
    NewGroup(AccumSum(), Open(before, day, cur), slices, s, DayText, SliceAccum);
    assert |DayText(s)| == 10;
  }

  lemma NewDayIsLast(rows: seq<Group<string, Accum>>, slices: seq<Slice>, s: Slice)
    requires InDayOrder(slices + [s]) && IsDaily(rows, slices) && DayText(s) != LastDay(slices)
    ensures !HasKey(rows, DayText(s))
    ensures DaysInOrder(rows + [Group(DayText(s), PlusAccum(Accum(0, 0.0), SliceAccum(s)))], slices + [s])
  {
    TextIsStrictlyOrdered();
    DaysAscend(slices, s);
    RowOpens(StringLess, rows, slices, s, DayText, PlusAccum(Accum(0, 0.0), SliceAccum(s)));
  }

  /** Reading a slice of the open day adds to it. */
  lemma DayGoesOn(series: seq<DailyPoint>, day: string, cur: Accum, slices: seq<Slice>, s: Slice)
    requires InDayOrder(slices + [s]) && ReadSoFar(series, day, cur, slices) && DayText(s) == day
    ensures ReadSoFar(series, day, PlusAccum(cur, SliceAccum(s)), slices + [s])
  {
    var rows := Open(series, day, cur);
    assert |day| == 10 && rows[|rows|-1] == Group(day, cur);
    LastDayStays(rows, slices, s, PlusAccum(cur, SliceAccum(s)));
    DayJoins(rows, slices, s, |rows| - 1);
    OpenWith(series, day, cur, PlusAccum(cur, SliceAccum(s)));
  }

  lemma LastDayStays(rows: seq<Group<string, Accum>>, slices: seq<Slice>, s: Slice, total: Accum)
    requires DaysInOrder(rows, slices) && rows != [] && DayText(s) == LastDay(slices) != ""
    ensures DaysInOrder(rows[|rows|-1 := Group(DayText(s), total)], slices + [s])
  {
    RowGoesOn(StringLess, rows, slices, s, DayText, total);
  }

  lemma DayJoins(rows: seq<Group<string, Accum>>, slices: seq<Slice>, s: Slice, i: nat)
    requires DailyTotals(rows, slices) && i < |rows| && rows[i].key == DayText(s)
    ensures DailyTotals(rows[i := Group(DayText(s), PlusAccum(rows[i].total, SliceAccum(s)))], slices + [s])
  {
    AccumSumIsLawful();
    JoinGroup(AccumSum(), rows, i, slices, s, DayText, SliceAccum);
  }

  lemma OpenWith(series: seq<DailyPoint>, day: string, cur: Accum, next: Accum)
    requires day != ""
    ensures var rows := Open(series, day, cur);
            rows[|rows|-1 := Group(day, next)] == Open(series, day, next)
  {
  }

  lemma PrefixInOrder(slices: seq<Slice>, i: nat)
    requires InDayOrder(slices) && i < |slices|
    ensures InDayOrder(slices[..i] + [slices[i]]) && slices[..i] + [slices[i]] == slices[..i+1]
  {
  }

  /** Every day is complete but the newest. */
  predicate OnlyLastOpen(series: seq<DailyPoint>) {
    forall i :: 0 <= i < |series| ==> (series[i].complete <==> i < |series| - 1)
  }

  method MarkEdge(series: seq<DailyPoint>) returns (r: seq<DailyPoint>)
    requires AllComplete(series)
    ensures DayGroups(r) == DayGroups(series)
    ensures OnlyLastOpen(r)
  {
    r := series;
    if |r| > 0 {
      r := r[|r|-1 := r[|r|-1].(complete := false)];
    }
  }

  lemma NothingRead(cur: Accum)
    ensures ReadSoFar([], "", cur, [])
  {
  }

  function LastDay(seen: seq<Slice>): string {
    if seen == [] then "" else DayText(seen[|seen|-1])
  }

  /** One turn of the loop over the slices. */
  method ReadSlice(before: seq<DailyPoint>, open: string, sum: Accum, ghost seen: seq<Slice>, s: Slice)
    returns (series: seq<DailyPoint>, day: string, cur: Accum)
    requires AllComplete(before)
    requires ReadSoFar(before, open, sum, seen) && InDayOrder(seen + [s])
    ensures AllComplete(series) && ReadSoFar(series, day, cur, seen + [s])
  {
    series, day, cur := before, open, sum;
    if DayText(s) != day {
      series := Flush(series, day, cur);
      DayOpens(series, before, day, cur, seen, s);
      day, cur := DayText(s), Accum(0, 0.0);
    } else {
      DayGoesOn(series, day, cur, seen, s);
    }
    cur := PlusAccum(cur, SliceAccum(s));
  }

  method CollectDays(slices: seq<Slice>) returns (series: seq<DailyPoint>, day: string, cur: Accum)
    requires InDayOrder(slices)
    ensures AllComplete(series) && IsDaily(Open(series, day, cur), slices)
  {
    series, day, cur := [], "", Accum(0, 0.0);
    ghost var seen: seq<Slice> := [];
    NothingRead(cur);
    for i := 0 to |slices|
      invariant seen == slices[..i]
      invariant AllComplete(series) && ReadSoFar(series, day, cur, seen)
    {
      PrefixInOrder(slices, i);
      series, day, cur := ReadSlice(series, day, cur, seen, slices[i]);
      seen := seen + [slices[i]];
    }
    assert slices[..|slices|] == slices;
  }

  method DailySeries(slices: seq<Slice>) returns (series: seq<DailyPoint>)
    requires InDayOrder(slices)
    ensures IsDaily(DayGroups(series), slices) && OnlyLastOpen(series)
  {
    var day, cur;
    series, day, cur := CollectDays(slices);
    series := Flush(series, day, cur);
    series := MarkEdge(series);
  }

  // ----- one point per month

  datatype MonthlyPoint = MonthlyPoint(month: string, complete: bool, measure: Accum)

  function MonthText(s: Slice): string {
    DayText(s)[..7]
  }

  /** One total for each month there is. */
  ghost predicate MonthTotals(months: map<string, Accum>, slices: seq<Slice>) {
    MapGroups(AccumSum(), months, slices, MonthText, SliceAccum)
  }

  /** The months listed earliest first. */
  ghost predicate MonthsListed(order: seq<string>, keys: set<string>, slices: seq<Slice>) {
    InOrder(StringLess, order, keys, slices, MonthText)
  }

  lemma MonthsAscend(slices: seq<Slice>, s: Slice)
    requires InDayOrder(slices + [s])
    ensures Next(StringLess, slices, s, MonthText)
  {
    if slices != [] {
      var all, last := slices + [s], slices[|slices|-1];
      assert all[|slices|-1] == last && all[|slices|] == s;
      MonthsCompare(last.key.day.year, last.key.day.month, s.key.day.year, s.key.day.month);
    }
  }

  function AddToMonth(months: map<string, Accum>, m: string, a: Accum): (r: map<string, Accum>)
    ensures r.Keys == months.Keys + {m}
  {
    months[m := PlusAccum(if m in months then months[m] else Accum(0, 0.0), a)]
  }

  lemma MonthTotalsGrow(months: map<string, Accum>, slices: seq<Slice>, s: Slice)
    requires MonthTotals(months, slices)
    ensures MonthTotals(AddToMonth(months, MonthText(s), SliceAccum(s)), slices + [s])
  {
    AccumSumIsLawful();
    MapAdds(AccumSum(), months, slices, s, MonthText, SliceAccum);
  }

  function ListKey(order: seq<string>, known: set<string>, m: string): seq<string> {
    if m in known then order else order + [m]
  }

  /** A slice belongs to the month listed last, or opens a later one. */
  lemma MonthsListedGrow(order: seq<string>, keys: set<string>, slices: seq<Slice>, s: Slice, m: string)
    requires MonthsListed(order, keys, slices) && InDayOrder(slices + [s]) && m == MonthText(s)
    ensures MonthsListed(ListKey(order, keys, m), keys + {m}, slices + [s])
  {
    TextIsStrictlyOrdered();
    MonthsAscend(slices, s);
    OrderGrows(StringLess, order, keys, slices, s, MonthText);
  }

  /** Whether the month lies within the data, by its first and last day as texts. */
  function MonthComplete(first: Date, minDay: string, asOfDay: string): bool
    requires Valid(first) && first.day == 1 && 0 <= first.year <= 9999
  {
    MonthEndIsLastDay(first);
    !StringLess(Format(first), minDay) && !StringLess(asOfDay, Format(MonthEnd(first)))
  }

  ghost predicate EveryDayWithin(first: Date, begin: Date, end: Date) {
    forall d: Date :: Valid(d) && d.year == first.year && d.month == first.month ==>
      !Earlier(d, begin) && !Earlier(end, d)
  }

  /** A month is complete just when each of its days is within the data. */
  lemma CompleteMeansEveryDay(first: Date, minDay: Day, asOf: Day)
    requires Valid(first) && first.day == 1 && 0 <= first.year <= 9999
    ensures MonthComplete(first, Format(minDay), Format(asOf)) <==> EveryDayWithin(first, minDay, asOf)
  {
    MonthEndIsLastDay(first);
    var last := MonthEnd(first);
    DaysCompare(first, minDay);
    DaysCompare(asOf, last);
    assert Valid(first) && Valid(last);
  }

  function PointOf(m: string, minDay: string, asOfDay: string, measure: Accum): Option<MonthlyPoint> {
    var first := ParseMonth(m);
    if first.None? then None else Some(MonthlyPoint(m, MonthComplete(first.value, minDay, asOfDay), measure))
  }

  lemma MonthOfSliceParses(s: Slice)
    ensures ParseMonth(MonthText(s)) == Some(Date(s.key.day.year, s.key.day.month, 1))
  {
    ParseMonthOfFormat(s.key.day.year, s.key.day.month);
  }

  lemma {:induction false} ListedMonthsParse(order: seq<string>, months: map<string, Accum>, slices: seq<Slice>)
    requires MonthTotals(months, slices) && Lists(order, months.Keys)
    ensures forall i :: 0 <= i < |order| ==> ParseMonth(order[i]).Some?
  {
    forall i | 0 <= i < |order| ensures ParseMonth(order[i]).Some? {
      var m := order[i];
      assert m in order && OneGroup(AccumSum(), Group(m, months[m]), slices, MonthText, SliceAccum);
      var s := Filter(slices, KeyIs(MonthText, m))[0];
      assert s in Filter(slices, KeyIs(MonthText, m));
      MonthOfSliceParses(s);
    }
  }

  /** What the series says of each month. */
  ghost predicate SeriesOf(series: seq<MonthlyPoint>, order: seq<string>, months: map<string, Accum>,
                           minDay: string, asOfDay: string)
  {
    && |series| == |order|
    && forall i :: 0 <= i < |series| ==>
                     order[i] in months && Some(series[i]) == PointOf(order[i], minDay, asOfDay, months[order[i]])
  }

  method CollectMonths(slices: seq<Slice>) returns (order: seq<string>, months: map<string, Accum>)
    requires InDayOrder(slices)
    ensures MonthTotals(months, slices) && MonthsListed(order, months.Keys, slices)
  {
    order, months := [], map[];
    ghost var seen: seq<Slice> := [];
    for i := 0 to |slices|
      invariant seen == slices[..i]
      invariant MonthTotals(months, seen)
      invariant MonthsListed(order, months.Keys, seen)
    {
      var s := slices[i];
      PrefixInOrder(slices, i);
      MonthTotalsGrow(months, seen, s);
      MonthsListedGrow(order, months.Keys, seen, s, MonthText(s));
      order, months := ListKey(order, months.Keys, MonthText(s)), AddToMonth(months, MonthText(s), SliceAccum(s));
      seen := seen + [s];
    }
    assert slices[..|slices|] == slices;
  }

  /** None stands for the error of a month text that does not parse. */
  method ListMonths(order: seq<string>, months: map<string, Accum>, minDay: string, asOfDay: string)
    returns (r: Option<seq<MonthlyPoint>>)
    requires forall m :: m in order ==> m in months
    ensures r.Some? <==> forall m :: m in order ==> ParseMonth(m).Some?
    ensures r.Some? ==> SeriesOf(r.value, order, months, minDay, asOfDay)
  {
    var series := [];
    for i := 0 to |order|
      invariant forall k :: 0 <= k < i ==> ParseMonth(order[k]).Some?
      invariant SeriesOf(series, order[..i], months, minDay, asOfDay)
    {
      var m := order[i];
      assert m in order;
      var first := ParseMonth(m);
      if first.None? {
        return None;
      }
      SeriesGrows(series, order, months, minDay, asOfDay, i);
      series := series + [MonthlyPoint(m, MonthComplete(first.value, minDay, asOfDay), months[m])];
    }
    assert order[..|order|] == order;
    return Some(series);
  }

  lemma SeriesGrows(series: seq<MonthlyPoint>, order: seq<string>, months: map<string, Accum>,
                    minDay: string, asOfDay: string, i: nat)
    requires i < |order| && SeriesOf(series, order[..i], months, minDay, asOfDay)
    requires order[i] in months && ParseMonth(order[i]).Some?
    ensures var m := order[i];
            var point := MonthlyPoint(m, MonthComplete(ParseMonth(m).value, minDay, asOfDay), months[m]);
            SeriesOf(series + [point], order[..i+1], months, minDay, asOfDay)
  {
    assert order[..i+1] == order[..i] + [order[i]];
  }

  /** The month texts come from days, so the parse error never comes up. */
  method MonthlySeries(slices: seq<Slice>, asOf: Day)
    returns (r: Option<seq<MonthlyPoint>>, ghost order: seq<string>, ghost months: map<string, Accum>)
    requires InDayOrder(slices)
    ensures r.Some? && MonthTotals(months, slices) && MonthsListed(order, months.Keys, slices)
    ensures slices == [] ==> r.value == []
    ensures slices != [] ==> SeriesOf(r.value, order, months, DayText(slices[0]), Format(asOf))
  {
    if |slices| == 0 {
      return Some([]), [], map[];
    }
    var listed, totals := CollectMonths(slices);
    ListedMonthsParse(listed, totals, slices);
    r := ListMonths(listed, totals, DayText(slices[0]), Format(asOf));
    order, months := listed, totals;
  }
}
