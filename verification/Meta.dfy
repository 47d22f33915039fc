/**
 The metadata cache: requests read the stamp, look in the cache, read the totals and
 store them, each as a step of its own, while rollups commit in between.
 */
module Meta {
  import opened Roles
  import opened Wrappers

  datatype DayRow = DayRow(role: Role, facilitatorKnown: bool, txnCount: nat, volume: nat)
  datatype LensTotals = LensTotals(txnCount: nat, volume: nat)
  type Totals = map<Lens, LensTotals>

  /** What one rollup commits, all at once: its stamp and the day table. */
  datatype Generation = Generation(builtAt: string, rows: seq<DayRow>)

  predicate InLens(r: DayRow, lens: Lens) {
    r.role == PayerRole && (lens == AllLens || r.facilitatorKnown)
  }

  function LensSum(rows: seq<DayRow>, lens: Lens): LensTotals {
    if rows == [] then LensTotals(0, 0)
    else
      var t, r := LensSum(rows[..|rows|-1], lens), rows[|rows|-1];
      if InLens(r, lens) then LensTotals(t.txnCount + r.txnCount, t.volume + r.volume) else t
  }

  function TotalsOf(rows: seq<DayRow>): Totals {
    map[KnownLens := LensSum(rows, KnownLens), AllLens := LensSum(rows, AllLens)]
  }

  // ----- the same, field by field

  /** Payments are counted once each, by their payer's rows; the known lens takes those of known facilitators. */
  predicate Tallies(r: DayRow, lens: Lens) {
    match r.role
    case PayerRole => if lens == KnownLens then r.facilitatorKnown else true
    case PayeeRole => false
    case FacilitatorRole => false
  }

  function TxnsOf(rows: seq<DayRow>, lens: Lens): nat {
    if rows == [] then 0 else (if Tallies(rows[0], lens) then rows[0].txnCount else 0) + TxnsOf(rows[1..], lens)
  }

  function VolumeOf(rows: seq<DayRow>, lens: Lens): nat {
    if rows == [] then 0 else (if Tallies(rows[0], lens) then rows[0].volume else 0) + VolumeOf(rows[1..], lens)
  }

  lemma {:induction false} OneMoreRow(rows: seq<DayRow>, r: DayRow, lens: Lens)
    ensures TxnsOf(rows + [r], lens) == TxnsOf(rows, lens) + if Tallies(r, lens) then r.txnCount else 0
    ensures VolumeOf(rows + [r], lens) == VolumeOf(rows, lens) + if Tallies(r, lens) then r.volume else 0
  {
    if rows == [] {
      assert [r][1..] == [];
    } else {
      assert (rows + [r])[1..] == rows[1..] + [r];
      OneMoreRow(rows[1..], r, lens);
    }
  }

  lemma {:induction false} LensSumAdds(rows: seq<DayRow>, lens: Lens)
    ensures LensSum(rows, lens) == LensTotals(TxnsOf(rows, lens), VolumeOf(rows, lens))
  {
    if rows != [] {
      var front, r := rows[..|rows|-1], rows[|rows|-1];
      LensSumAdds(front, lens);
      OneMoreRow(front, r, lens);
      assert rows == front + [r];
    }
  }

  /** The totals of a generation: for both lenses, the counts and the volumes of the rows the lens takes. */
  lemma TotalsAreSums(rows: seq<DayRow>)
    ensures TotalsOf(rows).Keys == {KnownLens, AllLens}
    ensures forall lens :: lens in TotalsOf(rows) ==>
              TotalsOf(rows)[lens] == LensTotals(TxnsOf(rows, lens), VolumeOf(rows, lens))
  {
    LensSumAdds(rows, KnownLens);
    LensSumAdds(rows, AllLens);
  }

  ghost predicate HasLens(rows: seq<DayRow>, lens: Lens) {
    exists r :: r in rows && InLens(r, lens)
  }

  /** One row of the totals query; a lens without payer rows has none. */
  datatype TotalsRow = TotalsRow(lens: Lens, totals: LensTotals)

  ghost predicate QueryAnswer(rows: seq<DayRow>, answer: seq<TotalsRow>) {
    && (forall i, j :: 0 <= i < j < |answer| ==> answer[i].lens != answer[j].lens)
    && (forall t :: t in answer ==>
          t.totals == LensSum(rows, t.lens) && HasLens(rows, t.lens))
    && forall lens :: HasLens(rows, lens) ==> exists t :: t in answer && t.lens == lens
  }

  lemma {:induction false} EmptyLens(rows: seq<DayRow>, lens: Lens)
    requires !HasLens(rows, lens)
    ensures LensSum(rows, lens) == LensTotals(0, 0)
  {
    if rows != [] {
      assert rows[|rows|-1] in rows && forall r :: r in rows[..|rows|-1] ==> r in rows;
      EmptyLens(rows[..|rows|-1], lens);
    }
  }

  /** The totals of a lens among the first n rows, zero if it has none there. */
  ghost predicate OfLens(answer: seq<TotalsRow>, n: nat, lens: Lens, totals: LensTotals)
    requires n <= |answer|
  {
    && (forall k :: 0 <= k < n && answer[k].lens == lens ==> totals == answer[k].totals)
    && ((forall k :: 0 <= k < n ==> answer[k].lens != lens) ==> totals == LensTotals(0, 0))
  }

  lemma OfLensGrows(answer: seq<TotalsRow>, n: nat, lens: Lens, totals: LensTotals)
    requires n < |answer| && OfLens(answer, n, lens, totals)
    requires forall i, j :: 0 <= i < j < |answer| ==> answer[i].lens != answer[j].lens
    ensures OfLens(answer, n + 1, lens, if answer[n].lens == lens then answer[n].totals else totals)
  {
    if forall k :: 0 <= k < n + 1 ==> answer[k].lens != lens {
      assert answer[n].lens != lens;
    }
  }

  method ReadTotals(ghost rows: seq<DayRow>, answer: seq<TotalsRow>) returns (out: Totals)
    requires QueryAnswer(rows, answer)
    ensures out == TotalsOf(rows)
  {
    out := map[KnownLens := LensTotals(0, 0), AllLens := LensTotals(0, 0)];
    for i := 0 to |answer|
      invariant out.Keys == {KnownLens, AllLens}
      invariant OfLens(answer, i, KnownLens, out[KnownLens]) && OfLens(answer, i, AllLens, out[AllLens])
    {
      OfLensGrows(answer, i, KnownLens, out[KnownLens]);
      OfLensGrows(answer, i, AllLens, out[AllLens]);
      out := out[answer[i].lens := answer[i].totals];
    }
    LensTotal(rows, answer, out, KnownLens);
    LensTotal(rows, answer, out, AllLens);
  }

  lemma LensTotal(rows: seq<DayRow>, answer: seq<TotalsRow>, out: Totals, lens: Lens)
    requires QueryAnswer(rows, answer) && out.Keys == {KnownLens, AllLens} && lens in out
    requires OfLens(answer, |answer|, lens, out[lens])
    ensures out[lens] == LensSum(rows, lens)
  {
    if HasLens(rows, lens) {
      var t :| t in answer && t.lens == lens;
    } else {
      EmptyLens(rows, lens);
      forall k | 0 <= k < |answer| ensures answer[k].lens != lens {
        assert answer[k] in answer;
      }
    }
  }

  // ----- the interleaving

  /** read is the generation current when the totals were queried; it serves the statement only. */
  datatype Entry = Entry(key: string, read: nat, totals: Totals)

  datatype Response = Served(builtAt: string, totals: Totals) | NotFound | Failed

  /**
   Where a request stands.  stamp and end are the generations current when it read its
   stamp and when it finished, read is the one current when the totals it serves were
   queried, be it by itself or by the request that filled the cache; they serve the
   statement only, no step looks at them.
   */
  datatype Request =
    | Begun
    | Stamped(stamp: nat, builtAt: string)
    | Missed(stamp: nat, builtAt: string)
    | Recomputed(stamp: nat, builtAt: string, read: nat, totals: Totals)
    | Finished(stamp: nat, read: nat, end: nat, response: Response)

  datatype System = System(history: seq<Generation>, cached: Option<Entry>, requests: seq<Request>)

  datatype Event =
    | Rollup(generation: Generation)
    | Arrive
    | Advance(request: nat)
    | QueryFails(request: nat)

  ghost predicate Enabled(s: System, e: Event) {
    match e
    case Rollup(g) => forall h :: h in s.history ==> h.builtAt != g.builtAt
    case Arrive => true
    case Advance(i) => i < |s.requests| && !s.requests[i].Finished?
    case QueryFails(i) => i < |s.requests| && (s.requests[i].Begun? || s.requests[i].Missed?)
  }

  function Now(s: System): nat {
    if s.history == [] then 0 else |s.history| - 1
  }

  /** One step of a request. */
  function Advanced(s: System, r: Request): (Option<Entry>, Request)
    requires !r.Finished? && (r.Missed? ==> s.history != [])
  {
    match r
    case Begun =>
      (s.cached,
       if s.history == [] then Finished(0, 0, 0, NotFound) else Stamped(Now(s), s.history[Now(s)].builtAt))
    case Stamped(stamp, builtAt) =>
      (s.cached,
       if s.cached.Some? && s.cached.value.key == builtAt
       then Finished(stamp, s.cached.value.read, Now(s), Served(builtAt, s.cached.value.totals))
       else Missed(stamp, builtAt))
    case Missed(stamp, builtAt) =>
      (s.cached, Recomputed(stamp, builtAt, Now(s), TotalsOf(s.history[Now(s)].rows)))
    case Recomputed(stamp, builtAt, read, totals) =>
      (Some(Entry(builtAt, read, totals)), Finished(stamp, read, Now(s), Served(builtAt, totals)))
  }

  function After(s: System, e: Event): System {
    match e
    case Rollup(g) => s.(history := s.history + [g])
    case Arrive => s.(requests := s.requests + [Begun])
    case Advance(i) =>
      if i < |s.requests| && !s.requests[i].Finished? && (s.requests[i].Missed? ==> s.history != []) then
        var (cached, r) := Advanced(s, s.requests[i]);
        System(s.history, cached, s.requests[i := r])
      else s
    case QueryFails(i) =>
      if i < |s.requests| then s.(requests := s.requests[i := Finished(0, 0, Now(s), Failed)]) else s
  }

  /** These totals are those of generation read, which lies between the two. */
  ghost predicate ReadBetween(history: seq<Generation>, first: nat, read: nat, last: nat, totals: Totals) {
    first <= read <= last < |history| && totals == TotalsOf(history[read].rows)
  }

  ghost predicate StampIs(history: seq<Generation>, stamp: nat, builtAt: string) {
    stamp < |history| && history[stamp].builtAt == builtAt
  }

  ghost predicate Consistent(history: seq<Generation>, r: Request) {
    match r
    case Begun => true
    case Stamped(stamp, builtAt) => StampIs(history, stamp, builtAt)
    case Missed(stamp, builtAt) => StampIs(history, stamp, builtAt)
    case Recomputed(stamp, builtAt, read, totals) =>
      StampIs(history, stamp, builtAt) && ReadBetween(history, stamp, read, |history| - 1, totals)
    case Finished(stamp, read, end, response) =>
      response.Served? ==>
        StampIs(history, stamp, response.builtAt) && ReadBetween(history, stamp, read, end, response.totals)
  }

  ghost predicate DistinctStamps(history: seq<Generation>) {
    forall i, j :: 0 <= i < j < |history| ==> history[i].builtAt != history[j].builtAt
  }

  ghost predicate CacheIsFresh(history: seq<Generation>, cached: Option<Entry>) {
    cached.Some? ==>
      exists g :: StampIs(history, g, cached.value.key)
                  && ReadBetween(history, g, cached.value.read, |history| - 1, cached.value.totals)
  }

  ghost predicate Inv(s: System) {
    && DistinctStamps(s.history)
    && CacheIsFresh(s.history, s.cached)
    && forall i :: 0 <= i < |s.requests| ==> Consistent(s.history, s.requests[i])
  }

  lemma HistoryGrows(history: seq<Generation>, g: Generation, first: nat, read: nat, last: nat, totals: Totals)
    requires ReadBetween(history, first, read, last, totals)
    ensures ReadBetween(history + [g], first, read, last, totals)
    ensures ReadBetween(history + [g], first, read, |history|, totals)
  {
    assert (history + [g])[read] == history[read];
  }

  lemma RollupKeepsInv(s: System, g: Generation)
    requires Inv(s) && Enabled(s, Rollup(g))
    ensures Inv(After(s, Rollup(g)))
  {
    var h := s.history + [g];
    forall i | 0 <= i < |s.requests| ensures Consistent(h, s.requests[i]) {
      var r := s.requests[i];
      if r.Recomputed? {
        HistoryGrows(s.history, g, r.stamp, r.read, |s.history| - 1, r.totals);
      } else if r.Finished? && r.response.Served? {
        HistoryGrows(s.history, g, r.stamp, r.read, r.end, r.response.totals);
      }
    }
    if s.cached.Some? {
      var c := s.cached.value;
      var k :| StampIs(s.history, k, c.key) && ReadBetween(s.history, k, c.read, |s.history| - 1, c.totals);
      HistoryGrows(s.history, g, k, c.read, |s.history| - 1, c.totals);
      assert StampIs(h, k, c.key);
    }
  }

  lemma AdvanceKeepsConsistent(s: System, r: Request)
    requires Inv(s) && Consistent(s.history, r) && !r.Finished?
    ensures r.Missed? ==> s.history != []
    ensures var (cached, next) := Advanced(s, r);
            Consistent(s.history, next) && CacheIsFresh(s.history, cached)
  {
    match r
    case Begun =>
    case Stamped(stamp, builtAt) =>
      if s.cached.Some? && s.cached.value.key == builtAt {
        var c := s.cached.value;
        var g :| StampIs(s.history, g, builtAt) && ReadBetween(s.history, g, c.read, |s.history| - 1, c.totals);
        assert g == stamp;
      }
    case Missed(stamp, builtAt) =>
      assert s.history[Now(s)] == s.history[|s.history| - 1];
    case Recomputed(stamp, builtAt, read, totals) =>
      assert StampIs(s.history, stamp, builtAt);
  }

  lemma StepKeepsInv(s: System, e: Event)
    requires Inv(s) && Enabled(s, e)
    ensures Inv(After(s, e))
  {
    match e
    case Rollup(g) => RollupKeepsInv(s, g);
    case Arrive =>
    case Advance(i) => AdvanceKeepsConsistent(s, s.requests[i]);
    case QueryFails(i) =>
  }

  ghost predicate Feasible(s: System, events: seq<Event>)
    decreases |events|
  {
    events == [] || (Enabled(s, events[0]) && Feasible(After(s, events[0]), events[1..]))
  }

  function Execute(s: System, events: seq<Event>): System
    decreases |events|
  {
    if events == [] then s else Execute(After(s, events[0]), events[1..])
  }

  function Initial(): System {
    System([], None, [])
  }

  lemma {:induction false} ExecutionKeepsInv(s: System, events: seq<Event>)
    requires Inv(s) && Feasible(s, events)
    ensures Inv(Execute(s, events))
    decreases |events|
  {
    if events != [] {
      StepKeepsInv(s, events[0]);
      ExecutionKeepsInv(After(s, events[0]), events[1..]);
    }
  }

  /** What the run has served to request i. */
  ghost predicate Serves(s: System, i: nat) {
    i < |s.requests| && s.requests[i].Finished? && s.requests[i].response.Served?
  }

  /**
   Under any interleaving, totals served under the stamp of generation g are those of the
   generation current when they were queried, which is g, the one current at the end of
   the request, or one between.
   */
  lemma NeverOlderThanItsStamp(events: seq<Event>, i: nat)
    requires Feasible(Initial(), events) && Serves(Execute(Initial(), events), i)
    ensures var s := Execute(Initial(), events);
            var r := s.requests[i];
            && StampIs(s.history, r.stamp, r.response.builtAt)
            && ReadBetween(s.history, r.stamp, r.read, r.end, r.response.totals)
  {
    assert Inv(Initial());
    ExecutionKeepsInv(Initial(), events);
    assert Consistent(Execute(Initial(), events).history, Execute(Initial(), events).requests[i]);
  }

  /** No two generations have the same totals. */
  ghost predicate DistinctTotals(history: seq<Generation>) {
    forall i, j :: 0 <= i < j < |history| ==> TotalsOf(history[i].rows) != TotalsOf(history[j].rows)
  }

  /**
   Exactly when the totals served are those of their stamp: iff the generation they were
   queried from has these totals; where totals differ between generations, iff no rollup
   committed between the stamp read and the query.  A rollup after the query does no harm.
   */
  lemma OwnTotalsExactly(events: seq<Event>, i: nat)
    requires Feasible(Initial(), events) && Serves(Execute(Initial(), events), i)
    ensures var s := Execute(Initial(), events);
            var r := s.requests[i];
            && r.stamp <= r.read < |s.history|
            && var own := TotalsOf(s.history[r.stamp].rows);
               && (r.response.totals == own <==> TotalsOf(s.history[r.read].rows) == own)
               && (DistinctTotals(s.history) ==> (r.response.totals == own <==> r.read == r.stamp))
  {
    NeverOlderThanItsStamp(events, i);
  }

  // ----- no answer is older than its request, and the cache spares queries

  ghost predicate StampedSince(r: Request, first: nat) {
    match r
    case Begun => true
    case Stamped(stamp, _) => stamp >= first
    case Missed(stamp, _) => stamp >= first
    case Recomputed(stamp, _, _, _) => stamp >= first
    case Finished(stamp, _, _, response) => response.Served? ==> stamp >= first
  }

  lemma {:induction false} StampStaysSince(s: System, events: seq<Event>, i: nat, first: nat)
    requires Feasible(s, events) && i < |s.requests| && first <= Now(s) && StampedSince(s.requests[i], first)
    ensures i < |Execute(s, events).requests| && StampedSince(Execute(s, events).requests[i], first)
    decreases |events|
  {
    if events != [] {
      StampStaysSince(After(s, events[0]), events[1..], i, first);
    }
  }

  /**
   Whatever happens after a request arrives, it is served neither a stamp nor totals of a
   generation older than the newest one committed by then.
   */
  lemma NeverOlderThanItsRequest(s: System, events: seq<Event>, i: nat)
    requires Inv(s) && i < |s.requests| && s.requests[i].Begun?
    requires Feasible(s, events) && Serves(Execute(s, events), i)
    ensures var t := Execute(s, events);
            var r := t.requests[i];
            && Now(s) <= r.stamp && StampIs(t.history, r.stamp, r.response.builtAt)
            && ReadBetween(t.history, r.stamp, r.read, r.end, r.response.totals)
  {
    StampStaysSince(s, events, i, Now(s));
    ExecutionKeepsInv(s, events);
    assert Consistent(Execute(s, events).history, Execute(s, events).requests[i]);
  }

  /** The n-th request does its next two steps. */
  function TwoSteps(s: System, n: nat): System {
    After(After(s, Advance(n)), Advance(n))
  }

  /** Once a request has recomputed the newest stamp's totals, the next one gets the same answer without a query. */
  lemma NextRequestIsSpared(s: System, i: nat)
    requires i < |s.requests| && s.requests[i].Recomputed?
    requires s.history != [] && s.history[|s.history| - 1].builtAt == s.requests[i].builtAt
    ensures var t := After(s, Advance(i));
            var n := |t.requests|;
            var u := TwoSteps(After(t, Arrive), n);
            && Serves(t, i) && Serves(u, n)
            && t.requests[i].response == Served(s.requests[i].builtAt, s.requests[i].totals)
            && u.requests[n].response == t.requests[i].response && u.requests[n].read == s.requests[i].read
  {
    var t := After(s, Advance(i));
    var n := |t.requests|;
    var waiting := After(After(t, Arrive), Advance(n));
    assert waiting.requests[n] == Stamped(Now(s), s.requests[i].builtAt);
  }

  // ----- every such answer can occur

  ghost predicate Reaches(s: System, t: System) {
    exists events :: Feasible(s, events) && Execute(s, events) == t
  }

  lemma ReachesItself(s: System)
    ensures Reaches(s, s)
  {
    assert Feasible(s, []) && Execute(s, []) == s;
  }

  lemma StepReaches(s: System, e: Event, t: System)
    requires Enabled(s, e) && Reaches(After(s, e), t)
    ensures Reaches(s, t)
  {
    var rest :| Feasible(After(s, e), rest) && Execute(After(s, e), rest) == t;
    assert ([e] + rest)[1..] == rest;
    assert Feasible(s, [e] + rest) && Execute(s, [e] + rest) == t;
  }

  function Committed(s: System, gs: seq<Generation>): System {
    s.(history := s.history + gs)
  }

  lemma {:induction false} CommitsReach(s: System, gs: seq<Generation>, t: System)
    requires DistinctStamps(s.history + gs) && Reaches(Committed(s, gs), t)
    ensures Reaches(s, t)
    decreases |gs|
  {
    if gs == [] {
      assert s.history + gs == s.history;
    } else {
      FirstIsNew(s.history, gs);
      assert (s.history + [gs[0]]) + gs[1..] == s.history + gs;
      CommitsReach(After(s, Rollup(gs[0])), gs[1..], t);
      StepReaches(s, Rollup(gs[0]), t);
    }
  }

  lemma FirstIsNew(history: seq<Generation>, gs: seq<Generation>)
    requires DistinctStamps(history + gs) && gs != []
    ensures forall h :: h in history ==> h.builtAt != gs[0].builtAt
  {
    var all := history + gs;
    assert all[|history|] == gs[0];
    forall h | h in history ensures h.builtAt != gs[0].builtAt {
      var i :| 0 <= i < |history| && history[i] == h;
      assert all[i] == h;
    }
  }

  /** The one request of a run, after the first n of these generations. */
  function Alone(history: seq<Generation>, n: nat, cached: Option<Entry>, r: Request): System
    requires n <= |history|
  {
    System(history[..n], cached, [r])
  }

  lemma RollupsReach(history: seq<Generation>, n: nat, m: nat, cached: Option<Entry>, r: Request, t: System)
    requires n <= m <= |history| && DistinctStamps(history) && Reaches(Alone(history, m, cached, r), t)
    ensures Reaches(Alone(history, n, cached, r), t)
  {
    assert history[..n] + history[n..m] == history[..m];
    CommitsReach(Alone(history, n, cached, r), history[n..m], t);
  }

  function ServedWith(history: seq<Generation>, stamp: nat, read: nat, end: nat): Request
    requires stamp < |history| && read < |history|
  {
    Finished(stamp, read, end, Served(history[stamp].builtAt, TotalsOf(history[read].rows)))
  }

  /**
   Rollups may commit before and after the query alike: whatever the rollups are, for any
   stamp <= read <= end some run serves the stamp of the first with the totals of the
   second, and finishes at the third.
   */
  lemma TotalsCanBeNewer(history: seq<Generation>, stamp: nat, read: nat, end: nat)
    requires DistinctStamps(history) && stamp <= read <= end < |history|
    ensures exists events :: Feasible(Initial(), events)
                             && Execute(Initial(), events).history == history
                             && Execute(Initial(), events).requests == [ServedWith(history, stamp, read, end)]
  {
    var builtAt, totals := history[stamp].builtAt, TotalsOf(history[read].rows);
    var last := Alone(history, |history|, Some(Entry(builtAt, read, totals)), ServedWith(history, stamp, read, end));
    assert history[..|history|] == history;
    ReachesItself(last);
    AnswerReaches(history, stamp, read, end, last);
    QueryReaches(history, stamp, read, end, last);
    StampReaches(history, stamp, read, last);
    ArrivalReaches(history, stamp, last);
  }

  lemma ArrivalReaches(history: seq<Generation>, stamp: nat, last: System)
    requires DistinctStamps(history) && stamp < |history|
    requires Reaches(Alone(history, stamp + 1, None, Begun), last)
    ensures Reaches(Initial(), last)
  {
    var built := System(history[..stamp+1], None, []);
    assert After(built, Arrive) == Alone(history, stamp + 1, None, Begun);
    StepReaches(built, Arrive, last);
    FirstCommitsReach(history[..stamp+1], last);
  }

  lemma FirstCommitsReach(gs: seq<Generation>, last: System)
    requires DistinctStamps(gs) && Reaches(System(gs, None, []), last)
    ensures Reaches(Initial(), last)
  {
    assert [] + gs == gs;
    CommitsReach(Initial(), gs, last);
  }

  lemma AnswerReaches(history: seq<Generation>, stamp: nat, read: nat, end: nat, last: System)
    requires DistinctStamps(history) && stamp <= read <= end < |history|
    requires var builtAt, totals := history[stamp].builtAt, TotalsOf(history[read].rows);
             Reaches(Alone(history, |history|, Some(Entry(builtAt, read, totals)),
                           ServedWith(history, stamp, read, end)), last)
    ensures var builtAt, totals := history[stamp].builtAt, TotalsOf(history[read].rows);
            Reaches(Alone(history, end + 1, None, Recomputed(stamp, builtAt, read, totals)), last)
  {
    var builtAt, totals := history[stamp].builtAt, TotalsOf(history[read].rows);
    var cached, served := Some(Entry(builtAt, read, totals)), ServedWith(history, stamp, read, end);
    RollupsReach(history, end + 1, |history|, cached, served, last);
    var s := Alone(history, end + 1, None, Recomputed(stamp, builtAt, read, totals));
    assert After(s, Advance(0)) == Alone(history, end + 1, cached, served);
    StepReaches(s, Advance(0), last);
  }

  lemma QueryReaches(history: seq<Generation>, stamp: nat, read: nat, end: nat, last: System)
    requires DistinctStamps(history) && stamp <= read <= end < |history|
    requires var builtAt, totals := history[stamp].builtAt, TotalsOf(history[read].rows);
             Reaches(Alone(history, end + 1, None, Recomputed(stamp, builtAt, read, totals)), last)
    ensures Reaches(Alone(history, read + 1, None, Missed(stamp, history[stamp].builtAt)), last)
  {
    var builtAt, totals := history[stamp].builtAt, TotalsOf(history[read].rows);
    RollupsReach(history, read + 1, end + 1, None, Recomputed(stamp, builtAt, read, totals), last);
    var s := Alone(history, read + 1, None, Missed(stamp, builtAt));
    assert After(s, Advance(0)) == Alone(history, read + 1, None, Recomputed(stamp, builtAt, read, totals));
    StepReaches(s, Advance(0), last);
  }

  lemma StampReaches(history: seq<Generation>, stamp: nat, read: nat, last: System)
    requires DistinctStamps(history) && stamp <= read < |history|
    requires Reaches(Alone(history, read + 1, None, Missed(stamp, history[stamp].builtAt)), last)
    ensures Reaches(Alone(history, stamp + 1, None, Begun), last)
  {
    var builtAt := history[stamp].builtAt;
    RollupsReach(history, stamp + 1, read + 1, None, Missed(stamp, builtAt), last);
    var begun := Alone(history, stamp + 1, None, Begun);
    var stamped := Alone(history, stamp + 1, None, Stamped(stamp, builtAt));
    assert After(stamped, Advance(0)) == Alone(history, stamp + 1, None, Missed(stamp, builtAt));
    StepReaches(stamped, Advance(0), last);
    assert After(begun, Advance(0)) == stamped;
    StepReaches(begun, Advance(0), last);
  }
}
