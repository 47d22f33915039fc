/** One backfill pass: fetch, decode, guard against silent loss, commit, repeat. */
module Backfill {
  import opened Assembler
  import opened AssembleOrder
  import opened Batches
  import opened Stores
  import opened Streams
  import opened Wrappers

  const MAX_UINT64: nat := 0xffff_ffff_ffff_ffff

  datatype RunResult = Complete | Interrupted | StreamFailed | DecodeFailed | CandidatesLost | InsertFailed

  /** Where a run stands after committing these batches. */
  function Reached(batches: seq<Batch>, from: nat): nat {
    if batches == [] then from else batches[|batches|-1].nextBlock
  }

  /** The batches cover [from, Reached) without gap or overlap, each asked for where the last one stopped. */
  ghost predicate Tiles(batches: seq<Batch>, from: nat, bound: nat, server: Server): (tiles: bool)
    ensures tiles ==> forall i :: 0 <= i < |batches| ==> WellEncoded(batches[i])
  {
    batches == [] ||
    var before, b := batches[..|batches|-1], batches[|batches|-1];
    var start := Reached(before, from);
    && Tiles(before, from, bound, server)
    && WellEncoded(b) && start < bound
    && start < b.nextBlock && Serves(server, start, b)
  }

  function CommitAll(db: Db, batches: seq<Batch>): Db
    requires forall i :: 0 <= i < |batches| ==> WellEncoded(batches[i])
  {
    if batches == [] then db
    else Committed(CommitAll(db, batches[..|batches|-1]), batches[|batches|-1])
  }

  /** log_index is unique within a block, whatever the server sends. */
  ghost predicate SendsDistinctLogs(server: Server) {
    forall n: nat, from: nat, b: Batch :: AnswersWith(server, n, from, b) && WellEncoded(b) ==>
      DistinctCandidates(LogsOf(b))
  }

  lemma TilesExtends(batches: seq<Batch>, b: Batch, from: nat, bound: nat, server: Server)
    requires Tiles(batches, from, bound, server)
    requires Reached(batches, from) < bound && Reached(batches, from) < b.nextBlock
    requires WellEncoded(b) && Serves(server, Reached(batches, from), b)
    ensures Tiles(batches + [b], from, bound, server)
    ensures Reached(batches + [b], from) == b.nextBlock
  {
    assert (batches + [b])[..|batches|] == batches;
  }

  lemma {:induction false} ReachedGrows(batches: seq<Batch>, from: nat, bound: nat, server: Server)
    requires Tiles(batches, from, bound, server)
    ensures from + |batches| <= Reached(batches, from)
  {
    if batches != [] {
      ReachedGrows(batches[..|batches|-1], from, bound, server);
    }
  }

  lemma CommitAllExtends(db: Db, batches: seq<Batch>, b: Batch)
    requires forall i :: 0 <= i < |batches| ==> WellEncoded(batches[i])
    requires WellEncoded(b)
    ensures CommitAll(db, batches + [b]) == Committed(CommitAll(db, batches), b)
  {
    assert (batches + [b])[..|batches|] == batches;
  }

  function Heights(batches: seq<Batch>): (h: seq<nat>)
    ensures |h| == |batches| && forall i :: 0 <= i < |h| ==> h[i] == HighestBlock(batches[i].blocks)
  {
    if batches == [] then [] else Heights(batches[..|batches|-1]) + [HighestBlock(batches[|batches|-1].blocks)]
  }

  /** The highest of the given blocks, or where the cursor was; block 0 counts for nothing. */
  predicate IsHighest(next: Option<nat>, start: Option<nat>, heights: seq<nat>) {
    && (next == start || (next.Some? && next.value in heights))
    && (start.Some? ==> next.Some? && next.value >= start.value)
    && forall h :: h in heights && h > 0 ==> next.Some? && next.value >= h
  }

  lemma HighestWithOneMore(next: Option<nat>, start: Option<nat>, heights: seq<nat>, h: nat)
    requires IsHighest(next, start, heights)
    ensures IsHighest(Advance(next, h), start, heights + [h])
  {
    AdvanceIsMaximum(next, h);
  }

  /** The cursor after any number of commits is the highest block of them all, or where it was. */
  lemma {:induction false} CursorIsHighest(db: Db, batches: seq<Batch>)
    requires forall i :: 0 <= i < |batches| ==> WellEncoded(batches[i])
    ensures IsHighest(CommitAll(db, batches).cursor, db.cursor, Heights(batches))
  {
    if batches != [] {
      var front, last := batches[..|batches|-1], batches[|batches|-1];
      CursorIsHighest(db, front);
      CommitAdvances(CommitAll(db, front), last);
      HighestWithOneMore(CommitAll(db, front).cursor, db.cursor, Heights(front), HighestBlock(last.blocks));
    }
  }

  lemma CommitAdvances(db: Db, b: Batch)
    requires WellEncoded(b)
    ensures Committed(db, b).cursor == Advance(db.cursor, HighestBlock(b.blocks))
  {
  }

  /** The guard speaks up just about a batch that yields no row although some candidate was dropped. */
  lemma LossMeansDropsOnly(b: Batch)
    requires WellEncoded(b)
    ensures AllCandidatesLost(ResultOf(b).stats) <==> ResultOf(b).payments == [] && ResultOf(b).stats.dropped > 0
  {
    StatsAddUp(ContextOf(b), LogsOf(b));
  }

  // ----- what a run comes to

  /** What a run is given: the server and all that may strike. */
  datatype Setup = Setup(
    server: Server,
    maxRetries: int,
    baseDelay: int,
    bound: nat,
    allowLoss: bool,
    interrupted: nat -> bool,
    faults: nat -> Fault)

  /** Where a run stands between two turns. */
  datatype Standing = Standing(db: Db, next: nat, posts: nat, waits: seq<int>)

  ghost predicate Lossless(b: Batch, allowLoss: bool) {
    WellEncoded(b) && (allowLoss || !LosesAll(b))
  }

  /** Whether the database fails the batch's transaction. */
  ghost predicate InsertStruck(b: Batch, fault: Fault)
    requires WellEncoded(b)
  {
    Strikes(fault, |ResultOf(b).payments|, |ResultOf(b).cancellations|, HighestBlock(b.blocks))
  }

  /** Whether the batch's transaction takes effect. */
  ghost predicate Takes(b: Batch, allowLoss: bool, fault: Fault) {
    Lossless(b, allowLoss) && (fault == AtCommit(true) || !InsertStruck(b, fault))
  }

  ghost function Verdict(b: Batch, allowLoss: bool, fault: Fault): Option<RunResult> {
    if !WellEncoded(b) then Some(DecodeFailed)
    else if !Lossless(b, allowLoss) then Some(CandidatesLost)
    else if InsertStruck(b, fault) then Some(InsertFailed)
    else None
  }

  /** Each failure just for its own cause, and no other. */
  ghost predicate IsVerdict(b: Batch, allowLoss: bool, fault: Fault, failure: Option<RunResult>) {
    && (failure == Some(DecodeFailed) <==> !WellEncoded(b))
    && (failure == Some(CandidatesLost) <==> WellEncoded(b) && !allowLoss && LosesAll(b))
    && (failure == Some(InsertFailed) <==> Lossless(b, allowLoss) && InsertStruck(b, fault))
    && (failure.Some? ==> failure.value in {DecodeFailed, CandidatesLost, InsertFailed})
  }

  /** How a turn ends: why the run stops there, if it does, and the batch that took effect, if any. */
  datatype TurnEnd = TurnEnd(stop: Option<RunResult>, applied: Option<Batch>, posts: nat, waits: seq<int>)

  ghost function TurnOf(o: Setup, s: Standing, fault: Fault): (e: TurnEnd)
    ensures e.applied.Some? ==> WellEncoded(e.applied.value) && s.next < o.bound && e.applied.value.nextBlock > s.next
    ensures e.stop.None? ==> e.applied.Some?
  {
    if s.next >= o.bound then TurnEnd(Some(Complete), None, s.posts, s.waits)
    else
      var q := Requested(o.server, s.next, s.posts, 0, o.baseDelay, s.waits, o.maxRetries);
      var got := Delivered(q.result, s.next);
      if got.None? then TurnEnd(Some(StreamFailed), None, q.posts, q.waits)
      else TurnEnd(Verdict(got.value, o.allowLoss, fault),
                   if Takes(got.value, o.allowLoss, fault) then got else None, q.posts, q.waits)
  }

  lemma TurnAsks(o: Setup, s: Standing, fault: Fault, posts: nat, waits: seq<int>, got: Option<Batch>)
    requires s.next < o.bound
    requires var q := Requested(o.server, s.next, s.posts, 0, o.baseDelay, s.waits, o.maxRetries);
             posts == q.posts && waits == q.waits && got == Delivered(q.result, s.next)
    ensures got.None? ==> TurnOf(o, s, fault) == TurnEnd(Some(StreamFailed), None, posts, waits)
    ensures got.Some? ==>
              TurnOf(o, s, fault) == TurnEnd(Verdict(got.value, o.allowLoss, fault),
                                             if Takes(got.value, o.allowLoss, fault) then got else None, posts, waits)
  {
  }

  lemma TurnJudges(o: Setup, s: Standing, fault: Fault, posts: nat, waits: seq<int>, b: Batch, stop: Option<RunResult>)
    requires s.next < o.bound
    requires var q := Requested(o.server, s.next, s.posts, 0, o.baseDelay, s.waits, o.maxRetries);
             posts == q.posts && waits == q.waits && Delivered(q.result, s.next) == Some(b)
    requires IsVerdict(b, o.allowLoss, fault, stop)
    ensures TurnOf(o, s, fault)
         == TurnEnd(stop, if Takes(b, o.allowLoss, fault) then Some(b) else None, posts, waits)
  {
    TurnAsks(o, s, fault, posts, waits, Some(b));
  }

  /** A batch that took effect was served for the block the run stood at, and is good. */
  lemma TurnServes(o: Setup, s: Standing, fault: Fault, b: Batch)
    requires TurnOf(o, s, fault).applied == Some(b)
    ensures Serves(o.server, s.next, b) && Lossless(b, o.allowLoss)
  {
    DeliveredIsServed(o, s, b);
  }

  lemma DeliveredIsServed(o: Setup, s: Standing, b: Batch)
    requires var q := Requested(o.server, s.next, s.posts, 0, o.baseDelay, s.waits, o.maxRetries);
             Delivered(q.result, s.next) == Some(b)
    ensures Serves(o.server, s.next, b) && b.nextBlock > s.next
  {
    var q := Requested(o.server, s.next, s.posts, 0, o.baseDelay, s.waits, o.maxRetries);
    RequestIsBounded(o.server, s.next, s.posts, 0, o.baseDelay, s.waits, o.maxRetries);
    assert AnswersWith(o.server, q.posts - 1, s.next, b);
  }

  function After(s: Standing, e: TurnEnd): Standing
    requires e.applied.Some? ==> WellEncoded(e.applied.value)
  {
    if e.applied.None? then s.(posts := e.posts, waits := e.waits)
    else Standing(Committed(s.db, e.applied.value), e.applied.value.nextBlock, e.posts, e.waits)
  }

  /** How a run ends, where it then stands, and how many turns it had finished. */
  datatype Ending = Ending(result: RunResult, at: Standing, turns: nat)

  /** The run from here on, with so many turns behind it. */
  ghost function Course(o: Setup, s: Standing, turns: nat): Ending
    decreases if s.next < o.bound then o.bound - s.next else 0
  {
    if o.interrupted(turns) then Ending(Interrupted, s, turns)
    else
      var e := TurnOf(o, s, o.faults(turns));
      if e.stop.Some? then Ending(e.stop.value, After(s, e), turns) else Course(o, After(s, e), turns + 1)
  }

  /** The run from here on ends like this. */
  ghost predicate Leads(o: Setup, s: Standing, turns: nat, e: Ending) {
    Course(o, s, turns) == e
  }

  lemma TurnLeadsOn(o: Setup, s: Standing, turns: nat, t: Standing, e: Ending)
    requires Leads(o, s, turns, e) && !o.interrupted(turns)
    requires TurnOf(o, s, o.faults(turns)).stop.None? && t == After(s, TurnOf(o, s, o.faults(turns)))
    ensures Leads(o, t, turns + 1, e)
  {
  }

  lemma TurnLeadsOut(o: Setup, s: Standing, turns: nat, e: Ending)
    requires Leads(o, s, turns, e)
    ensures o.interrupted(turns) ==> e == Ending(Interrupted, s, turns)
    ensures !o.interrupted(turns) ==>
              var t := TurnOf(o, s, o.faults(turns));
              t.stop.Some? ==> e == Ending(t.stop.value, After(s, t), turns)
  {
  }

  /** Some request for blocks from here on brings no batch that moves the cursor. */
  ghost predicate MayStall(o: Setup, from: nat) {
    exists n: nat, waits :: Stalls(o, from, n, waits)
  }

  ghost predicate Stalls(o: Setup, from: nat, n: nat, waits: seq<int>) {
    Delivered(Requested(o.server, from, n, 0, o.baseDelay, waits, o.maxRetries).result, from).None?
  }

  /** Some request for blocks from here on brings such a batch, and one that is not good. */
  ghost predicate MaySpoil(o: Setup, from: nat, bad: RunResult) {
    exists b :: Serves(o.server, from, b) && b.nextBlock > from && Verdict(b, o.allowLoss, NoFault) == Some(bad)
  }

  /** Each way to end has its cause, in the turn it ended in and at the block it stood at. */
  ghost predicate HasCause(o: Setup, e: Ending) {
    && (e.result.Interrupted? <==> o.interrupted(e.turns))
    && match e.result
       case Complete => e.at.next >= o.bound
       case Interrupted => true
       case StreamFailed => e.at.next < o.bound && MayStall(o, e.at.next)
       case InsertFailed => o.faults(e.turns) != NoFault
       case _ => e.at.next < o.bound && MaySpoil(o, e.at.next, e.result)
  }

  lemma {:induction false} EndsForACause(o: Setup, s: Standing, turns: nat)
    ensures var e := Course(o, s, turns);
            HasCause(o, e) && e.turns >= turns && e.at.next >= s.next
    decreases if s.next < o.bound then o.bound - s.next else 0
  {
    if !o.interrupted(turns) {
      var e := TurnOf(o, s, o.faults(turns));
      if e.stop.Some? {
        TurnHasCause(o, s, turns);
      } else {
        EndsForACause(o, After(s, e), turns + 1);
      }
    }
  }

  lemma TurnHasCause(o: Setup, s: Standing, turns: nat)
    requires !o.interrupted(turns) && TurnOf(o, s, o.faults(turns)).stop.Some?
    ensures var e := TurnOf(o, s, o.faults(turns));
            HasCause(o, Ending(e.stop.value, After(s, e), turns))
  {
    if s.next < o.bound {
      var q := Requested(o.server, s.next, s.posts, 0, o.baseDelay, s.waits, o.maxRetries);
      var got := Delivered(q.result, s.next);
      if got.None? {
        assert Stalls(o, s.next, s.posts, s.waits);
      } else {
        DeliveredIsServed(o, s, got.value);
      }
    }
  }

  /** From each block of the range on, a batch moves the cursor and is good before the retries run out. */
  ghost predicate AlwaysAnswers(o: Setup, from: nat) {
    forall start: nat, n: nat :: from <= start < o.bound ==> GoodAnswer(o, start, n)
  }

  ghost predicate GoodAnswer(o: Setup, from: nat, n: nat) {
    exists b :: AnsweredBy(o.server, from, n, n + Retries(o.maxRetries), Json(b))
                && b.nextBlock > from && Lossless(b, o.allowLoss)
  }

  /** A run that nothing interrupts and no fault strikes completes, if every answer comes in time and is good. */
  lemma {:induction false} AnsweredRunCompletes(o: Setup, s: Standing, turns: nat)
    requires AlwaysAnswers(o, s.next)
    requires forall k :: k >= turns ==> !o.interrupted(k) && o.faults(k) == NoFault
    ensures Course(o, s, turns).result == Complete
    decreases if s.next < o.bound then o.bound - s.next else 0
  {
    if s.next < o.bound {
      GoodTurn(o, s);
      AnsweredRunCompletes(o, After(s, TurnOf(o, s, NoFault)), turns + 1);
    }
  }

  lemma GoodTurn(o: Setup, s: Standing)
    requires s.next < o.bound && GoodAnswer(o, s.next, s.posts)
    ensures TurnOf(o, s, NoFault).stop.None?
  {
    var b :| AnsweredBy(o.server, s.next, s.posts, s.posts + Retries(o.maxRetries), Json(b))
             && b.nextBlock > s.next && Lossless(b, o.allowLoss);
    RequestIsAnswered(o.server, s.next, s.posts, 0, o.baseDelay, s.waits, o.maxRetries, Json(b));
    var q := Requested(o.server, s.next, s.posts, 0, o.baseDelay, s.waits, o.maxRetries);
    TurnAsks(o, s, NoFault, q.posts, q.waits, Some(b));
    GoodVerdict(b, o.allowLoss);
  }

  lemma GoodVerdict(b: Batch, allowLoss: bool)
    requires Lossless(b, allowLoss)
    ensures Verdict(b, allowLoss, NoFault).None?
  {
  }

  class Backfiller {
    const fetcher: HttpFetcher
    const store: Store
    const allowCandidateLoss: bool

    constructor (fetcher: HttpFetcher, store: Store, allowCandidateLoss: bool)
      ensures this.fetcher == fetcher && this.store == store
      ensures this.allowCandidateLoss == allowCandidateLoss
    {
      this.fetcher, this.store, this.allowCandidateLoss := fetcher, store, allowCandidateLoss;
    }

    /** Decode, guard, commit.  applied tells whether the batch's transaction took effect. */
    method Process(batch: Batch, fault: Fault) returns (failure: Option<RunResult>, ghost applied: bool)
      requires WellEncoded(batch) ==> DistinctCandidates(LogsOf(batch))
      modifies store
      ensures IsVerdict(batch, allowCandidateLoss, fault, failure)
      ensures applied <==> Takes(batch, allowCandidateLoss, fault)
      ensures applied ==> store.Contents() == Committed(old(store.Contents()), batch)
      ensures !applied ==> store.Contents() == old(store.Contents())
    {
      applied := false;
      var decoded := DecodeBatch(batch);
      if decoded.None? {
        return Some(DecodeFailed), applied;
      }
      var maxBlock := MaxBlock(batch);
      if AllCandidatesLost(decoded.value.stats) {
        if !allowCandidateLoss {
          return Some(CandidatesLost), applied;
        }
      }
      var ok := store.InsertBatch(decoded.value.payments, decoded.value.cancellations, maxBlock, fault);
      applied := ok || fault == AtCommit(true);
      failure := if ok then None else Some(InsertFailed);
    }

    /** What a run of this one is given. */
    ghost predicate Given(o: Setup) {
      o.maxRetries == fetcher.maxRetries && o.baseDelay == fetcher.baseDelay && o.allowLoss == allowCandidateLoss
    }

    ghost function SetupOf(bound: nat, server: Server, interrupted: nat -> bool, faults: nat -> Fault): (o: Setup)
      ensures Given(o)
    {
      Setup(server, fetcher.maxRetries, fetcher.baseDelay, bound, allowCandidateLoss, interrupted, faults)
    }

    /** Where a run with this stream stands. */
    ghost function Stands(stream: HttpStream): Standing
      reads this, stream, store, fetcher
    {
      Standing(store.Contents(), stream.next, fetcher.posts, fetcher.waits)
    }

    /** The turn is over: its posts are issued, and what it applied is in the tables. */
    ghost predicate StandsAfter(stream: HttpStream, s: Standing, e: TurnEnd)
      requires e.applied.Some? ==> WellEncoded(e.applied.value)
      reads this, stream, store, fetcher
    {
      && fetcher.posts == e.posts && fetcher.waits == e.waits && store.Contents() == After(s, e).db
      && (e.applied.Some? ==>
            stream.next == e.applied.value.nextBlock && stream.done == (stream.next >= stream.bound))
    }

    /** One turn of the loop.  applied is the batch whose transaction took effect, if one did. */
    method Turn(stream: HttpStream, server: Server, fault: Fault, ghost o: Setup)
      returns (stop: Option<RunResult>, ghost applied: Option<Batch>)
      requires stream.fetcher == fetcher && stream.done == (stream.next >= stream.bound)
      requires SendsDistinctLogs(server) && fetcher.WithinBudget()
      requires Given(o) && o.server == server && o.bound == stream.bound
      modifies stream, store, fetcher
      ensures fetcher.WithinBudget()
      ensures fetcher.requests == old(fetcher.requests) + if old(stream.done) then 0 else 1
      ensures var e := TurnOf(o, old(Stands(stream)), fault);
              stop == e.stop && applied == e.applied && StandsAfter(stream, old(Stands(stream)), e)
    {
      applied := None;
      ghost var s := Stands(stream);
      var got := stream.Next(server);
      match got
      case End =>
        stop := Some(Complete);
      case Failed =>
        stop := Some(StreamFailed);
        TurnAsks(o, s, fault, fetcher.posts, fetcher.waits, None);
      case Got(batch) =>
        ghost var took: bool;
        stop, took := Process(batch, fault);
        applied := if took then Some(batch) else None;
        TurnJudges(o, s, fault, fetcher.posts, fetcher.waits, batch, stop);
    }

    /**
     The stream stands where the committed batches end, the tables hold exactly those, and
     goal is how the run will end.
     */
    ghost predicate Along(stream: HttpStream, o: Setup, begun: Db, from: nat, committed: seq<Batch>, goal: Ending)
      reads this, stream, store, fetcher
    {
      && fetcher.WithinBudget()
      && stream.fetcher == fetcher && stream.bound == o.bound
      && stream.next == Reached(committed, from) && stream.done == (stream.next >= o.bound)
      && CommittedExactly(begun, store.Contents(), committed, from, o)
      && Leads(o, Stands(stream), |committed|, goal)
    }

    /**
     The tables are the old ones with exactly the committed batches, the run is where its
     course ends, and it ended for a cause.
     */
    ghost predicate Ended(r: RunResult, o: Setup, begun: Db, from: nat, committed: seq<Batch>, goal: Ending)
      reads this, store, fetcher
    {
      && fetcher.WithinBudget()
      && CommittedExactly(begun, store.Contents(), committed, from, o)
      && goal.result == r
      && goal.at == Standing(store.Contents(), Reached(committed, from), fetcher.posts, fetcher.waits)
      && HasCause(o, goal)
    }

    lemma EndedRanItsCourse(r: RunResult, o: Setup, begun: Db, from: nat, committed: seq<Batch>)
      requires Ended(r, o, begun, from, committed, Course(o, Outset(begun, from), 0))
      ensures RanItsCourse(o, begun, from, committed, r, store.Contents(), fetcher.posts)
    {
    }

    /** A turn, with what it means for the batches committed so far. */
    method Advance(stream: HttpStream, server: Server, fault: Fault, ghost o: Setup, ghost begun: Db, ghost from: nat,
                   ghost committed: seq<Batch>, ghost goal: Ending)
      returns (stop: Option<RunResult>, ghost more: seq<Batch>)
      requires Along(stream, o, begun, from, committed, goal) && HasCause(o, goal)
      requires SendsDistinctLogs(server) && Given(o) && o.server == server
      requires !o.interrupted(|committed|) && fault == o.faults(|committed|)
      modifies stream, store, fetcher
      ensures fetcher.requests == old(fetcher.requests) + if old(stream.done) then 0 else 1
      ensures stop.None? ==> Along(stream, o, begun, from, more, goal)
      ensures stop.None? ==> |more| == |committed| + 1 && !old(stream.done) && stream.next > old(stream.next)
      ensures stop.Some? ==> Ended(stop.value, o, begun, from, more, goal)
    {
      ghost var s := Stands(stream);
      ghost var applied;
      stop, applied := Turn(stream, server, fault, o);
      if applied.Some? {
        TurnServes(o, s, fault, applied.value);
        OneMoreCommitted(begun, s.db, committed, from, o, applied.value);
        more := committed + [applied.value];
      } else {
        more := committed;
      }
      TurnLeadsOut(o, s, |committed|, goal);
      if stop.None? {
        TurnLeadsOn(o, s, |committed|, Stands(stream), goal);
      }
    }

    /**
     interrupted(k) is a shutdown request seen before the k-th fetch, faults(k) what the
     database does to the k-th insert.  committed lists the batches whose transaction took
     effect; however the run ends, the tables are the old ones with exactly those committed,
     and it ends as its course does, for a cause.
     */
    method Run(fromBlock: nat, toBlock: nat, server: Server, interrupted: nat -> bool, faults: nat -> Fault)
      returns (r: RunResult, ghost committed: seq<Batch>)
      requires fromBlock <= toBlock < MAX_UINT64
      requires SendsDistinctLogs(server) && fetcher.WithinBudget()
      modifies store, fetcher
      ensures var o := SetupOf(toBlock + 1, server, interrupted, faults);
              var start := Standing(old(store.Contents()), fromBlock, old(fetcher.posts), old(fetcher.waits));
              Ended(r, o, start.db, fromBlock, committed, Course(o, start, 0))
      ensures fetcher.requests <= old(fetcher.requests) + toBlock - fromBlock + 1
    {
      committed := [];
      ghost var o := SetupOf(toBlock + 1, server, interrupted, faults);
      ghost var start := Standing(store.Contents(), fromBlock, fetcher.posts, fetcher.waits);
      ghost var goal := Course(o, start, 0);
      EndsForACause(o, start, 0);
      var stream := new HttpStream(fetcher, fromBlock, toBlock + 1);
      assert Leads(o, Stands(stream), 0, goal);
      var calls: nat := 0;
      while true
        invariant fresh(stream)
        invariant calls == |committed|
        invariant Along(stream, o, start.db, fromBlock, committed, goal)
        invariant fetcher.requests == old(fetcher.requests) + calls
        decreases if stream.next <= toBlock then toBlock + 1 - stream.next else 0
      {
        CallsFit(start.db, store.Contents(), committed, fromBlock, o);
        TurnLeadsOut(o, Stands(stream), calls, goal);
        if interrupted(calls) {
          return Interrupted, committed;
        }
        var stop;
        stop, committed := Advance(stream, server, faults(calls), o, start.db, fromBlock, committed, goal);
        if stop.Some? {
          return stop.value, committed;
        }
        calls := calls + 1;
      }
    }
  }

  predicate CostsAtMost(posts: nat, blocks: nat, perBlock: nat) {
    posts <= blocks * perBlock
  }

  lemma PostsFit(posts: nat, requests: nat, blocks: nat, perRequest: nat)
    requires posts <= Budget(requests, perRequest) && requests <= blocks
    ensures CostsAtMost(posts, blocks, perRequest)
  {
    BudgetGrows(requests, blocks, perRequest);
    BudgetIsProduct(blocks, perRequest);
  }

  /** The run ended as its course does, for a cause, with exactly the committed batches added. */
  ghost predicate RanItsCourse(o: Setup, begun: Db, from: nat, committed: seq<Batch>, r: RunResult, db: Db,
                               posts: nat)
  {
    var e := Course(o, Outset(begun, from), 0);
    && r == e.result && HasCause(o, e)
    && db == e.at.db && posts == e.at.posts && Reached(committed, from) == e.at.next
    && CommittedExactly(begun, db, committed, from, o)
  }

  /** Where a run with a fetcher of its own begins. */
  function Outset(db: Db, from: nat): Standing {
    Standing(db, from, 0, [])
  }

  /**
   One invocation, with a fetcher of its own.  None is a refused range.  Otherwise the run
   ends as its course does; however often the server fails, no block of the range costs
   more posts than one try and its retries; and after a complete run the cursor is
   reported, the highest block of all it committed or where it was, 0 if it cannot be read.
   */
  method RunBackfill(store: Store, maxRetries: int, baseDelay: int, allowCandidateLoss: bool, fromBlock: nat,
                     toBlock: nat, server: Server, interrupted: nat -> bool, faults: nat -> Fault, cursorFails: bool)
    returns (r: Option<RunResult>, posts: nat, cursorNow: Option<nat>, ghost committed: seq<Batch>)
    requires toBlock < MAX_UINT64 && SendsDistinctLogs(server)
    modifies store
    ensures r.None? <==> fromBlock == 0 || toBlock == 0 || toBlock < fromBlock
    ensures r.None? ==> posts == 0 && committed == [] && store.Contents() == old(store.Contents())
    ensures r.Some? ==>
              var o := Setup(server, maxRetries, baseDelay, toBlock + 1, allowCandidateLoss, interrupted, faults);
              && RanItsCourse(o, old(store.Contents()), fromBlock, committed, r.value, store.Contents(), posts)
              && posts <= (toBlock - fromBlock + 1) * (Retries(maxRetries) + 1)
    ensures cursorNow.Some? <==> r == Some(Complete)
    ensures cursorNow.Some? ==>
              && cursorNow.value == (if cursorFails then 0 else LastBlock(store.Contents().cursor))
              && IsHighest(store.Contents().cursor, old(store.Contents()).cursor, Heights(committed))
  {
    posts, cursorNow, committed := 0, None, [];
    if fromBlock == 0 || toBlock == 0 || toBlock < fromBlock {
      return None, posts, cursorNow, committed;
    }
    var result;
    result, posts, committed :=
      RunOnce(store, maxRetries, baseDelay, allowCandidateLoss, fromBlock, toBlock, server, interrupted, faults);
    if result != Complete {
      return Some(result), posts, None, committed;
    }
    CursorIsHighest(old(store.Contents()), committed);
    var last := store.GetCursor(cursorFails);
    return Some(result), posts, Some(if last.None? then 0 else last.value), committed;
  }

  method RunOnce(store: Store, maxRetries: int, baseDelay: int, allowCandidateLoss: bool, fromBlock: nat,
                 toBlock: nat, server: Server, interrupted: nat -> bool, faults: nat -> Fault)
    returns (r: RunResult, posts: nat, ghost committed: seq<Batch>)
    requires fromBlock <= toBlock < MAX_UINT64 && SendsDistinctLogs(server)
    modifies store
    ensures var o := Setup(server, maxRetries, baseDelay, toBlock + 1, allowCandidateLoss, interrupted, faults);
            RanItsCourse(o, old(store.Contents()), fromBlock, committed, r, store.Contents(), posts)
    ensures CostsAtMost(posts, toBlock - fromBlock + 1, Retries(maxRetries) + 1)
  {
    var fetcher := new HttpFetcher(maxRetries, baseDelay);
    var backfiller := new Backfiller(fetcher, store, allowCandidateLoss);
    ghost var begun := store.Contents();
    r, committed := backfiller.Run(fromBlock, toBlock, server, interrupted, faults);
    posts := fetcher.posts;
    backfiller.EndedRanItsCourse(r, Setup(server, maxRetries, baseDelay, toBlock + 1, allowCandidateLoss, interrupted,
                                          faults), begun, fromBlock, committed);
    PostsFit(posts, fetcher.requests, toBlock - fromBlock + 1, Retries(maxRetries) + 1);
  }

  ghost predicate LosesAll(b: Batch) {
    WellEncoded(b) && AllCandidatesLost(ResultOf(b).stats)
  }

  ghost predicate NoneLost(batches: seq<Batch>) {
    forall i :: 0 <= i < |batches| ==> !LosesAll(batches[i])
  }

  /** The tables are the ones the run began with, plus exactly the batches committed so far. */
  ghost predicate CommittedExactly(begun: Db, db: Db, batches: seq<Batch>, from: nat, o: Setup) {
    && Tiles(batches, from, o.bound, o.server)
    && db == CommitAll(begun, batches)
    && (!o.allowLoss ==> NoneLost(batches))
  }

  lemma OneMoreCommitted(begun: Db, db: Db, batches: seq<Batch>, from: nat, o: Setup, b: Batch)
    requires CommittedExactly(begun, db, batches, from, o)
    requires Reached(batches, from) < o.bound && Reached(batches, from) < b.nextBlock
    requires Serves(o.server, Reached(batches, from), b) && Lossless(b, o.allowLoss)
    ensures CommittedExactly(begun, Committed(db, b), batches + [b], from, o)
    ensures Reached(batches + [b], from) == b.nextBlock
  {
    TilesExtends(batches, b, from, o.bound, o.server);
    CommitAllExtends(begun, batches, b);
    if !o.allowLoss {
      NoneLostExtends(batches, b);
    }
  }

  lemma NoneLostExtends(batches: seq<Batch>, b: Batch)
    requires NoneLost(batches) && !LosesAll(b)
    ensures NoneLost(batches + [b])
  {
  }

  lemma CallsFit(begun: Db, db: Db, batches: seq<Batch>, from: nat, o: Setup)
    requires CommittedExactly(begun, db, batches, from, o) && from < o.bound
    ensures |batches| <= o.bound - from && (|batches| < o.bound - from || Reached(batches, from) >= o.bound)
  {
    ReachedGrows(batches, from, o.bound, o.server);
    LastTileStartsInside(batches, from, o.bound, o.server);
  }

  lemma LastTileStartsInside(batches: seq<Batch>, from: nat, bound: nat, server: Server)
    requires Tiles(batches, from, bound, server) && from < bound
    ensures from + |batches| <= bound
  {
    if batches != [] {
      ReachedGrows(batches[..|batches|-1], from, bound, server);
    }
  }
}
