/**
 Whatever the schedule of halts, crashes, overlaps, parallel runs and batch cuts,
 the stored rows converge to what one assembly of the whole chain would give.
 */
module Convergence {
  import opened Assembler
  import opened AssembleMoney
  import opened AssembleOrder
  import opened Backfill
  import opened Batches
  import opened Cancellations
  import opened Chain
  import opened Positions
  import opened Stores
  import opened Streams
  import opened Wrappers

  /** The chain as the log service would report it: everything matched, in some order. */
  datatype World = World(logs: seq<Log>, txs: map<Word, Transaction>, blocks: map<nat, Block>)

  ghost predicate ValidWorld(w: World) {
    DistinctPositions(w.logs, LogPosition) && OneBlockEach(w.logs)
  }

  function WorldContext(w: World): Context {
    Context(w.txs, ReceiptsOf(w.logs), w.blocks)
  }

  function InRange(lo: nat, hi: nat): Log -> bool {
    (l: Log) => lo <= l.blockNumber < hi
  }

  function Slice(w: World, lo: nat, hi: nat): seq<Log> {
    Filter(w.logs, InRange(lo, hi))
  }

  /** Assembling blocks [lo, hi) at once. */
  function PaymentsOf(w: World, lo: nat, hi: nat): seq<Payment> {
    Assembled(WorldContext(w), Slice(w, lo, hi)).payments
  }

  function CancellationsOf(w: World, lo: nat, hi: nat): seq<Cancellation> {
    Extracted(WorldContext(w), Slice(w, lo, hi))
  }

  /** The first block a batch says nothing about. */
  function End(b: Batch, bound: nat): nat {
    if b.nextBlock < bound then b.nextBlock else bound
  }

  /**
   An honest answer to a query for [from, bound): all matched data of the blocks up to
   where it says it stopped, and of no other block; a block, so a transaction, is never cut.
   */
  ghost predicate Faithful(w: World, b: Batch, from: nat, bound: nat) {
    var end := End(b, bound);
    && WellEncoded(b)
    && multiset(LogsOf(b)) == multiset(Slice(w, from, end))
    && (forall l :: l in LogsOf(b) ==> TransactionSent(w, b, l.txHash) && BlockSent(w, b, l.blockNumber))
    && forall i :: 0 <= i < |b.blocks| ==> from <= b.blocks[i].number < end
  }

  /** The batch lists the transaction if there is one, and only as it is. */
  ghost predicate TransactionSent(w: World, b: Batch, hash: Word)
    requires WellEncoded(b)
  {
    && (hash in w.txs ==> exists i :: 0 <= i < |b.transactions| && b.transactions[i].value.hash == hash)
    && forall i :: 0 <= i < |b.transactions| && b.transactions[i].value.hash == hash ==>
         hash in w.txs && b.transactions[i].value.body == w.txs[hash]
  }

  ghost predicate BlockSent(w: World, b: Batch, number: nat)
    requires WellEncoded(b)
  {
    && (number in w.blocks ==> exists i :: 0 <= i < |b.blocks| && b.blocks[i].number == number)
    && forall i :: 0 <= i < |b.blocks| && b.blocks[i].number == number ==>
         number in w.blocks && b.blocks[i].header.value == w.blocks[number]
  }

  lemma SentIsEntered(w: World, b: Batch, l: Log)
    requires WellEncoded(b) && TransactionSent(w, b, l.txHash) && BlockSent(w, b, l.blockNumber)
    ensures l.txHash in ContextOf(b).txs <==> l.txHash in w.txs
    ensures l.txHash in w.txs ==> ContextOf(b).txs[l.txHash] == w.txs[l.txHash]
    ensures l.blockNumber in ContextOf(b).blocks <==> l.blockNumber in w.blocks
    ensures l.blockNumber in w.blocks ==> ContextOf(b).blocks[l.blockNumber] == w.blocks[l.blockNumber]
  {
    TransactionsAreLast(b.transactions, l.txHash);
    BlocksAreLast(b.blocks, l.blockNumber);
  }

  // ----- such an answer can be given

  function Sent(logs: seq<Log>): (r: seq<Option<Log>>)
    ensures |r| == |logs| && forall i :: 0 <= i < |r| ==> r[i] == Some(logs[i])
  {
    seq(|logs|, i requires 0 <= i < |logs| => Some(logs[i]))
  }

  /** The transactions of these logs, as the world knows them. */
  function SentTransactions(w: World, logs: seq<Log>): (r: seq<Option<WireTransaction>>)
    ensures forall i :: 0 <= i < |r| ==> r[i].Some? && TrueTransaction(w, r[i].value)
  {
    if logs == [] then []
    else (if logs[0].txHash in w.txs then [Some(WireTransaction(logs[0].txHash, w.txs[logs[0].txHash]))] else [])
         + SentTransactions(w, logs[1..])
  }

  predicate TrueTransaction(w: World, t: WireTransaction) {
    t.hash in w.txs && t.body == w.txs[t.hash]
  }

  lemma {:induction false} EachTransactionSent(w: World, logs: seq<Log>, l: Log)
    requires l in logs && l.txHash in w.txs
    ensures Some(WireTransaction(l.txHash, w.txs[l.txHash])) in SentTransactions(w, logs)
  {
    if logs[0] != l {
      EachTransactionSent(w, logs[1..], l);
    }
  }

  function SentBlocks(w: World, logs: seq<Log>): (r: seq<WireBlock>)
    ensures forall b :: b in r ==> TrueBlock(w, b)
  {
    if logs == [] then []
    else (if logs[0].blockNumber in w.blocks
          then [WireBlock(logs[0].blockNumber, Some(w.blocks[logs[0].blockNumber]))] else [])
         + SentBlocks(w, logs[1..])
  }

  predicate TrueBlock(w: World, b: WireBlock) {
    b.number in w.blocks && b.header == Some(w.blocks[b.number])
  }

  lemma {:induction false} EachBlockSent(w: World, logs: seq<Log>, l: Log)
    requires l in logs && l.blockNumber in w.blocks
    ensures WireBlock(l.blockNumber, Some(w.blocks[l.blockNumber])) in SentBlocks(w, logs)
  {
    if logs[0] != l {
      EachBlockSent(w, logs[1..], l);
    }
  }

  lemma {:induction false} BlocksAreOfLogs(w: World, logs: seq<Log>, b: WireBlock)
    requires b in SentBlocks(w, logs)
    ensures exists l :: l in logs && l.blockNumber == b.number
  {
    if b in SentBlocks(w, logs[1..]) {
      BlocksAreOfLogs(w, logs[1..], b);
    } else {
      assert logs[0] in logs && logs[0].blockNumber == b.number;
    }
  }

  /** A batch holding exactly the chain's logs of [from, to), their transactions and their blocks. */
  function HonestBatch(w: World, from: nat, to: nat): Batch {
    var logs := Slice(w, from, to);
    Batch(Sent(logs), SentTransactions(w, logs), SentBlocks(w, logs), to)
  }

  lemma HonestIsFaithful(w: World, from: nat, to: nat, bound: nat)
    requires to <= bound
    ensures Faithful(w, HonestBatch(w, from, to), from, bound)
  {
    var b, logs := HonestBatch(w, from, to), Slice(w, from, to);
    HonestIsEncoded(w, from, to);
    forall l | l in logs ensures TransactionSent(w, b, l.txHash) && BlockSent(w, b, l.blockNumber) {
      HonestSends(w, from, to, l);
    }
    forall i | 0 <= i < |b.blocks| ensures from <= b.blocks[i].number < to {
      BlocksAreOfLogs(w, logs, b.blocks[i]);
    }
  }

  lemma HonestIsEncoded(w: World, from: nat, to: nat)
    ensures var b := HonestBatch(w, from, to);
            WellEncoded(b) && LogsOf(b) == Slice(w, from, to)
  {
    var b := HonestBatch(w, from, to);
    forall i | 0 <= i < |b.blocks| ensures b.blocks[i].header.Some? {
      assert TrueBlock(w, b.blocks[i]);
    }
  }

  lemma HonestSends(w: World, from: nat, to: nat, l: Log)
    requires l in Slice(w, from, to) && WellEncoded(HonestBatch(w, from, to))
    ensures var b := HonestBatch(w, from, to);
            TransactionSent(w, b, l.txHash) && BlockSent(w, b, l.blockNumber)
  {
    var b, logs := HonestBatch(w, from, to), Slice(w, from, to);
    forall i | 0 <= i < |b.transactions| ensures TrueTransaction(w, b.transactions[i].value) {
    }
    forall i | 0 <= i < |b.blocks| ensures TrueBlock(w, b.blocks[i]) {
    }
    if l.txHash in w.txs {
      EachTransactionSent(w, logs, l);
    }
    if l.blockNumber in w.blocks {
      EachBlockSent(w, logs, l);
    }
  }

  // ----- receipts of a slice are the world's receipts

  lemma {:induction false} ReceiptsAreFilters(logs: seq<Log>, tx: Word)
    ensures tx in ReceiptsOf(logs) <==> Filter(logs, HasHash(tx)) != []
    ensures tx in ReceiptsOf(logs) ==> ReceiptsOf(logs)[tx] == Filter(logs, HasHash(tx))
  {
    if logs != [] {
      var front, l := logs[..|logs|-1], logs[|logs|-1];
      assert logs == front + [l];
      ReceiptsAreFilters(front, tx);
      FilterPush(front, l, HasHash(tx));
      ReceiptGrows(ReceiptsOf(front), l, tx);
    }
  }

  lemma ReceiptGrows(receipts: map<Word, seq<Log>>, l: Log, tx: Word)
    ensures var more := AddToReceipt(receipts, l);
            && (tx in more <==> tx in receipts || l.txHash == tx)
            && (tx in more ==>
                  more[tx] == (if tx in receipts then receipts[tx] else []) + if l.txHash == tx then [l] else [])
  {
  }

  lemma {:induction false} FilterSubset<T(!new)>(s: seq<T>, keep: T -> bool, also: T -> bool)
    requires forall x :: x in s && keep(x) ==> also(x)
    ensures Filter(Filter(s, also), keep) == Filter(s, keep)
  {
    if s != [] {
      var rest := Filter(s[1..], also);
      FilterSubset(s[1..], keep, also);
      if also(s[0]) {
        assert Filter(s, also)[1..] == rest;
      } else {
        assert Filter(s, also) == rest;
      }
    }
  }

  lemma SliceHasWholeReceipts(w: World, lo: nat, hi: nat, l: Log)
    requires ValidWorld(w) && l in Slice(w, lo, hi)
    ensures Filter(Slice(w, lo, hi), HasHash(l.txHash)) == Filter(w.logs, HasHash(l.txHash))
  {
    FilterSubset(w.logs, HasHash(l.txHash), InRange(lo, hi));
  }

  lemma WorldReceiptsDistinct(w: World, tx: Word)
    requires ValidWorld(w) && tx in ReceiptsOf(w.logs)
    ensures DistinctLogIndexes(ReceiptsOf(w.logs)[tx])
  {
    ReceiptsAreFilters(w.logs, tx);
    forall l, m | l in ReceiptsOf(w.logs)[tx] && m in ReceiptsOf(w.logs)[tx] && l.logIndex == m.logIndex
      ensures l == m
    {
      SamePositionSameLog(w, l, m);
    }
  }

  lemma SamePositionSameLog(w: World, l: Log, m: Log)
    requires ValidWorld(w) && l in w.logs && m in w.logs && l.txHash == m.txHash && l.logIndex == m.logIndex
    ensures l == m
  {
    var i :| 0 <= i < |w.logs| && w.logs[i] == l;
    var j :| 0 <= j < |w.logs| && w.logs[j] == m;
    assert LogPosition(w.logs[i]) == LogPosition(w.logs[j]);
  }

  lemma ContextsAgree(w: World, b: Batch, from: nat, bound: nat)
    requires ValidWorld(w) && Faithful(w, b, from, bound)
    ensures Agree(WorldContext(w), ContextOf(b), LogsOf(b))
  {
    var end := End(b, bound);
    var logs := LogsOf(b);
    forall l | l in logs ensures AgreeAt(WorldContext(w), ContextOf(b), l) {
      assert l in multiset(logs);
      assert l in multiset(Slice(w, from, end));
      ReceiptsAreFilters(w.logs, l.txHash);
      ReceiptsAreFilters(logs, l.txHash);
      SliceHasWholeReceipts(w, from, end, l);
      FilterKeepsMultiset(logs, Slice(w, from, end), HasHash(l.txHash));
      assert l in Filter(w.logs, HasHash(l.txHash));
      assert l in Filter(logs, HasHash(l.txHash));
      WorldReceiptsDistinct(w, l.txHash);
      SentIsEntered(w, b, l);
    }
  }

  lemma SliceIsDistinct(w: World, lo: nat, hi: nat)
    requires ValidWorld(w)
    ensures DistinctCandidates(Slice(w, lo, hi)) && OneBlockEach(Candidates(Slice(w, lo, hi)))
  {
    FilterIsDistinct(w.logs, InRange(lo, hi), LogPosition);
    FilterIsDistinct(Slice(w, lo, hi), IsAuthorizationUsed, LogPosition);
  }

  /** What a faithful batch yields is the chain's own rows for its blocks. */
  lemma FaithfulPayments(w: World, b: Batch, from: nat, bound: nat)
    requires ValidWorld(w) && Faithful(w, b, from, bound)
    ensures DistinctCandidates(LogsOf(b))
    ensures ResultOf(b).payments == PaymentsOf(w, from, End(b, bound))
  {
    var logs, slice := LogsOf(b), Slice(w, from, End(b, bound));
    ContextsAgree(w, b, from, bound);
    SliceIsDistinct(w, from, End(b, bound));
    SortedCandidatesPermute(slice, logs);
    AssembleIgnoresOrder(WorldContext(w), ContextOf(b), logs, logs);
    forall l | l in logs ensures AgreeAt(WorldContext(w), WorldContext(w), l) {
      assert AgreeAt(WorldContext(w), ContextOf(b), l);
    }
    AssembleIgnoresOrder(WorldContext(w), WorldContext(w), logs, slice);
  }

  lemma CancellationAgrees(w: World, b: Batch, l: Log)
    requires WellEncoded(b) && TransactionSent(w, b, l.txHash) && BlockSent(w, b, l.blockNumber)
    ensures CancellationOf(ContextOf(b), l) == CancellationOf(WorldContext(w), l)
  {
    SentIsEntered(w, b, l);
  }

  lemma FaithfulCancellations(w: World, b: Batch, from: nat, bound: nat)
    requires ValidWorld(w) && Faithful(w, b, from, bound)
    ensures forall c :: c in ResultOf(b).cancellations <==> c in CancellationsOf(w, from, End(b, bound))
  {
    var logs, slice := LogsOf(b), Slice(w, from, End(b, bound));
    forall l ensures l in logs <==> l in slice {
      assert l in multiset(logs) <==> l in multiset(slice);
    }
    forall l | l in logs ensures CancellationOf(ContextOf(b), l) == CancellationOf(WorldContext(w), l) {
      CancellationAgrees(w, b, l);
    }
  }

  // ----- the chain's rows, block by block

  /** Every row the chain gives rise to, from one assembly of all of it. */
  function Expected(w: World): seq<Payment> {
    Assembled(WorldContext(w), w.logs).payments
  }

  function ExpectedCancellations(w: World): seq<Cancellation> {
    Extracted(WorldContext(w), w.logs)
  }

  lemma RowsComeFromLogs(w: World, logs: seq<Log>, p: Payment)
    requires ValidWorld(w) && (forall l :: l in logs ==> l in w.logs)
    requires DistinctCandidates(logs) && p in Assembled(WorldContext(w), logs).payments
    ensures exists l :: l in logs && l.txHash == p.txHash && LogPosition(l) == PaymentPosition(p)
  {
    var ctx := WorldContext(w);
    NoInventedMoney(ctx, logs);
    var bs := Bindings(ctx, Nothing(), Sorted(Candidates(logs), LogPosition));
    var i :| 0 <= i < |bs| && Rows(bs)[i] == p;
    assert Backed(ctx, bs[i]) && bs[i].auth in logs;
  }

  lemma {:induction false} FilterPartitions<T(!new)>(s: seq<T>, keep: T -> bool, drop: T -> bool)
    requires forall x :: x in s ==> drop(x) == !keep(x)
    ensures multiset(s) == multiset(Filter(s, keep)) + multiset(Filter(s, drop))
  {
    forall x ensures multiset(s)[x] == multiset(Filter(s, keep))[x] + multiset(Filter(s, drop))[x] {
      FilterCount(s, keep, x);
      FilterCount(s, drop, x);
      assert x in s <==> multiset(s)[x] > 0;
    }
  }

  lemma WorldAgreesWithItself(w: World, logs: seq<Log>)
    requires ValidWorld(w)
    ensures Agree(WorldContext(w), WorldContext(w), logs)
  {
    forall l | l in logs && l.txHash in ReceiptsOf(w.logs)
      ensures DistinctLogIndexes(ReceiptsOf(w.logs)[l.txHash])
    {
      WorldReceiptsDistinct(w, l.txHash);
    }
  }

  lemma RowsLieWhereTheirLogsDo(w: World, inside: Log -> bool, p: Payment)
    requires ValidWorld(w) && p in Assembled(WorldContext(w), Filter(w.logs, inside)).payments
    ensures exists l :: l in w.logs && inside(l) && l.blockNumber == p.blockNumber
  {
    FilterIsDistinct(w.logs, inside, LogPosition);
    FilterIsDistinct(Filter(w.logs, inside), IsAuthorizationUsed, LogPosition);
    RowsComeFromLogs(w, Filter(w.logs, inside), p);
  }

  /** Assembling a range of blocks gives exactly the chain's rows of those blocks. */
  lemma RangeRows(w: World, lo: nat, hi: nat, p: Payment)
    requires ValidWorld(w)
    ensures p in PaymentsOf(w, lo, hi) <==> p in Expected(w) && lo <= p.blockNumber < hi
  {
    var outs := Assembled(WorldContext(w), Filter(w.logs, OutOfRange(lo, hi))).payments;
    CutAtRange(w, lo, hi);
    MemberOfEither(Expected(w), PaymentsOf(w, lo, hi), outs, p);
    if p in PaymentsOf(w, lo, hi) {
      RowsLieWhereTheirLogsDo(w, InRange(lo, hi), p);
    }
    if p in outs {
      RowsLieWhereTheirLogsDo(w, OutOfRange(lo, hi), p);
    }
  }

  lemma MemberOfEither<T(!new)>(all: seq<T>, a: seq<T>, b: seq<T>, x: T)
    requires multiset(all) == multiset(a) + multiset(b)
    ensures x in all <==> x in a || x in b
  {
    assert x in all <==> x in multiset(all);
    assert x in a <==> x in multiset(a);
    assert x in b <==> x in multiset(b);
  }

  function OutOfRange(lo: nat, hi: nat): Log -> bool {
    (l: Log) => !(lo <= l.blockNumber < hi)
  }

  lemma CutAtRange(w: World, lo: nat, hi: nat)
    requires ValidWorld(w)
    ensures var ctx, outs := WorldContext(w), Filter(w.logs, OutOfRange(lo, hi));
            && DistinctCandidates(Slice(w, lo, hi)) && DistinctCandidates(outs)
            && multiset(Expected(w)) == multiset(PaymentsOf(w, lo, hi)) + multiset(Assembled(ctx, outs).payments)
  {
    var ctx, ins, outs := WorldContext(w), Slice(w, lo, hi), Filter(w.logs, OutOfRange(lo, hi));
    FilterPartitions(w.logs, InRange(lo, hi), OutOfRange(lo, hi));
    FilterIsDistinct(w.logs, IsAuthorizationUsed, LogPosition);
    FilterIsDistinct(w.logs, OutOfRange(lo, hi), LogPosition);
    FilterIsDistinct(outs, IsAuthorizationUsed, LogPosition);
    SliceIsDistinct(w, lo, hi);
    WorldAgreesWithItself(w, ins);
    WorldAgreesWithItself(w, outs);
    AssembleIgnoresCut(ctx, ctx, ctx, w.logs, ins, outs);
  }

  lemma RangeCancellations(w: World, lo: nat, hi: nat, c: Cancellation)
    ensures c in CancellationsOf(w, lo, hi) <==> c in ExpectedCancellations(w) && lo <= c.blockNumber < hi
  {
  }

  /** The primary key tells the chain's rows apart. */
  lemma ExpectedKeysDiffer(w: World, p: Payment, q: Payment)
    requires ValidWorld(w) && p in Expected(w) && q in Expected(w) && PaymentKey(p) == PaymentKey(q)
    ensures p == q
  {
    FilterIsDistinct(w.logs, IsAuthorizationUsed, LogPosition);
    RowsComeFromLogs(w, w.logs, p);
    RowsComeFromLogs(w, w.logs, q);
    var l :| l in w.logs && l.txHash == p.txHash && LogPosition(l) == PaymentPosition(p);
    var m :| m in w.logs && m.txHash == q.txHash && LogPosition(m) == PaymentPosition(q);
    SamePositionSameLog(w, l, m);
    AssembledAscends(WorldContext(w), w.logs);
    SamePositionSameRow(Expected(w), p, q);
  }

  lemma SamePositionSameRow(rows: seq<Payment>, p: Payment, q: Payment)
    requires StrictlyAscending(rows, PaymentPosition) && p in rows && q in rows
    requires PaymentPosition(p) == PaymentPosition(q)
    ensures p == q
  {
    var i :| 0 <= i < |rows| && rows[i] == p;
    var j :| 0 <= j < |rows| && rows[j] == q;
    assert PaymentPosition(rows[i]) == PaymentPosition(rows[j]);
  }

  lemma ExpectedCancellationKeysDiffer(w: World, c: Cancellation, d: Cancellation)
    requires ValidWorld(w) && c in ExpectedCancellations(w) && d in ExpectedCancellations(w)
    requires CancellationKey(c) == CancellationKey(d)
    ensures c == d
  {
    var l :| l in w.logs && CancellationOf(WorldContext(w), l) == Some(c);
    var m :| m in w.logs && CancellationOf(WorldContext(w), m) == Some(d);
    SamePositionSameLog(w, l, m);
  }

  // ----- what every schedule keeps

  /** Nothing is stored but the chain's own rows, each under its own key. */
  ghost predicate Sound(w: World, db: Db) {
    && (forall k :: k in db.payments ==> db.payments[k] in Expected(w) && PaymentKey(db.payments[k]) == k)
    && (forall k :: k in db.cancellations ==>
          db.cancellations[k] in ExpectedCancellations(w) && CancellationKey(db.cancellations[k]) == k)
  }

  /** Every row of blocks [lo, hi) is stored. */
  ghost predicate Covers(w: World, db: Db, lo: nat, hi: nat) {
    && (forall p :: p in Expected(w) && lo <= p.blockNumber < hi ==> PaymentKey(p) in db.payments)
    && (forall c :: c in ExpectedCancellations(w) && lo <= c.blockNumber < hi ==>
          CancellationKey(c) in db.cancellations)
  }

  /** The batch yields just the chain's rows of these blocks. */
  ghost predicate YieldsRange(w: World, b: Batch, lo: nat, hi: nat)
    requires WellEncoded(b)
  {
    && (forall p :: p in ResultOf(b).payments <==> p in Expected(w) && lo <= p.blockNumber < hi)
    && (forall c :: c in ResultOf(b).cancellations <==> c in ExpectedCancellations(w) && lo <= c.blockNumber < hi)
  }

  lemma FaithfulYieldsRange(w: World, b: Batch, from: nat, bound: nat)
    requires ValidWorld(w) && Faithful(w, b, from, bound)
    ensures YieldsRange(w, b, from, End(b, bound))
  {
    FaithfulPayments(w, b, from, bound);
    FaithfulCancellations(w, b, from, bound);
    forall p ensures p in ResultOf(b).payments <==> p in Expected(w) && from <= p.blockNumber < End(b, bound) {
      RangeRows(w, from, End(b, bound), p);
    }
    forall c ensures c in ResultOf(b).cancellations
                     <==> c in ExpectedCancellations(w) && from <= c.blockNumber < End(b, bound) {
      RangeCancellations(w, from, End(b, bound), c);
    }
  }

  lemma RangeKeepsRows(w: World, db: Db, b: Batch, lo: nat, hi: nat)
    requires WellEncoded(b) && YieldsRange(w, b, lo, hi) && Sound(w, db)
    ensures Sound(w, Committed(db, b)) && Covers(w, Committed(db, b), lo, hi)
  {
  }

  lemma CommitKeepsCover(w: World, db: Db, b: Batch, lo: nat, hi: nat)
    requires WellEncoded(b) && Covers(w, db, lo, hi)
    ensures Covers(w, Committed(db, b), lo, hi)
  {
  }

  lemma CommitKeepsRows(w: World, db: Db, b: Batch, from: nat, bound: nat)
    requires ValidWorld(w) && Faithful(w, b, from, bound) && Sound(w, db)
    ensures Sound(w, Committed(db, b))
    ensures Covers(w, Committed(db, b), from, End(b, bound))
    ensures forall lo, hi :: Covers(w, db, lo, hi) ==> Covers(w, Committed(db, b), lo, hi)
  {
    FaithfulYieldsRange(w, b, from, bound);
    RangeKeepsRows(w, db, b, from, End(b, bound));
    forall lo, hi | Covers(w, db, lo, hi) ensures Covers(w, Committed(db, b), lo, hi) {
      CommitKeepsCover(w, db, b, lo, hi);
    }
  }

  lemma CommitMovesCursor(w: World, db: Db, b: Batch, from: nat, bound: nat)
    requires Faithful(w, b, from, bound)
    ensures Committed(db, b).cursor == db.cursor
            || (Committed(db, b).cursor.Some? && from <= Committed(db, b).cursor.value < End(b, bound))
    ensures db.cursor.Some? ==>
              Committed(db, b).cursor.Some? && db.cursor.value <= Committed(db, b).cursor.value
  {
  }

  /** One backfill process: the next block it will ask for, and its exclusive bound. */
  datatype Process = Process(next: nat, bound: nat)

  datatype System = System(db: Db, running: seq<Process>)

  datatype Event =
    | Start(from: nat, bound: nat)
    | Commit(process: nat, batch: Batch)
    | Stop(process: nat)

  /**
   A process may start wherever everything before it down to S is known to be stored: at
   or before S, or at or before the block after the cursor.  Any number may run at once.
   Stop is a halt, a crash, a failed transaction or the end of the range.
   */
  ghost predicate Enabled(w: World, s: System, e: Event, S: nat) {
    match e
    case Start(from, bound) => from <= S || (s.db.cursor.Some? && from <= s.db.cursor.value + 1)
    case Commit(i, b) =>
      && i < |s.running| && s.running[i].next < s.running[i].bound
      && b.nextBlock > s.running[i].next
      && Faithful(w, b, s.running[i].next, s.running[i].bound)
    case Stop(i) => i < |s.running|
  }

  /** Going on from the block after the one the store reports is always allowed, before the first commit too. */
  lemma ResumingIsAllowed(w: World, s: System, bound: nat, S: nat)
    requires S >= 1
    ensures Enabled(w, s, Start(LastBlock(s.db.cursor) + 1, bound), S)
  {
  }

  ghost function After(w: World, s: System, e: Event, S: nat): System
    requires Enabled(w, s, e, S)
  {
    match e
    case Start(from, bound) => s.(running := s.running + [Process(from, bound)])
    case Commit(i, b) =>
      System(Committed(s.db, b), s.running[i := s.running[i].(next := b.nextBlock)])
    case Stop(i) => s.(running := s.running[..i] + s.running[i+1..])
  }

  /** Where a process has got to, never past its bound. */
  function Done(p: Process): nat {
    if p.next < p.bound then p.next else p.bound
  }

  ghost predicate Inv(w: World, s: System, S: nat) {
    && Sound(w, s.db)
    && (s.db.cursor.Some? ==> Covers(w, s.db, S, s.db.cursor.value + 1))
    && forall i :: 0 <= i < |s.running| ==> Covers(w, s.db, S, Done(s.running[i]))
  }

  lemma CommitKeepsInv(w: World, s: System, e: Event, S: nat)
    requires ValidWorld(w) && Inv(w, s, S) && e.Commit? && Enabled(w, s, e, S)
    ensures Inv(w, After(w, s, e, S), S)
  {
    var p, b := s.running[e.process], e.batch;
    var t := After(w, s, e, S);
    CommitKeepsRows(w, s.db, b, p.next, p.bound);
    CommitMovesCursor(w, s.db, b, p.next, p.bound);
    assert Covers(w, t.db, S, End(b, p.bound)) by {
      assert Covers(w, s.db, S, Done(p));
    }
    forall i | 0 <= i < |t.running| ensures Covers(w, t.db, S, Done(t.running[i])) {
      if i != e.process {
        assert Covers(w, s.db, S, Done(s.running[i]));
      }
    }
    if t.db.cursor.Some? && t.db.cursor != s.db.cursor {
      assert t.db.cursor.value + 1 <= End(b, p.bound);
    }
  }

  lemma StepKeepsInv(w: World, s: System, e: Event, S: nat)
    requires ValidWorld(w) && Inv(w, s, S) && Enabled(w, s, e, S)
    ensures Inv(w, After(w, s, e, S), S)
  {
    if e.Commit? {
      CommitKeepsInv(w, s, e, S);
    }
  }

  ghost predicate Feasible(w: World, s: System, events: seq<Event>, S: nat)
    decreases |events|
  {
    events == [] || (Enabled(w, s, events[0], S) && Feasible(w, After(w, s, events[0], S), events[1..], S))
  }

  ghost function Execute(w: World, s: System, events: seq<Event>, S: nat): System
    requires Feasible(w, s, events, S)
    decreases |events|
  {
    if events == [] then s else Execute(w, After(w, s, events[0], S), events[1..], S)
  }

  lemma {:induction false} RunsKeepInv(w: World, s: System, events: seq<Event>, S: nat)
    requires ValidWorld(w) && Inv(w, s, S) && Feasible(w, s, events, S)
    ensures Inv(w, Execute(w, s, events, S), S)
    decreases |events|
  {
    if events != [] {
      StepKeepsInv(w, s, events[0], S);
      RunsKeepInv(w, After(w, s, events[0], S), events[1..], S);
    }
  }

  function Empty(): System {
    System(Db(map[], map[], None), [])
  }

  /** The stored payments of a block range, as rows. */
  function StoredIn(db: Db, lo: nat, hi: nat): set<Payment> {
    set k | k in db.payments && lo <= db.payments[k].blockNumber < hi :: db.payments[k]
  }

  function StoredCancellationsIn(db: Db, lo: nat, hi: nat): set<Cancellation> {
    set k | k in db.cancellations && lo <= db.cancellations[k].blockNumber < hi :: db.cancellations[k]
  }

  /** The rows stored for blocks [lo, hi) are those of assembling these blocks at once. */
  ghost predicate Exact(w: World, db: Db, lo: nat, hi: nat) {
    && StoredIn(db, lo, hi) == (set p | p in PaymentsOf(w, lo, hi))
    && StoredCancellationsIn(db, lo, hi) == (set c | c in CancellationsOf(w, lo, hi))
  }

  lemma CoveredIsExact(w: World, db: Db, lo: nat, hi: nat)
    requires ValidWorld(w) && Sound(w, db) && Covers(w, db, lo, hi)
    ensures Exact(w, db, lo, hi)
  {
    forall p ensures p in StoredIn(db, lo, hi) <==> p in PaymentsOf(w, lo, hi) {
      RangeRows(w, lo, hi, p);
      PaymentIsStored(w, db, lo, hi, p);
    }
    forall c ensures c in StoredCancellationsIn(db, lo, hi) <==> c in CancellationsOf(w, lo, hi) {
      RangeCancellations(w, lo, hi, c);
      CancellationIsStored(w, db, lo, hi, c);
    }
  }

  lemma PaymentIsStored(w: World, db: Db, lo: nat, hi: nat, p: Payment)
    requires ValidWorld(w) && Sound(w, db) && Covers(w, db, lo, hi)
    ensures p in StoredIn(db, lo, hi) <==> p in Expected(w) && lo <= p.blockNumber < hi
  {
    if p in Expected(w) && lo <= p.blockNumber < hi {
      assert PaymentKey(p) in db.payments;
      ExpectedKeysDiffer(w, p, db.payments[PaymentKey(p)]);
    }
  }

  lemma CancellationIsStored(w: World, db: Db, lo: nat, hi: nat, c: Cancellation)
    requires ValidWorld(w) && Sound(w, db) && Covers(w, db, lo, hi)
    ensures c in StoredCancellationsIn(db, lo, hi) <==> c in ExpectedCancellations(w) && lo <= c.blockNumber < hi
  {
    if c in ExpectedCancellations(w) && lo <= c.blockNumber < hi {
      assert CancellationKey(c) in db.cancellations;
      ExpectedCancellationKeysDiffer(w, c, db.cancellations[CancellationKey(c)]);
    }
  }

  /**
   The rows stored for blocks S to the cursor are exactly those of assembling these
   blocks at once, and the same holds up to wherever any process has got to, so to
   the end of its range once it is done.  Nothing else is stored.
   */
  ghost predicate Converged(w: World, s: System, S: nat) {
    && Sound(w, s.db)
    && (s.db.cursor.Some? ==> Exact(w, s.db, S, s.db.cursor.value + 1))
    && forall i :: 0 <= i < |s.running| ==> Exact(w, s.db, S, Done(s.running[i]))
  }

  lemma InvConverges(w: World, s: System, S: nat)
    requires ValidWorld(w) && Inv(w, s, S)
    ensures Converged(w, s, S)
  {
    if s.db.cursor.Some? {
      CoveredIsExact(w, s.db, S, s.db.cursor.value + 1);
    }
    forall i | 0 <= i < |s.running| ensures Exact(w, s.db, S, Done(s.running[i])) {
      CoveredIsExact(w, s.db, S, Done(s.running[i]));
    }
  }

  lemma NothingStoredIsSound(w: World, S: nat)
    ensures Inv(w, Empty(), S)
  {
  }

  /** After any schedule from empty tables, the system has converged. */
  lemma ScheduleConverges(w: World, events: seq<Event>, S: nat)
    requires ValidWorld(w) && Feasible(w, Empty(), events, S)
    ensures Converged(w, Execute(w, Empty(), events, S), S)
  {
    NothingStoredIsSound(w, S);
    RunsKeepInv(w, Empty(), events, S);
    InvConverges(w, Execute(w, Empty(), events, S), S);
  }

  // ----- a pass of the backfiller is such a schedule

  ghost predicate FaithfulServer(w: World, server: Server, bound: nat) {
    forall n: nat, from: nat, b: Batch ::
      AnswersWith(server, n, from, b) && WellEncoded(b) && from < bound && from < b.nextBlock ==>
        Faithful(w, b, from, bound)
  }

  lemma {:induction false} PassKeepsInv(w: World, db: Db, batches: seq<Batch>, from: nat, bound: nat,
                                        server: Server, S: nat)
    requires ValidWorld(w) && FaithfulServer(w, server, bound) && Tiles(batches, from, bound, server)
    requires Inv(w, System(db, []), S) && Enabled(w, System(db, []), Start(from, bound), S)
    ensures Inv(w, System(CommitAll(db, batches), [Process(Reached(batches, from), bound)]), S)
  {
    if batches == [] {
      LoneProcessStarts(w, db, from, bound, S);
    } else {
      var n := |batches| - 1;
      PassKeepsInv(w, db, batches[..n], from, bound, server, S);
      ServedIsFaithful(w, server, batches[n], Reached(batches[..n], from), bound);
      LoneProcessCommits(w, CommitAll(db, batches[..n]), batches[n], Reached(batches[..n], from), bound, S);
    }
  }

  lemma ServedIsFaithful(w: World, server: Server, b: Batch, from: nat, bound: nat)
    requires FaithfulServer(w, server, bound) && Serves(server, from, b)
    requires WellEncoded(b) && from < bound && from < b.nextBlock
    ensures Faithful(w, b, from, bound)
  {
  }

  lemma LoneProcessCommits(w: World, db: Db, b: Batch, from: nat, bound: nat, S: nat)
    requires ValidWorld(w) && Inv(w, System(db, [Process(from, bound)]), S)
    requires Faithful(w, b, from, bound) && from < bound && from < b.nextBlock
    ensures Inv(w, System(Committed(db, b), [Process(b.nextBlock, bound)]), S)
  {
    var s := System(db, [Process(from, bound)]);
    CommitKeepsInv(w, s, Commit(0, b), S);
    assert s.running[0 := Process(b.nextBlock, bound)] == [Process(b.nextBlock, bound)];
  }

  /**
   From whatever a schedule has left, going on after the block the store reports and
   committing one faithful batch leaves everything from S up to there exact.
   */
  lemma ResumedCommitIsExact(w: World, db: Db, S: nat, b: Batch, bound: nat)
    requires ValidWorld(w) && S >= 1 && Inv(w, System(db, []), S)
    requires var from := LastBlock(db.cursor) + 1;
             from < bound && b.nextBlock > from && Faithful(w, b, from, bound)
    ensures Exact(w, Committed(db, b), S, End(b, bound))
  {
    var from := LastBlock(db.cursor) + 1;
    ResumingIsAllowed(w, System(db, []), bound, S);
    LoneProcessStarts(w, db, from, bound, S);
    LoneProcessCommits(w, db, b, from, bound, S);
    LoneProcessIsExact(w, Committed(db, b), b.nextBlock, bound, S);
  }

  lemma LoneProcessStarts(w: World, db: Db, from: nat, bound: nat, S: nat)
    requires ValidWorld(w) && Inv(w, System(db, []), S) && Enabled(w, System(db, []), Start(from, bound), S)
    ensures Inv(w, System(db, [Process(from, bound)]), S)
  {
    StepKeepsInv(w, System(db, []), Start(from, bound), S);
    assert [] + [Process(from, bound)] == [Process(from, bound)];
  }

  lemma LoneProcessIsExact(w: World, db: Db, next: nat, bound: nat, S: nat)
    requires ValidWorld(w) && Inv(w, System(db, [Process(next, bound)]), S)
    ensures Exact(w, db, S, Done(Process(next, bound)))
  {
    var s := System(db, [Process(next, bound)]);
    InvConverges(w, s, S);
    assert Exact(w, s.db, S, Done(s.running[0]));
  }

  /**
   What a pass leaves: tables from which any schedule can go on, holding exactly the
   rows of S up to where it got, so up to its last block if it completed.
   */
  ghost predicate Resumable(w: World, db: Db, reached: nat, bound: nat, S: nat) {
    && Inv(w, System(db, []), S)
    && Exact(w, db, S, Done(Process(reached, bound)))
  }

  /**
   However a pass ends, what it left stored is exact from S to where it got (its last
   block, if it completed), and a
   later pass may go on from it.
   */
  lemma PassConverges(w: World, db: Db, batches: seq<Batch>, fromBlock: nat, toBlock: nat, server: Server, S: nat)
    requires ValidWorld(w) && FaithfulServer(w, server, toBlock + 1)
    requires Tiles(batches, fromBlock, toBlock + 1, server)
    requires Inv(w, System(db, []), S)
    requires fromBlock <= S || (db.cursor.Some? && fromBlock <= db.cursor.value + 1)
    ensures Resumable(w, CommitAll(db, batches), Reached(batches, fromBlock), toBlock + 1, S)
  {
    PassEnds(w, db, batches, fromBlock, toBlock, server, S);
    EndOfPass(w, CommitAll(db, batches), Reached(batches, fromBlock), toBlock + 1, S);
  }

  lemma PassEnds(w: World, db: Db, batches: seq<Batch>, fromBlock: nat, toBlock: nat, server: Server, S: nat)
    requires ValidWorld(w) && FaithfulServer(w, server, toBlock + 1)
    requires Tiles(batches, fromBlock, toBlock + 1, server)
    requires Inv(w, System(db, []), S)
    requires fromBlock <= S || (db.cursor.Some? && fromBlock <= db.cursor.value + 1)
    ensures Inv(w, System(CommitAll(db, batches), [Process(Reached(batches, fromBlock), toBlock + 1)]), S)
  {
    PassKeepsInv(w, db, batches, fromBlock, toBlock + 1, server, S);
  }

  lemma EndOfPass(w: World, db: Db, reached: nat, bound: nat, S: nat)
    requires ValidWorld(w) && Inv(w, System(db, [Process(reached, bound)]), S)
    ensures Resumable(w, db, reached, bound, S)
  {
    LoneProcessLeaves(w, db, Process(reached, bound), S);
    LoneProcessIsExact(w, db, reached, bound, S);
  }

  lemma LoneProcessLeaves(w: World, db: Db, p: Process, S: nat)
    requires Inv(w, System(db, [p]), S)
    ensures Inv(w, System(db, []), S)
  {
  }
}
