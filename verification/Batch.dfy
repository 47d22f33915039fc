/**
 One response of the log service, and what decoding and assembling it yields.  A
 row whose hex does not parse is None; any such row fails the whole batch.
 */
module Batches {
  import opened Assembler
  import opened Cancellations
  import opened Chain
  import opened Stores
  import opened Wrappers

  datatype WireTransaction = WireTransaction(hash: Word, body: Transaction)
  datatype WireBlock = WireBlock(number: nat, header: Option<Block>)

  datatype Batch = Batch(
    logs: seq<Option<Log>>,
    transactions: seq<Option<WireTransaction>>,
    blocks: seq<WireBlock>,
    nextBlock: nat)

  datatype Decoded = Decoded(payments: seq<Payment>, cancellations: seq<Cancellation>, stats: Stats)

  predicate WellEncoded(b: Batch) {
    && (forall i :: 0 <= i < |b.logs| ==> b.logs[i].Some?)
    && (forall i :: 0 <= i < |b.transactions| ==> b.transactions[i].Some?)
    && (forall i :: 0 <= i < |b.blocks| ==> b.blocks[i].header.Some?)
  }

  function LogsOf(b: Batch): (r: seq<Log>)
    requires WellEncoded(b)
    ensures |r| == |b.logs| && forall i :: 0 <= i < |r| ==> r[i] == b.logs[i].value
  {
    seq(|b.logs|, i requires 0 <= i < |b.logs| => b.logs[i].value)
  }

  function AddToReceipt(receipts: map<Word, seq<Log>>, l: Log): map<Word, seq<Log>> {
    receipts[l.txHash := (if l.txHash in receipts then receipts[l.txHash] else []) + [l]]
  }

  /** Each transaction's logs, in the order they came. */
  function ReceiptsOf(logs: seq<Log>): map<Word, seq<Log>> {
    if logs == [] then map[]
    else
      AddToReceipt(ReceiptsOf(logs[..|logs|-1]), logs[|logs|-1])
  }

  lemma ReceiptsStep(logs: seq<Log>, l: Log)
    ensures ReceiptsOf(logs + [l]) == AddToReceipt(ReceiptsOf(logs), l)
  {
    assert (logs + [l])[..|logs|] == logs;
  }

  function TransactionsOf(ts: seq<Option<WireTransaction>>): map<Word, Transaction>
    requires forall i :: 0 <= i < |ts| ==> ts[i].Some?
  {
    if ts == [] then map[]
    else
      var t := ts[|ts|-1].value;
      TransactionsOf(ts[..|ts|-1])[t.hash := t.body]
  }

  function BlocksOf(bs: seq<WireBlock>): map<nat, Block>
    requires forall i :: 0 <= i < |bs| ==> bs[i].header.Some?
  {
    if bs == [] then map[]
    else BlocksOf(bs[..|bs|-1])[bs[|bs|-1].number := bs[|bs|-1].header.value]
  }

  /** The last element for a hash; the others before it are overwritten. */
  ghost predicate IsLastOf(ts: seq<Option<WireTransaction>>, hash: Word, i: int) {
    && 0 <= i < |ts| && ts[i].Some? && ts[i].value.hash == hash
    && forall j :: i < j < |ts| && ts[j].Some? ==> ts[j].value.hash != hash
  }

  lemma {:induction false} TransactionsAreLast(ts: seq<Option<WireTransaction>>, hash: Word)
    requires forall i :: 0 <= i < |ts| ==> ts[i].Some?
    ensures hash in TransactionsOf(ts) <==> exists i :: 0 <= i < |ts| && ts[i].value.hash == hash
    ensures forall i :: IsLastOf(ts, hash, i) ==>
              hash in TransactionsOf(ts) && TransactionsOf(ts)[hash] == ts[i].value.body
    ensures hash in TransactionsOf(ts) ==>
              exists i :: IsLastOf(ts, hash, i) && TransactionsOf(ts)[hash] == ts[i].value.body
  {
    if ts != [] {
      var front, n := ts[..|ts|-1], |ts| - 1;
      TransactionsAreLast(front, hash);
      if ts[n].value.hash == hash {
        assert IsLastOf(ts, hash, n);
      } else {
        forall i | 0 <= i < n ensures IsLastOf(ts, hash, i) <==> IsLastOf(front, hash, i) {
          assert forall j :: 0 <= j < n ==> ts[j] == front[j];
        }
        assert forall i :: 0 <= i < n ==> ts[i] == front[i];
      }
    }
  }

  ghost predicate IsLastBlock(bs: seq<WireBlock>, number: nat, i: int) {
    && 0 <= i < |bs| && bs[i].number == number
    && forall j :: i < j < |bs| ==> bs[j].number != number
  }

  lemma {:induction false} BlocksAreLast(bs: seq<WireBlock>, number: nat)
    requires forall i :: 0 <= i < |bs| ==> bs[i].header.Some?
    ensures number in BlocksOf(bs) <==> exists i :: 0 <= i < |bs| && bs[i].number == number
    ensures forall i :: IsLastBlock(bs, number, i) ==>
              number in BlocksOf(bs) && BlocksOf(bs)[number] == bs[i].header.value
    ensures number in BlocksOf(bs) ==>
              exists i :: IsLastBlock(bs, number, i) && BlocksOf(bs)[number] == bs[i].header.value
  {
    if bs != [] {
      var front, n := bs[..|bs|-1], |bs| - 1;
      BlocksAreLast(front, number);
      if bs[n].number == number {
        assert IsLastBlock(bs, number, n);
      } else {
        forall i | 0 <= i < n ensures IsLastBlock(bs, number, i) <==> IsLastBlock(front, number, i) {
          assert forall j :: 0 <= j < n ==> bs[j] == front[j];
        }
        assert forall i :: 0 <= i < n ==> bs[i] == front[i];
      }
    }
  }

  function ContextOf(b: Batch): Context
    requires WellEncoded(b)
  {
    Context(TransactionsOf(b.transactions), ReceiptsOf(LogsOf(b)), BlocksOf(b.blocks))
  }

  function ResultOf(b: Batch): Decoded
    requires WellEncoded(b)
  {
    var a := Assembled(ContextOf(b), LogsOf(b));
    Decoded(a.payments, Extracted(ContextOf(b), LogsOf(b)), a.stats)
  }

  function HighestBlock(bs: seq<WireBlock>): (hi: nat)
    ensures forall i :: 0 <= i < |bs| ==> bs[i].number <= hi
    ensures hi == 0 || exists i :: 0 <= i < |bs| && bs[i].number == hi
  {
    if bs == [] then 0
    else
      var hi := HighestBlock(bs[..|bs|-1]);
      if bs[|bs|-1].number > hi then bs[|bs|-1].number else hi
  }

  method MaxBlock(b: Batch) returns (hi: nat)
    ensures hi == HighestBlock(b.blocks)
  {
    hi := 0;
    for i := 0 to |b.blocks|
      invariant hi == HighestBlock(b.blocks[..i])
    {
      assert b.blocks[..i+1][..i] == b.blocks[..i];
      if b.blocks[i].number > hi {
        hi := b.blocks[i].number;
      }
    }
    assert b.blocks[..|b.blocks|] == b.blocks;
  }

  method ConvertLogs(b: Batch) returns (ok: bool, logs: seq<Log>, receipts: map<Word, seq<Log>>)
    ensures ok <==> forall i :: 0 <= i < |b.logs| ==> b.logs[i].Some?
    ensures ok ==> |logs| == |b.logs| && forall k :: 0 <= k < |logs| ==> b.logs[k] == Some(logs[k])
    ensures receipts == ReceiptsOf(logs)
  {
    ok, logs, receipts := true, [], map[];
    for i := 0 to |b.logs|
      invariant |logs| == i && forall k :: 0 <= k < i ==> b.logs[k] == Some(logs[k])
      invariant receipts == ReceiptsOf(logs)
    {
      if b.logs[i].None? {
        ok := false;
        return;
      }
      ReceiptsStep(logs, b.logs[i].value);
      receipts := AddToReceipt(receipts, b.logs[i].value);
      logs := logs + [b.logs[i].value];
    }
  }

  method ConvertTransactions(b: Batch) returns (ok: bool, txs: map<Word, Transaction>)
    ensures ok <==> forall i :: 0 <= i < |b.transactions| ==> b.transactions[i].Some?
    ensures ok ==> txs == TransactionsOf(b.transactions)
  {
    ok, txs := true, map[];
    for i := 0 to |b.transactions|
      invariant forall k :: 0 <= k < i ==> b.transactions[k].Some?
      invariant txs == TransactionsOf(b.transactions[..i])
    {
      if b.transactions[i].None? {
        ok := false;
        return;
      }
      assert b.transactions[..i+1][..i] == b.transactions[..i];
      txs := txs[b.transactions[i].value.hash := b.transactions[i].value.body];
    }
    assert b.transactions[..|b.transactions|] == b.transactions;
  }

  method ConvertBlocks(b: Batch) returns (ok: bool, blocks: map<nat, Block>)
    ensures ok <==> forall i :: 0 <= i < |b.blocks| ==> b.blocks[i].header.Some?
    ensures ok ==> blocks == BlocksOf(b.blocks)
  {
    ok, blocks := true, map[];
    for i := 0 to |b.blocks|
      invariant forall k :: 0 <= k < i ==> b.blocks[k].header.Some?
      invariant blocks == BlocksOf(b.blocks[..i])
    {
      if b.blocks[i].header.None? {
        ok := false;
        return;
      }
      assert b.blocks[..i+1][..i] == b.blocks[..i];
      blocks := blocks[b.blocks[i].number := b.blocks[i].header.value];
    }
    assert b.blocks[..|b.blocks|] == b.blocks;
  }

  method DecodeBatch(b: Batch) returns (r: Option<Decoded>)
    requires WellEncoded(b) ==> DistinctCandidates(LogsOf(b))
    ensures r.Some? <==> WellEncoded(b)
    ensures r.Some? ==> r.value == ResultOf(b)
  {
    var okLogs, logs, receipts := ConvertLogs(b);
    if !okLogs {
      return None;
    }
    var okTxs, txs := ConvertTransactions(b);
    if !okTxs {
      return None;
    }
    var okBlocks, blocks := ConvertBlocks(b);
    if !okBlocks {
      return None;
    }
    assert logs == LogsOf(b);
    var ctx := Context(txs, receipts, blocks);
    var payments, stats := Assemble(logs, ctx);
    var cancellations := ExtractCancellations(logs, ctx);
    r := Some(Decoded(payments, cancellations, stats));
  }

  /** The batch carried real candidates and produced no row at all. */
  predicate AllCandidatesLost(s: Stats) {
    s.authLogs - s.denied > 0 && s.kept == 0
  }

  /** The whole effect of committing one batch. */
  function Committed(db: Db, b: Batch): Db
    requires WellEncoded(b)
  {
    Inserted(db, ResultOf(b).payments, ResultOf(b).cancellations, HighestBlock(b.blocks))
  }
}
