/**
 The assembler: which authorizations become payments, and against which Transfer.

 Walk is the specification the two methods are proved against: one candidate at a
 time, in order, carrying the rows written so far, the running statistics and the
 Transfers each receipt has already given away.
 */
module Assembler {
  import opened Chain
  import opened Positions
  import opened Wrappers

  /** What one batch carries beside its logs. */
  datatype Context = Context(
    txs: map<Word, Transaction>,
    receipts: map<Word, seq<Log>>,
    blocks: map<nat, Block>)

  datatype Stats = Stats(authLogs: nat, denied: nat, kept: nat, dropped: nat)

  type Claims = map<Word, set<nat>>

  datatype Assembly = Assembly(payments: seq<Payment>, stats: Stats, consumed: Claims)

  datatype Outcome = Denied | Dropped | Kept(companion: Log, payment: Payment)

  function Nothing(): Assembly {
    Assembly([], Stats(0, 0, 0, 0), map[])
  }

  // ----- pairing

  predicate Eligible(l: Log, after: nat, consumed: set<nat>) {
    IsUsdcTransfer(l) && l.logIndex > after && l.logIndex !in consumed
  }

  function Companion(receipt: seq<Log>, after: nat, consumed: set<nat>): (c: Option<Log>)
    ensures c.None? <==> forall l :: l in receipt ==> !Eligible(l, after, consumed)
    ensures c.Some? ==> c.value in receipt && Eligible(c.value, after, consumed)
    ensures c.Some? ==>
              forall l :: l in receipt && Eligible(l, after, consumed) ==> c.value.logIndex <= l.logIndex
  {
    if receipt == [] then None
    else
      var best := Companion(receipt[..|receipt|-1], after, consumed);
      var l := receipt[|receipt|-1];
      assert receipt == receipt[..|receipt|-1] + [l];
      if Eligible(l, after, consumed) && (best.None? || l.logIndex < best.value.logIndex) then Some(l) else best
  }

  method PairCompanionTransfer(receipt: seq<Log>, authLogIndex: nat, consumed: set<nat>)
    returns (best: Option<Log>)
    ensures best == Companion(receipt, authLogIndex, consumed)
  {
    best := None;
    for i := 0 to |receipt|
      invariant best == Companion(receipt[..i], authLogIndex, consumed)
    {
      assert receipt[..i+1][..i] == receipt[..i];
      var l := receipt[i];
      if !IsUsdcTransfer(l) {
        continue;
      }
      if l.logIndex <= authLogIndex {
        continue;
      }
      if l.logIndex in consumed {
        continue;
      }
      if best.None? || l.logIndex < best.value.logIndex {
        best := Some(l);
      }
    }
    assert receipt[..|receipt|] == receipt;
  }

  // ----- one candidate

  function Claimed(consumed: Claims, tx: Word): set<nat> {
    if tx in consumed then consumed[tx] else {}
  }

  function Judge(ctx: Context, l: Log, consumed: set<nat>): (o: Outcome) {
    if l.txHash !in ctx.txs then Dropped
    else if !KeepAuthorizationUsed(l, ctx.txs[l.txHash].input) then Denied
    else if l.txHash !in ctx.receipts then Dropped
    else
      var companion := Companion(ctx.receipts[l.txHash], l.logIndex, consumed);
      if companion.None? then Dropped
      else
        var t, a := DecodeTransfer(companion.value), DecodeAuthorization(l);
        if t.None? || a.None? || a.value.authorizer != t.value.from then Dropped
        else if l.blockNumber !in ctx.blocks || ctx.blocks[l.blockNumber].timestamp > MAX_INT64 then Dropped
        else Kept(companion.value,
                  PaymentOf(l, a.value, t.value, ctx.txs[l.txHash], ctx.blocks[l.blockNumber]))
  }

  /** Everything a candidate needs to become a row, apart from a Transfer. */
  predicate HasContext(ctx: Context, l: Log) {
    && l.txHash in ctx.txs && |ctx.txs[l.txHash].input| >= 4
    && l.txHash in ctx.receipts
    && l.blockNumber in ctx.blocks && ctx.blocks[l.blockNumber].timestamp <= MAX_INT64
  }

  /** A USDC Transfer after the authorization that no row has claimed. */
  predicate IsFreeLater(t: Log, l: Log, consumed: set<nat>) {
    && t.address == USDC_PROXY_BASE && t.topics != [] && t.topics[0] == TRANSFER_TOPIC
    && t.logIndex > l.logIndex && t.logIndex !in consumed
  }

  /** The first of them in the receipt. */
  predicate IsNextTransfer(ctx: Context, l: Log, t: Log, consumed: set<nat>) {
    && l.txHash in ctx.receipts && t in ctx.receipts[l.txHash] && IsFreeLater(t, l, consumed)
    && forall u :: u in ctx.receipts[l.txHash] && IsFreeLater(u, l, consumed) ==> t.logIndex <= u.logIndex
  }

  /** The row reports the Transfer, the transaction and the block it came from. */
  predicate Reports(ctx: Context, l: Log, t: Log, p: Payment)
    requires HasContext(ctx, l)
  {
    var tx, block := ctx.txs[l.txHash], ctx.blocks[l.blockNumber];
    && EmitsTransfer(t, p.payer, p.payee, p.amountRaw)
    && EmitsAuthorization(l, AUTHORIZATION_USED_TOPIC, p.payer, p.authNonce)
    && p.txHash == l.txHash && p.blockNumber == l.blockNumber && p.logIndex == l.logIndex
    && p.transactionIndex == l.txIndex
    && p.facilitator == tx.from && (p.selfSettled <==> p.facilitator == p.payee)
    && p.calledContract == tx.to && p.inputCalldata == tx.input && p.methodSelector == tx.input[..4]
    && p.gasUsed == tx.gasUsed && p.effectiveGasPrice == tx.effectiveGasPrice
    && p.gasCostWei == p.gasUsed * p.effectiveGasPrice && p.l1Fee == tx.l1Fee
    && p.blockTimestamp == block.timestamp && p.blockHash == block.hash && p.baseFeePerGas == block.baseFeePerGas
  }

  /**
   Exactly when a candidate is denied and when it is kept; what is kept is the next free
   Transfer, sent by the authorizer, and a row that reports it.  All else is dropped.
   With distinct log indexes there is only one such Transfer.
   */
  lemma VerdictMeans(ctx: Context, l: Log, consumed: set<nat>)
    requires IsAuthorizationUsed(l)
    requires l.txHash in ctx.receipts ==>
               forall t, u :: t in ctx.receipts[l.txHash] && u in ctx.receipts[l.txHash] && t.logIndex == u.logIndex ==>
                  t == u
    ensures var o := Judge(ctx, l, consumed);
            && (o.Denied? <==> l.txHash in ctx.txs && |ctx.txs[l.txHash].input| < 4)
            && (o.Kept? <==>
                  && HasContext(ctx, l)
                  && exists t :: IsNextTransfer(ctx, l, t, consumed) && PaidByAuthorizer(l, t))
            && (o.Kept? ==> IsNextTransfer(ctx, l, o.companion, consumed) && Reports(ctx, l, o.companion, o.payment))
  {
    var o := Judge(ctx, l, consumed);
    if t :| HasContext(ctx, l) && IsNextTransfer(ctx, l, t, consumed) {
      CompanionIsNext(ctx, l, t, consumed);
      PaidByAuthorizerMeans(l, t);
    }
    if o.Kept? {
      KeptIsReported(ctx, l, consumed);
      assert IsNextTransfer(ctx, l, o.companion, consumed);
    }
  }

  lemma CompanionIsNext(ctx: Context, l: Log, t: Log, consumed: set<nat>)
    requires l.txHash in ctx.receipts && IsNextTransfer(ctx, l, t, consumed)
    requires forall t, u :: t in ctx.receipts[l.txHash] && u in ctx.receipts[l.txHash] && t.logIndex == u.logIndex ==>
               t == u
    ensures Companion(ctx.receipts[l.txHash], l.logIndex, consumed) == Some(t)
  {
    assert Eligible(t, l.logIndex, consumed);
    var c := Companion(ctx.receipts[l.txHash], l.logIndex, consumed);
    assert c.value.logIndex == t.logIndex;
  }

  lemma KeptIsReported(ctx: Context, l: Log, consumed: set<nat>)
    requires IsAuthorizationUsed(l) && Judge(ctx, l, consumed).Kept?
    ensures var o := Judge(ctx, l, consumed);
            && IsNextTransfer(ctx, l, o.companion, consumed) && HasContext(ctx, l)
            && Reports(ctx, l, o.companion, o.payment) && PaidByAuthorizer(l, o.companion)
  {
    var o := Judge(ctx, l, consumed);
    var p := o.payment;
    forall u | u in ctx.receipts[l.txHash] && IsFreeLater(u, l, consumed) ensures o.companion.logIndex <= u.logIndex {
      assert Eligible(u, l.logIndex, consumed);
    }
    TransferMeans(o.companion, p.payer, p.payee, p.amountRaw);
    AuthorizationMeans(l, AUTHORIZATION_USED_TOPIC, p.payer, p.authNonce);
  }

  /** Enter one verdict: count it and, if the row is kept, write it and claim its Transfer. */
  function Enter(a: Assembly, tx: Word, o: Outcome): Assembly {
    var s := a.stats.(authLogs := a.stats.authLogs + 1);
    match o
    case Denied => a.(stats := s.(denied := s.denied + 1))
    case Dropped => a.(stats := s.(dropped := s.dropped + 1))
    case Kept(companion, payment) =>
      Assembly(
        a.payments + [payment],
        s.(kept := s.kept + 1),
        a.consumed[tx := Claimed(a.consumed, tx) + {companion.logIndex}])
  }

  function Step(ctx: Context, a: Assembly, l: Log): Assembly {
    Enter(a, l.txHash, Judge(ctx, l, Claimed(a.consumed, l.txHash)))
  }

  function Walk(ctx: Context, a: Assembly, candidates: seq<Log>): Assembly
    decreases |candidates|
  {
    if candidates == [] then a else Walk(ctx, Step(ctx, a, candidates[0]), candidates[1..])
  }

  // ----- the whole batch

  function Candidates(logs: seq<Log>): seq<Log> {
    Filter(logs, IsAuthorizationUsed)
  }

  function Assembled(ctx: Context, logs: seq<Log>): Assembly {
    Walk(ctx, Nothing(), Sorted(Candidates(logs), LogPosition))
  }

  /** log_index is unique within a block on the EVM; sort.Slice depends on it. */
  ghost predicate DistinctCandidates(logs: seq<Log>) {
    DistinctPositions(Candidates(logs), LogPosition)
  }

  lemma {:induction false} WalkAscends(ctx: Context, a: Assembly, candidates: seq<Log>)
    requires StrictlyAscending(a.payments, PaymentPosition)
    requires StrictlyAscending(candidates, LogPosition)
    requires forall i, j :: 0 <= i < |a.payments| && 0 <= j < |candidates| ==>
               Before(PaymentPosition(a.payments[i]), LogPosition(candidates[j]))
    ensures StrictlyAscending(Walk(ctx, a, candidates).payments, PaymentPosition)
    decreases |candidates|
  {
    if candidates != [] {
      WalkAscends(ctx, Step(ctx, a, candidates[0]), candidates[1..]);
    }
  }

  /** By block, and within a block by log index. */
  ghost predicate InLogOrder(ps: seq<Payment>) {
    forall i, j :: 0 <= i < j < |ps| ==>
      ps[i].blockNumber < ps[j].blockNumber
      || (ps[i].blockNumber == ps[j].blockNumber && ps[i].logIndex < ps[j].logIndex)
  }

  lemma AssembledAscends(ctx: Context, logs: seq<Log>)
    requires DistinctCandidates(logs)
    ensures StrictlyAscending(Assembled(ctx, logs).payments, PaymentPosition)
    ensures InLogOrder(Assembled(ctx, logs).payments)
  {
    PermutationKeepsDistinct(Candidates(logs), Sorted(Candidates(logs), LogPosition), LogPosition);
    WalkAscends(ctx, Nothing(), Sorted(Candidates(logs), LogPosition));
  }

  method CollectCandidates(logs: seq<Log>) returns (candidates: seq<Log>)
    ensures candidates == Candidates(logs)
  {
    candidates := [];
    for i := 0 to |logs|
      invariant candidates == Candidates(logs[..i])
    {
      assert logs[..i+1] == logs[..i] + [logs[i]];
      FilterAppend(logs[..i], [logs[i]], IsAuthorizationUsed);
      if logs[i].address != USDC_PROXY_BASE {
        continue;
      }
      if |logs[i].topics| == 0 || logs[i].topics[0] != AUTHORIZATION_USED_TOPIC {
        continue;
      }
      candidates := candidates + [logs[i]];
    }
    assert logs[..|logs|] == logs;
  }

  method JudgeCandidate(ctx: Context, l: Log, consumed: set<nat>) returns (o: Outcome)
    ensures o == Judge(ctx, l, consumed)
  {
    if l.txHash !in ctx.txs {
      return Dropped;
    }
    var tx := ctx.txs[l.txHash];
    if !KeepAuthorizationUsed(l, tx.input) {
      return Denied;
    }
    if l.txHash !in ctx.receipts {
      return Dropped;
    }
    var companion := PairCompanionTransfer(ctx.receipts[l.txHash], l.logIndex, consumed);
    if companion.None? {
      return Dropped;
    }
    var transfer := DecodeTransfer(companion.value);
    if transfer.None? {
      return Dropped;
    }
    var authorization := DecodeAuthorization(l);
    if authorization.None? {
      return Dropped;
    }
    if authorization.value.authorizer != transfer.value.from {
      return Dropped;
    }
    if l.blockNumber !in ctx.blocks {
      return Dropped;
    }
    var block := ctx.blocks[l.blockNumber];
    if block.timestamp > MAX_INT64 {
      return Dropped;
    }
    return Kept(companion.value, PaymentOf(l, authorization.value, transfer.value, tx, block));
  }

  method WalkCandidates(candidates: seq<Log>, ctx: Context) returns (out: seq<Payment>, stats: Stats)
    ensures out == Walk(ctx, Nothing(), candidates).payments
    ensures stats == Walk(ctx, Nothing(), candidates).stats
  {
    out, stats := [], Stats(0, 0, 0, 0);
    var consumedByTx: Claims := map[];
    for i := 0 to |candidates|
      invariant Walk(ctx, Assembly(out, stats, consumedByTx), candidates[i..]) == Walk(ctx, Nothing(), candidates)
    {
      var l := candidates[i];
      assert candidates[i..][0] == l && candidates[i..][1..] == candidates[i+1..];
      stats := stats.(authLogs := stats.authLogs + 1);
      var consumed := Claimed(consumedByTx, l.txHash);
      var outcome := JudgeCandidate(ctx, l, consumed);
      match outcome
      case Denied =>
        stats := stats.(denied := stats.denied + 1);
      case Dropped =>
        stats := stats.(dropped := stats.dropped + 1);
      case Kept(companion, payment) =>
        out := out + [payment];
        consumedByTx := consumedByTx[l.txHash := consumed + {companion.logIndex}];
        stats := stats.(kept := stats.kept + 1);
    }
  }

  method Assemble(logs: seq<Log>, ctx: Context) returns (out: seq<Payment>, stats: Stats)
    requires DistinctCandidates(logs)
    ensures out == Assembled(ctx, logs).payments
    ensures stats == Assembled(ctx, logs).stats
    ensures InLogOrder(out)
  {
    var unsorted := CollectCandidates(logs);
    var candidates := SortSlice(unsorted, LogPosition);
    PermutationKeepsDistinct(unsorted, candidates, LogPosition);
    SortedIsUnique(candidates, Sorted(unsorted, LogPosition), LogPosition);
    out, stats := WalkCandidates(candidates, ctx);
    AssembledAscends(ctx, logs);
    ghost var walked := out;
    out := SortSlice(out, PaymentPosition);
    SortedIsUnique(walked, out, PaymentPosition);
  }
}
