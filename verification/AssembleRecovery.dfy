/**
 Well-formed receipts are recovered in full: an authorization whose own Transfer is
 the next USDC Transfer of its receipt becomes a row against that very Transfer,
 whatever else the receipt and the batch contain.
 */
module AssembleRecovery {
  import opened Assembler
  import opened AssembleMoney
  import opened AssembleOrder
  import opened Chain
  import opened Positions

  ghost predicate CompleteContext(ctx: Context, x: Log) {
    && x.txHash in ctx.txs && |ctx.txs[x.txHash].input| >= 4
    && x.blockNumber in ctx.blocks && ctx.blocks[x.blockNumber].timestamp <= MAX_INT64
    && x.txHash in ctx.receipts && DistinctLogIndexes(ctx.receipts[x.txHash])
  }

  /** t is the Transfer x authorized, and no other USDC Transfer lies between them. */
  ghost predicate OwnTransfer(ctx: Context, x: Log, t: Log) {
    && IsNextTransfer(ctx, x, t, {})
    && PaidByAuthorizer(x, t)
  }

  /**
   own names the Transfer of every authorization to be recovered.  A candidate left
   out of own may be undecodable, incomplete, or followed by stray Transfers of its
   own payer; it only may not have authorized a Transfer that own gives to another.
   */
  ghost predicate WellFormed(ctx: Context, candidates: seq<Log>, own: map<Log, Log>) {
    && (forall x :: x in own ==> CompleteContext(ctx, x) && OwnTransfer(ctx, x, own[x]))
    && (forall x, y :: x in own && y in own && x != y && x.txHash == y.txHash ==>
          own[x].logIndex != own[y].logIndex)
    && (forall x, z :: x in own && z in candidates && z !in own && z.txHash == x.txHash ==>
          Mismatching(z, own[x]))
  }

  ghost predicate Mismatching(z: Log, t: Log) {
    z.logIndex < t.logIndex ==> !PaidByAuthorizer(z, t)
  }

  ghost predicate OwnStillFree(consumed: Claims, candidates: seq<Log>, own: map<Log, Log>) {
    forall x :: x in candidates && x in own ==> own[x].logIndex !in Claimed(consumed, x.txHash)
  }

  lemma OwnIsKept(ctx: Context, x: Log, t: Log, consumed: set<nat>)
    requires CompleteContext(ctx, x) && OwnTransfer(ctx, x, t) && t.logIndex !in consumed
    ensures var o := Judge(ctx, x, consumed);
            o.Kept? && o.companion == t
  {
    PaidByAuthorizerMeans(x, t);
    assert IsFreeLater(t, x, consumed);
    forall u | u in ctx.receipts[x.txHash] && IsFreeLater(u, x, consumed) ensures t.logIndex <= u.logIndex {
      assert IsFreeLater(u, x, {});
    }
    CompanionIsNext(ctx, x, t, consumed);
  }

  lemma MismatchSparesOwn(ctx: Context, z: Log, x: Log, t: Log, consumed: set<nat>)
    requires CompleteContext(ctx, x) && OwnTransfer(ctx, x, t) && z.txHash == x.txHash && Mismatching(z, t)
    ensures var o := Judge(ctx, z, consumed);
            o.Kept? ==> o.companion.logIndex != t.logIndex
  {
    var o := Judge(ctx, z, consumed);
    if o.Kept? && o.companion.logIndex == t.logIndex {
      assert o.companion == t;
      KeptIsReported(ctx, z, consumed);
    }
  }

  lemma StepLeavesOwnFree(ctx: Context, a: Assembly, candidates: seq<Log>, own: map<Log, Log>)
    requires candidates != [] && DistinctPositions(candidates, LogPosition)
    requires WellFormed(ctx, candidates, own) && OwnStillFree(a.consumed, candidates, own)
    ensures OwnStillFree(Step(ctx, a, candidates[0]).consumed, candidates[1..], own)
  {
    var l, claimed := candidates[0], Claimed(a.consumed, candidates[0].txHash);
    var o := Judge(ctx, l, claimed);
    forall x | x in candidates[1..] && x in own && x.txHash == l.txHash && o.Kept?
      ensures o.companion.logIndex != own[x].logIndex
    {
      if l in own {
        OwnIsKept(ctx, l, own[l], claimed);
        var k :| 0 <= k < |candidates[1..]| && candidates[1..][k] == x;
        assert LogPosition(candidates[k + 1]) != LogPosition(l);
      } else {
        MismatchSparesOwn(ctx, l, x, own[x], claimed);
      }
    }
    EnterLeavesFree(a, l.txHash, o, candidates[1..], own);
  }

  lemma EnterLeavesFree(a: Assembly, tx: Word, o: Outcome, rest: seq<Log>, own: map<Log, Log>)
    requires OwnStillFree(a.consumed, rest, own)
    requires forall x :: x in rest && x in own && x.txHash == tx && o.Kept? ==>
               o.companion.logIndex != own[x].logIndex
    ensures OwnStillFree(Enter(a, tx, o).consumed, rest, own)
  {
  }

  lemma {:induction false} WalkRecovers(ctx: Context, a: Assembly, candidates: seq<Log>, own: map<Log, Log>, x: Log)
    requires DistinctPositions(candidates, LogPosition)
    requires WellFormed(ctx, candidates, own) && OwnStillFree(a.consumed, candidates, own)
    requires x in candidates && x in own
    ensures exists b :: b in Bindings(ctx, a, candidates) && b.auth == x && b.companion == own[x]
    decreases |candidates|
  {
    var l, rest := candidates[0], candidates[1..];
    var o := Judge(ctx, l, Claimed(a.consumed, l.txHash));
    if x == l {
      OwnIsKept(ctx, x, own[x], Claimed(a.consumed, l.txHash));
      assert Bindings(ctx, a, candidates)[0] == Binding(l, o.companion, o.payment);
    } else {
      StepLeavesOwnFree(ctx, a, candidates, own);
      RestIsWellFormed(ctx, candidates, own);
      WalkRecovers(ctx, Step(ctx, a, l), rest, own, x);
      var b :| b in Bindings(ctx, Step(ctx, a, l), rest) && b.auth == x && b.companion == own[x];
      LaterBinding(ctx, a, candidates, b);
    }
  }

  lemma RestIsWellFormed(ctx: Context, candidates: seq<Log>, own: map<Log, Log>)
    requires candidates != [] && DistinctPositions(candidates, LogPosition) && WellFormed(ctx, candidates, own)
    ensures DistinctPositions(candidates[1..], LogPosition) && WellFormed(ctx, candidates[1..], own)
  {
  }

  lemma LaterBinding(ctx: Context, a: Assembly, candidates: seq<Log>, b: Binding)
    requires candidates != [] && b in Bindings(ctx, Step(ctx, a, candidates[0]), candidates[1..])
    ensures b in Bindings(ctx, a, candidates)
  {
  }

  lemma RowOfBinding(ctx: Context, a: Assembly, candidates: seq<Log>, b: Binding)
    requires b in Bindings(ctx, a, candidates)
    ensures b.payment in Rows(Bindings(ctx, a, candidates))
  {
    var bs := Bindings(ctx, a, candidates);
    var i :| 0 <= i < |bs| && bs[i] == b;
    assert Rows(bs)[i] == b.payment;
  }

  /** Some row of the authorization reports that very Transfer. */
  ghost predicate Recovered(ps: seq<Payment>, x: Log, t: Log) {
    exists p :: p in ps && p.txHash == x.txHash && p.blockNumber == x.blockNumber && p.logIndex == x.logIndex
                && EmitsTransfer(t, p.payer, p.payee, p.amountRaw)
  }

  /** Every authorization in own is kept, and with the amount and payee of its own Transfer. */
  lemma WellFormedReceiptsRecovered(ctx: Context, logs: seq<Log>, own: map<Log, Log>)
    requires DistinctCandidates(logs) && WellFormed(ctx, Candidates(logs), own)
    requires forall x :: x in own ==> x in logs
    ensures forall x :: x in own ==> Recovered(Assembled(ctx, logs).payments, x, own[x])
  {
    var s := Sorted(Candidates(logs), LogPosition);
    PermutationKeepsDistinct(Candidates(logs), s, LogPosition);
    forall l ensures l in s <==> l in Candidates(logs) {
      assert l in multiset(s) <==> l in multiset(Candidates(logs));
    }
    WalkWritesBindings(ctx, Nothing(), s);
    BindingsAreBacked(ctx, Nothing(), s);
    forall x | x in own ensures Recovered(Assembled(ctx, logs).payments, x, own[x]) {
      WalkRecovers(ctx, Nothing(), s, own, x);
      var b :| b in Bindings(ctx, Nothing(), s) && b.auth == x && b.companion == own[x];
      RowOfBinding(ctx, Nothing(), s, b);
    }
  }
}
