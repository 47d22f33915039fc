/**
 No invented money: every row written is backed by a Transfer of its own.
 */
module AssembleMoney {
  import opened Assembler
  import opened Chain
  import opened Positions

  /** One kept authorization, the Transfer it claimed and the row it became. */
  datatype Binding = Binding(auth: Log, companion: Log, payment: Payment)

  function Bindings(ctx: Context, a: Assembly, candidates: seq<Log>): seq<Binding>
    decreases |candidates|
  {
    if candidates == [] then []
    else
      var l := candidates[0];
      var o := Judge(ctx, l, Claimed(a.consumed, l.txHash));
      (if o.Kept? then [Binding(l, o.companion, o.payment)] else [])
      + Bindings(ctx, Step(ctx, a, l), candidates[1..])
  }

  function Rows(bindings: seq<Binding>): (ps: seq<Payment>)
    ensures |ps| == |bindings| && forall i :: 0 <= i < |ps| ==> ps[i] == bindings[i].payment
  {
    seq(|bindings|, i requires 0 <= i < |bindings| => bindings[i].payment)
  }

  /** The row reports a Transfer that comes later in the same receipt, paid by the authorizer. */
  predicate Backed(ctx: Context, b: Binding) {
    && b.auth.txHash in ctx.receipts
    && b.companion in ctx.receipts[b.auth.txHash]
    && b.companion.logIndex > b.auth.logIndex
    && HasContext(ctx, b.auth) && Reports(ctx, b.auth, b.companion, b.payment)
  }

  /** A transaction is mined in one block, so its logs all carry that block's number. */
  ghost predicate OneBlockEach(logs: seq<Log>) {
    forall l, m :: l in logs && m in logs && l.txHash == m.txHash ==> l.blockNumber == m.blockNumber
  }

  lemma RowsCons(b: Binding, tail: seq<Binding>)
    ensures Rows([b] + tail) == [b.payment] + Rows(tail)
  {
  }

  lemma StepWrites(ctx: Context, a: Assembly, l: Log)
    ensures var o := Judge(ctx, l, Claimed(a.consumed, l.txHash));
            Step(ctx, a, l).payments == a.payments + if o.Kept? then [o.payment] else []
  {
  }

  lemma {:induction false} WalkWritesBindings(ctx: Context, a: Assembly, candidates: seq<Log>)
    ensures Walk(ctx, a, candidates).payments == a.payments + Rows(Bindings(ctx, a, candidates))
    decreases |candidates|
  {
    if candidates != [] {
      var l, rest := candidates[0], candidates[1..];
      var next := Step(ctx, a, l);
      StepWrites(ctx, a, l);
      WalkWritesBindings(ctx, next, rest);
      var o := Judge(ctx, l, Claimed(a.consumed, l.txHash));
      if o.Kept? {
        RowsCons(Binding(l, o.companion, o.payment), Bindings(ctx, next, rest));
        RowsJoin(a.payments, o.payment, Rows(Bindings(ctx, next, rest)));
      }
    }
  }

  lemma RowsJoin(before: seq<Payment>, p: Payment, rest: seq<Payment>)
    ensures (before + [p]) + rest == before + ([p] + rest)
  {
  }

  lemma {:induction false} BindingsAreBacked(ctx: Context, a: Assembly, candidates: seq<Log>)
    ensures forall b :: b in Bindings(ctx, a, candidates) ==>
              Backed(ctx, b) && b.auth in candidates
              && b.companion.logIndex !in Claimed(a.consumed, b.auth.txHash)
    decreases |candidates|
  {
    if candidates != [] {
      var l := candidates[0];
      BindingsAreBacked(ctx, Step(ctx, a, l), candidates[1..]);
      KeptIsBacked(ctx, l, Claimed(a.consumed, l.txHash));
    }
  }

  lemma KeptIsBacked(ctx: Context, l: Log, consumed: set<nat>)
    ensures var o := Judge(ctx, l, consumed);
            o.Kept? ==> Backed(ctx, Binding(l, o.companion, o.payment)) && o.companion.logIndex !in consumed
  {
    if Judge(ctx, l, consumed).Kept? {
      KeptIsReported(ctx, l, consumed);
    }
  }

  ghost predicate TakesRise(bs: seq<Binding>) {
    forall i, j :: 0 <= i < j < |bs| && bs[i].auth.txHash == bs[j].auth.txHash ==>
      bs[i].companion.logIndex < bs[j].companion.logIndex
  }

  lemma EnterClaims(a: Assembly, tx: Word, o: Outcome)
    ensures Claimed(a.consumed, tx) <= Claimed(Enter(a, tx, o).consumed, tx)
    ensures o.Kept? ==> o.companion.logIndex in Claimed(Enter(a, tx, o).consumed, tx)
  {
  }

  lemma HeadIsEarlier(candidates: seq<Log>, l: Log)
    requires StrictlyAscending(candidates, LogPosition) && OneBlockEach(candidates) && candidates != []
    requires l in candidates[1..] && l.txHash == candidates[0].txHash
    ensures candidates[0].logIndex < l.logIndex
  {
    var k :| 0 <= k < |candidates[1..]| && candidates[1..][k] == l;
    assert Before(LogPosition(candidates[0]), LogPosition(candidates[k + 1]));
    assert candidates[0] in candidates && l in candidates;
  }

  lemma HeadTakesLess(ctx: Context, a: Assembly, candidates: seq<Log>, b: Binding)
    requires StrictlyAscending(candidates, LogPosition) && OneBlockEach(candidates) && candidates != []
    requires var l := candidates[0];
             && b in Bindings(ctx, Step(ctx, a, l), candidates[1..]) && b.auth.txHash == l.txHash
    ensures var o := Judge(ctx, candidates[0], Claimed(a.consumed, candidates[0].txHash));
            o.Kept? ==> o.companion.logIndex < b.companion.logIndex
  {
    var l, claimed := candidates[0], Claimed(a.consumed, candidates[0].txHash);
    var o := Judge(ctx, l, claimed);
    BindingsAreBacked(ctx, Step(ctx, a, l), candidates[1..]);
    assert Backed(ctx, b) && b.auth in candidates[1..];
    EnterClaims(a, l.txHash, o);
    HeadIsEarlier(candidates, b.auth);
    if o.Kept? {
      KeptTakesLess(ctx, l, claimed, b);
    }
  }

  /** A Transfer that a later authorization took, and this one did not, comes after the one it took. */
  lemma KeptTakesLess(ctx: Context, l: Log, claimed: set<nat>, b: Binding)
    requires Judge(ctx, l, claimed).Kept? && Backed(ctx, b) && b.auth.txHash == l.txHash
    requires l.logIndex < b.auth.logIndex && b.companion.logIndex !in claimed
    requires b.companion.logIndex != Judge(ctx, l, claimed).companion.logIndex
    ensures Judge(ctx, l, claimed).companion.logIndex < b.companion.logIndex
  {
    assert Eligible(b.companion, l.logIndex, claimed);
  }

  lemma TakesRiseCons(b: Binding, tail: seq<Binding>)
    requires TakesRise(tail)
    requires forall t :: t in tail && t.auth.txHash == b.auth.txHash ==> b.companion.logIndex < t.companion.logIndex
    ensures TakesRise([b] + tail)
  {
  }

  lemma {:induction false} BindingsKeepOrder(ctx: Context, a: Assembly, candidates: seq<Log>)
    requires StrictlyAscending(candidates, LogPosition) && OneBlockEach(candidates)
    ensures TakesRise(Bindings(ctx, a, candidates))
    decreases |candidates|
  {
    if candidates != [] {
      var l, next := candidates[0], Step(ctx, a, candidates[0]);
      BindingsKeepOrder(ctx, next, candidates[1..]);
      var tail := Bindings(ctx, next, candidates[1..]);
      var o := Judge(ctx, l, Claimed(a.consumed, l.txHash));
      if o.Kept? {
        forall b | b in tail && b.auth.txHash == l.txHash ensures o.companion.logIndex < b.companion.logIndex {
          HeadTakesLess(ctx, a, candidates, b);
        }
        TakesRiseCons(Binding(l, o.companion, o.payment), tail);
      } else {
        assert Bindings(ctx, a, candidates) == tail;
      }
    }
  }

  /** USDC sent by one payer inside one transaction, as the rows report it. */
  function Paid(ps: seq<Payment>, tx: Word, payer: Address): nat {
    if ps == [] then 0
    else
      var p := ps[|ps|-1];
      Paid(ps[..|ps|-1], tx, payer) + if p.txHash == tx && p.payer == payer then p.amountRaw else 0
  }

  predicate SentBy(l: Log, payer: Address) {
    IsUsdcTransfer(l) && DecodeTransfer(l).Some? && DecodeTransfer(l).value.from == payer
  }

  /** USDC a receipt's Transfers move out of one account, those already claimed left out. */
  function Sent(receipt: seq<Log>, payer: Address, claimed: set<nat>): nat {
    if receipt == [] then 0
    else
      var l := receipt[0];
      (if SentBy(l, payer) && l.logIndex !in claimed then DecodeTransfer(l).value.value else 0)
      + Sent(receipt[1..], payer, claimed)
  }

  lemma {:induction false} ClaimingSpends(receipt: seq<Log>, payer: Address, claimed: set<nat>, c: Log)
    ensures Sent(receipt, payer, claimed + {c.logIndex}) <= Sent(receipt, payer, claimed)
    ensures c in receipt && SentBy(c, payer) && c.logIndex !in claimed ==>
              Sent(receipt, payer, claimed + {c.logIndex}) + DecodeTransfer(c).value.value
              <= Sent(receipt, payer, claimed)
  {
    if receipt != [] {
      ClaimingSpends(receipt[1..], payer, claimed, c);
    }
  }

  lemma {:induction false} PaidPlusUnclaimed(ctx: Context, a: Assembly, candidates: seq<Log>, tx: Word, payer: Address)
    requires tx in ctx.receipts
    ensures var w := Walk(ctx, a, candidates);
            Paid(w.payments, tx, payer) + Sent(ctx.receipts[tx], payer, Claimed(w.consumed, tx))
            <= Paid(a.payments, tx, payer) + Sent(ctx.receipts[tx], payer, Claimed(a.consumed, tx))
    decreases |candidates|
  {
    if candidates != [] {
      var l := candidates[0];
      var o := Judge(ctx, l, Claimed(a.consumed, l.txHash));
      if o.Kept? && l.txHash == tx {
        ClaimingSpends(ctx.receipts[tx], payer, Claimed(a.consumed, tx), o.companion);
        assert (a.payments + [o.payment])[..|a.payments|] == a.payments;
      } else if o.Kept? {
        assert (a.payments + [o.payment])[..|a.payments|] == a.payments;
      }
      PaidPlusUnclaimed(ctx, Step(ctx, a, l), candidates[1..], tx, payer);
    }
  }

  lemma {:induction false} NoReceiptNoRows(ctx: Context, a: Assembly, candidates: seq<Log>, tx: Word, payer: Address)
    requires tx !in ctx.receipts
    ensures Paid(Walk(ctx, a, candidates).payments, tx, payer) == Paid(a.payments, tx, payer)
    decreases |candidates|
  {
    if candidates != [] {
      var l := candidates[0];
      var o := Judge(ctx, l, Claimed(a.consumed, l.txHash));
      if o.Kept? {
        assert (a.payments + [o.payment])[..|a.payments|] == a.payments;
      }
      NoReceiptNoRows(ctx, Step(ctx, a, l), candidates[1..], tx, payer);
    }
  }

  /**
   The rows of a batch are, one for one, bindings that are each Backed; within a
   transaction later rows take strictly later Transfers, so no Transfer backs two;
   and no payer is reported to have paid more than their Transfers moved.
   */
  lemma NoInventedMoney(ctx: Context, logs: seq<Log>)
    requires DistinctCandidates(logs) && OneBlockEach(Candidates(logs))
    ensures var bs := Bindings(ctx, Nothing(), Sorted(Candidates(logs), LogPosition));
            && Assembled(ctx, logs).payments == Rows(bs)
            && (forall b :: b in bs ==> Backed(ctx, b) && b.auth in logs)
            && TakesRise(bs)
    ensures forall tx: Word, payer: Address :: Paid(Assembled(ctx, logs).payments, tx, payer)
              <= if tx in ctx.receipts then Sent(ctx.receipts[tx], payer, {}) else 0
  {
    RowsAreBound(ctx, logs);
    forall tx: Word, payer: Address
      ensures Paid(Assembled(ctx, logs).payments, tx, payer)
              <= if tx in ctx.receipts then Sent(ctx.receipts[tx], payer, {}) else 0
    {
      PaidIsSent(ctx, logs, tx, payer);
    }
  }

  lemma RowsAreBound(ctx: Context, logs: seq<Log>)
    requires DistinctCandidates(logs) && OneBlockEach(Candidates(logs))
    ensures var bs := Bindings(ctx, Nothing(), Sorted(Candidates(logs), LogPosition));
            && Assembled(ctx, logs).payments == Rows(bs)
            && (forall b :: b in bs ==> Backed(ctx, b) && b.auth in logs)
            && TakesRise(bs)
  {
    var s := Sorted(Candidates(logs), LogPosition);
    PermutationKeepsDistinct(Candidates(logs), s, LogPosition);
    forall l | l in s ensures l in Candidates(logs) {
      assert l in multiset(s);
    }
    WalkWritesBindings(ctx, Nothing(), s);
    BindingsAreBacked(ctx, Nothing(), s);
    BindingsKeepOrder(ctx, Nothing(), s);
  }

  lemma PaidIsSent(ctx: Context, logs: seq<Log>, tx: Word, payer: Address)
    ensures Paid(Assembled(ctx, logs).payments, tx, payer)
         <= if tx in ctx.receipts then Sent(ctx.receipts[tx], payer, {}) else 0
  {
    var s := Sorted(Candidates(logs), LogPosition);
    if tx in ctx.receipts {
      PaidPlusUnclaimed(ctx, Nothing(), s, tx, payer);
    } else {
      NoReceiptNoRows(ctx, Nothing(), s, tx, payer);
    }
  }
}
