/** The second output of a batch: authorizations their payer cancelled before use. */
module Cancellations {
  import opened Assembler
  import opened Chain
  import opened Positions
  import opened Wrappers

  datatype Cancellation = Cancellation(
    txHash: Word,
    logIndex: nat,
    authorizer: Address,
    nonce: Word,
    blockNumber: nat,
    blockTime: nat,
    transactionFrom: Address)

  function CancellationOf(ctx: Context, l: Log): Option<Cancellation> {
    if !IsUsdcEvent(l, AUTHORIZATION_CANCELED_TOPIC) then None
    else if DecodeAuthorization(l).None? then None
    else if l.txHash !in ctx.txs || l.blockNumber !in ctx.blocks then None
    else if ctx.blocks[l.blockNumber].timestamp > MAX_INT64 then None
    else
      var a := DecodeAuthorization(l).value;
      Some(Cancellation(l.txHash, l.logIndex, a.authorizer, a.nonce, l.blockNumber,
                        ctx.blocks[l.blockNumber].timestamp, ctx.txs[l.txHash].from))
  }

  /** The row reports the event, its block and its transaction. */
  predicate Records(ctx: Context, l: Log, c: Cancellation) {
    && EmitsAuthorization(l, AUTHORIZATION_CANCELED_TOPIC, c.authorizer, c.nonce)
    && c.txHash == l.txHash && c.logIndex == l.logIndex && c.blockNumber == l.blockNumber
    && l.txHash in ctx.txs && c.transactionFrom == ctx.txs[l.txHash].from
    && l.blockNumber in ctx.blocks && c.blockTime == ctx.blocks[l.blockNumber].timestamp <= MAX_INT64
  }

  lemma CancellationMeans(ctx: Context, l: Log, c: Cancellation)
    ensures CancellationOf(ctx, l) == Some(c) <==> Records(ctx, l, c)
  {
    AuthorizationMeans(l, AUTHORIZATION_CANCELED_TOPIC, c.authorizer, c.nonce);
  }

  /** There is a row for a log just when it records a cancellation with its context. */
  lemma ExtractedAreRecorded(ctx: Context, logs: seq<Log>, c: Cancellation)
    ensures c in Extracted(ctx, logs) <==> exists l :: l in logs && Records(ctx, l, c)
  {
    forall l ensures CancellationOf(ctx, l) == Some(c) <==> Records(ctx, l, c) {
      CancellationMeans(ctx, l, c);
    }
  }

  /** A cancellation on the USDC contract whose transaction and block are known, the timestamp in range. */
  function Cancels(ctx: Context): Log -> bool {
    (l: Log) =>
      && l.address == USDC_PROXY_BASE && |l.topics| == 3 && l.topics[0] == AUTHORIZATION_CANCELED_TOPIC
      && l.txHash in ctx.txs && l.blockNumber in ctx.blocks && ctx.blocks[l.blockNumber].timestamp <= MAX_INT64
  }

  ghost predicate RecordsEach(ctx: Context, logs: seq<Log>, rows: seq<Cancellation>) {
    |rows| == |logs| && forall i :: 0 <= i < |rows| ==> Records(ctx, logs[i], rows[i])
  }

  lemma CancelsMeans(ctx: Context, l: Log)
    ensures var c := CancellationOf(ctx, l);
            (c.Some? <==> Cancels(ctx)(l)) && (c.Some? ==> Records(ctx, l, c.value))
  {
    var c := CancellationOf(ctx, l);
    if c.Some? {
      CancellationMeans(ctx, l, c.value);
    }
  }

  /** One row for each of these logs, in their order. */
  lemma {:induction false} ExtractedInOrder(ctx: Context, logs: seq<Log>)
    ensures RecordsEach(ctx, Filter(logs, Cancels(ctx)), Extracted(ctx, logs))
  {
    if logs != [] {
      var front, l := logs[..|logs|-1], logs[|logs|-1];
      ExtractedInOrder(ctx, front);
      FilterAppend(front, [l], Cancels(ctx));
      CancelsMeans(ctx, l);
      assert logs == front + [l] && [l][1..] == [];
    }
  }

  function Extracted(ctx: Context, logs: seq<Log>): (r: seq<Cancellation>)
    ensures forall c :: c in r <==> exists l :: l in logs && CancellationOf(ctx, l) == Some(c)
  {
    if logs == [] then []
    else
      var c := CancellationOf(ctx, logs[|logs|-1]);
      assert logs == logs[..|logs|-1] + [logs[|logs|-1]];
      Extracted(ctx, logs[..|logs|-1]) + if c.Some? then [c.value] else []
  }

  method ExtractCancellations(logs: seq<Log>, ctx: Context) returns (out: seq<Cancellation>)
    ensures out == Extracted(ctx, logs)
  {
    out := [];
    for i := 0 to |logs|
      invariant out == Extracted(ctx, logs[..i])
    {
      var l := logs[i];
      assert logs[..i+1][..i] == logs[..i];
      if l.address != USDC_PROXY_BASE {
        continue;
      }
      if |l.topics| == 0 || l.topics[0] != AUTHORIZATION_CANCELED_TOPIC {
        continue;
      }
      var a := DecodeAuthorization(l);
      if a.None? {
        continue;
      }
      if l.txHash !in ctx.txs {
        continue;
      }
      if l.blockNumber !in ctx.blocks {
        continue;
      }
      var block := ctx.blocks[l.blockNumber];
      if block.timestamp > MAX_INT64 {
        continue;
      }
      out := out + [Cancellation(l.txHash, l.logIndex, a.value.authorizer, a.value.nonce, l.blockNumber,
                                 block.timestamp, ctx.txs[l.txHash].from)];
    }
    assert logs[..|logs|] == logs;
  }
}
