/**
 What the result of assembling a batch does not depend on: the order of its logs,
 the order inside its receipts, and where the batch was cut between transactions.
 */
module AssembleOrder {
  import opened Assembler
  import opened Chain
  import opened Positions

  /** log_index is unique within a receipt on the EVM. */
  ghost predicate DistinctLogIndexes(receipt: seq<Log>) {
    forall l, m :: l in receipt && m in receipt && l.logIndex == m.logIndex ==> l == m
  }

  /** The two contexts say the same about one log; receipts may list their logs in any order. */
  ghost predicate AgreeAt(c: Context, d: Context, l: Log) {
    && (l.txHash in c.txs <==> l.txHash in d.txs)
    && (l.txHash in c.txs ==> c.txs[l.txHash] == d.txs[l.txHash])
    && (l.blockNumber in c.blocks <==> l.blockNumber in d.blocks)
    && (l.blockNumber in c.blocks ==> c.blocks[l.blockNumber] == d.blocks[l.blockNumber])
    && (l.txHash in c.receipts <==> l.txHash in d.receipts)
    && (l.txHash in c.receipts ==>
          && multiset(c.receipts[l.txHash]) == multiset(d.receipts[l.txHash])
          && DistinctLogIndexes(c.receipts[l.txHash]))
  }

  ghost predicate Agree(c: Context, d: Context, logs: seq<Log>) {
    forall l :: l in logs ==> AgreeAt(c, d, l)
  }

  lemma CompanionIgnoresOrder(r: seq<Log>, s: seq<Log>, after: nat, consumed: set<nat>)
    requires multiset(r) == multiset(s) && DistinctLogIndexes(r)
    ensures Companion(r, after, consumed) == Companion(s, after, consumed)
  {
    forall l ensures l in r <==> l in s {
      assert l in r <==> l in multiset(r);
      assert l in s <==> l in multiset(s);
    }
  }

  lemma JudgeAgrees(c: Context, d: Context, l: Log, consumed: set<nat>)
    requires AgreeAt(c, d, l)
    ensures Judge(c, l, consumed) == Judge(d, l, consumed)
  {
    if l.txHash in c.receipts {
      CompanionIgnoresOrder(c.receipts[l.txHash], d.receipts[l.txHash], l.logIndex, consumed);
    }
  }

  lemma {:induction false} WalkAgrees(c: Context, d: Context, a: Assembly, candidates: seq<Log>)
    requires Agree(c, d, candidates)
    ensures Walk(c, a, candidates) == Walk(d, a, candidates)
    decreases |candidates|
  {
    if candidates != [] {
      JudgeAgrees(c, d, candidates[0], Claimed(a.consumed, candidates[0].txHash));
      WalkAgrees(c, d, Step(c, a, candidates[0]), candidates[1..]);
    }
  }

  lemma SortedCandidatesPermute(logs: seq<Log>, others: seq<Log>)
    requires multiset(logs) == multiset(others) && DistinctCandidates(logs)
    ensures DistinctCandidates(others)
    ensures Sorted(Candidates(logs), LogPosition) == Sorted(Candidates(others), LogPosition)
  {
    FilterKeepsMultiset(logs, others, IsAuthorizationUsed);
    PermutationKeepsDistinct(Candidates(logs), Candidates(others), LogPosition);
    PermutationKeepsDistinct(Candidates(logs), Sorted(Candidates(logs), LogPosition), LogPosition);
    SortedIsUnique(Sorted(Candidates(logs), LogPosition), Sorted(Candidates(others), LogPosition), LogPosition);
  }

  lemma SortedCandidatesAreLogs(logs: seq<Log>)
    ensures forall l :: l in Sorted(Candidates(logs), LogPosition) ==> l in logs && IsAuthorizationUsed(l)
  {
    var s := Sorted(Candidates(logs), LogPosition);
    forall l | l in s ensures l in Candidates(logs) {
      assert l in multiset(s);
    }
  }

  /** Shuffling the logs and the receipt slices changes no payment and no statistic. */
  lemma AssembleIgnoresOrder(c: Context, d: Context, logs: seq<Log>, others: seq<Log>)
    requires multiset(logs) == multiset(others) && DistinctCandidates(logs) && Agree(c, d, logs)
    ensures Assembled(c, logs) == Assembled(d, others)
  {
    SortedCandidatesPermute(logs, others);
    SortedCandidatesAreLogs(logs);
    WalkAgrees(c, d, Nothing(), Sorted(Candidates(logs), LogPosition));
  }

  lemma {:induction false} WalkCounts(ctx: Context, a: Assembly, candidates: seq<Log>)
    ensures var w := Walk(ctx, a, candidates);
            && w.stats.authLogs == a.stats.authLogs + |candidates|
            && w.stats.authLogs - (w.stats.denied + w.stats.kept + w.stats.dropped)
               == a.stats.authLogs - (a.stats.denied + a.stats.kept + a.stats.dropped)
            && |w.payments| - w.stats.kept == |a.payments| - a.stats.kept
            && ((forall l :: l in candidates ==> IsAuthorizationUsed(l)) ==>
                  w.stats.denied == a.stats.denied + |Filter(candidates, TooShort(ctx))|)
    decreases |candidates|
  {
    if candidates != [] {
      assert candidates == [candidates[0]] + candidates[1..];
      WalkCounts(ctx, Step(ctx, a, candidates[0]), candidates[1..]);
    }
  }

  lemma FilteredCount(a: seq<Log>, b: seq<Log>, keep: Log -> bool)
    requires multiset(Filter(a, keep)) == multiset(Filter(b, keep))
    ensures |Filter(a, keep)| == |Filter(b, keep)|
  {
    assert |Filter(a, keep)| == |multiset(Filter(a, keep))|;
    assert |Filter(b, keep)| == |multiset(Filter(b, keep))|;
  }

  /** The parent transaction's calldata holds no selector. */
  function TooShort(ctx: Context): Log -> bool {
    (l: Log) => l.txHash in ctx.txs && |ctx.txs[l.txHash].input| < 4
  }

  /**
   AuthLogs == Denied + Kept + Dropped; every candidate is counted once, every kept one is
   a row, and the denied ones are those without a selector.
   */
  lemma StatsAddUp(ctx: Context, logs: seq<Log>)
    ensures var w := Assembled(ctx, logs);
            && w.stats.authLogs == w.stats.denied + w.stats.kept + w.stats.dropped
            && w.stats.authLogs == |Candidates(logs)|
            && |w.payments| == w.stats.kept
            && w.stats.denied == |Filter(Candidates(logs), TooShort(ctx))|
  {
    var s := Sorted(Candidates(logs), LogPosition);
    assert |s| == |multiset(s)| == |multiset(Candidates(logs))|;
    SortedCandidatesAreLogs(logs);
    WalkCounts(ctx, Nothing(), s);
    FilterKeepsMultiset(s, Candidates(logs), TooShort(ctx));
    FilteredCount(s, Candidates(logs), TooShort(ctx));
  }

  // ----- cutting a batch in two between transactions

  function HasHash(tx: Word): Log -> bool {
    (l: Log) => l.txHash == tx
  }

  function AddStats(s: Stats, t: Stats): Stats {
    Stats(s.authLogs + t.authLogs, s.denied + t.denied, s.kept + t.kept, s.dropped + t.dropped)
  }

  /** The state of a joint walk is the two separate walks' states side by side. */
  ghost predicate Joined(whole: Assembly, left: Assembly, right: Assembly, isLeft: Word -> bool) {
    && multiset(whole.payments) == multiset(left.payments) + multiset(right.payments)
    && whole.stats == AddStats(left.stats, right.stats)
    && forall tx: Word :: Claimed(whole.consumed, tx)
                          == Claimed((if isLeft(tx) then left else right).consumed, tx)
  }

  ghost predicate Sides(isLeft: Word -> bool, onLeft: Log -> bool, onRight: Log -> bool) {
    forall l :: onLeft(l) == isLeft(l.txHash) && onRight(l) == !isLeft(l.txHash)
  }

  lemma EnterLeft(whole: Assembly, left: Assembly, right: Assembly, tx: Word, o: Outcome, isLeft: Word -> bool)
    requires Joined(whole, left, right, isLeft) && isLeft(tx)
    ensures Joined(Enter(whole, tx, o), Enter(left, tx, o), right, isLeft)
  {
    assert Claimed(whole.consumed, tx) == Claimed(left.consumed, tx);
    EnterClaims(whole, tx, o);
    EnterClaims(left, tx, o);
  }

  lemma EnterRight(whole: Assembly, left: Assembly, right: Assembly, tx: Word, o: Outcome, isLeft: Word -> bool)
    requires Joined(whole, left, right, isLeft) && !isLeft(tx)
    ensures Joined(Enter(whole, tx, o), left, Enter(right, tx, o), isLeft)
  {
    assert Claimed(whole.consumed, tx) == Claimed(right.consumed, tx);
    EnterClaims(whole, tx, o);
    EnterClaims(right, tx, o);
  }

  lemma EnterClaims(a: Assembly, tx: Word, o: Outcome)
    ensures forall x: Word :: Claimed(Enter(a, tx, o).consumed, x) ==
              Claimed(a.consumed, x) + if o.Kept? && x == tx then {o.companion.logIndex} else {}
  {
  }

  lemma {:induction false} WalkSplits(c: Context, whole: Assembly, left: Assembly, right: Assembly,
                                      candidates: seq<Log>,
                                      isLeft: Word -> bool, onLeft: Log -> bool, onRight: Log -> bool)
    requires Joined(whole, left, right, isLeft) && Sides(isLeft, onLeft, onRight)
    ensures Joined(Walk(c, whole, candidates),
                   Walk(c, left, Filter(candidates, onLeft)), Walk(c, right, Filter(candidates, onRight)), isLeft)
    decreases |candidates|
  {
    if candidates != [] {
      var l, rest := candidates[0], candidates[1..];
      var o := Judge(c, l, Claimed(whole.consumed, l.txHash));
      if isLeft(l.txHash) {
        assert Filter(candidates, onRight) == Filter(rest, onRight);
        assert Filter(candidates, onLeft)[1..] == Filter(rest, onLeft);
        EnterLeft(whole, left, right, l.txHash, o, isLeft);
        WalkSplits(c, Step(c, whole, l), Step(c, left, l), right, rest, isLeft, onLeft, onRight);
      } else {
        assert Filter(candidates, onLeft) == Filter(rest, onLeft);
        assert Filter(candidates, onRight)[1..] == Filter(rest, onRight);
        EnterRight(whole, left, right, l.txHash, o, isLeft);
        WalkSplits(c, Step(c, whole, l), left, Step(c, right, l), rest, isLeft, onLeft, onRight);
      }
    }
  }

  lemma FilterIsAscending<T(!new)>(s: seq<T>, keep: T -> bool, pos: T -> Position)
    requires Ascending(s, pos)
    ensures Ascending(Filter(s, keep), pos)
  {
    if s != [] {
      FilterIsAscending(s[1..], keep, pos);
      var rest := Filter(s[1..], keep);
      forall k | 0 <= k < |rest| ensures !Before(pos(rest[k]), pos(s[0])) {
        assert rest[k] in s[1..];
      }
      AscendingCons(s[0], rest, pos);
    }
  }

  /** Sorting one side's candidates is what that side contributes to the joint order. */
  lemma SideOfSorted(logs: seq<Log>, left: seq<Log>, right: seq<Log>, keep: Log -> bool)
    requires multiset(logs) == multiset(left) + multiset(right) && DistinctCandidates(logs)
    requires forall l :: l in left ==> keep(l)
    requires forall l :: l in right ==> !keep(l)
    ensures Filter(Sorted(Candidates(logs), LogPosition), keep) == Sorted(Candidates(left), LogPosition)
  {
    var all := Sorted(Candidates(logs), LogPosition);
    PermutationKeepsDistinct(Candidates(logs), all, LogPosition);
    FilterKeepsMultiset(all, Candidates(logs), keep);
    FilterKeepsMultiset(logs, left + right, IsAuthorizationUsed);
    FilterAppend(left, right, IsAuthorizationUsed);
    FilterKeepsMultiset(Candidates(logs), Candidates(left) + Candidates(right), keep);
    FilterAppend(Candidates(left), Candidates(right), keep);
    FilterAll(Candidates(left), keep);
    FilterNone(Candidates(right), keep);
    assert Candidates(left) + [] == Candidates(left);
    FilterIsAscending(all, keep, LogPosition);
    FilterIsDistinct(all, keep, LogPosition);
    SortedIsUnique(Filter(all, keep), Sorted(Candidates(left), LogPosition), LogPosition);
  }

  lemma FilterIsDistinct<T(!new)>(s: seq<T>, keep: T -> bool, pos: T -> Position)
    requires DistinctPositions(s, pos)
    ensures DistinctPositions(Filter(s, keep), pos)
  {
    if s != [] {
      FilterIsDistinct(s[1..], keep, pos);
      var rest := Filter(s[1..], keep);
      forall k | 0 <= k < |rest| ensures pos(rest[k]) != pos(s[0]) {
        assert rest[k] in s[1..];
      }
    }
  }

  /**
   Assembling two parts that share no transaction, each with its own context, gives
   together exactly the rows and the four statistics of assembling them at once.
   Both outputs are strictly ascending, so merging the parts is the whole output.
   */
  lemma AssembleIgnoresCut(c: Context, cl: Context, cr: Context, logs: seq<Log>, left: seq<Log>, right: seq<Log>)
    requires multiset(logs) == multiset(left) + multiset(right) && DistinctCandidates(logs)
    requires forall l, m :: l in left && m in right ==> l.txHash != m.txHash
    requires Agree(c, cl, left) && Agree(c, cr, right)
    ensures multiset(Assembled(c, logs).payments)
            == multiset(Assembled(cl, left).payments) + multiset(Assembled(cr, right).payments)
    ensures Assembled(c, logs).stats == AddStats(Assembled(cl, left).stats, Assembled(cr, right).stats)
    ensures StrictlyAscending(Assembled(c, logs).payments, PaymentPosition)
  {
    assert multiset(Assembled(c, logs).payments)
           == multiset(Assembled(c, left).payments) + multiset(Assembled(c, right).payments)
           && Assembled(c, logs).stats == AddStats(Assembled(c, left).stats, Assembled(c, right).stats) by {
      var _ := CutWalk(c, logs, left, right);
    }
    assert Assembled(c, left) == Assembled(cl, left) by { SideAgrees(c, cl, left); }
    assert Assembled(c, right) == Assembled(cr, right) by { SideAgrees(c, cr, right); }
    AssembledAscends(c, logs);
  }

  lemma CutWalk(c: Context, logs: seq<Log>, left: seq<Log>, right: seq<Log>)
    returns (isLeft: Word -> bool)
    requires multiset(logs) == multiset(left) + multiset(right) && DistinctCandidates(logs)
    requires forall l, m :: l in left && m in right ==> l.txHash != m.txHash
    ensures Joined(Assembled(c, logs), Assembled(c, left), Assembled(c, right), isLeft)
  {
    var hashes := set l | l in left :: l.txHash;
    isLeft := (tx: Word) => tx in hashes;
    var onLeft, onRight := (l: Log) => l.txHash in hashes, (l: Log) => l.txHash !in hashes;
    var all := Sorted(Candidates(logs), LogPosition);
    assert Filter(all, onLeft) == Sorted(Candidates(left), LogPosition) by {
      SideOfSorted(logs, left, right, onLeft);
    }
    assert Filter(all, onRight) == Sorted(Candidates(right), LogPosition) by {
      assert multiset(logs) == multiset(right) + multiset(left);
      SideOfSorted(logs, right, left, onRight);
    }
    WalkSplitsFromNothing(c, all, isLeft, onLeft, onRight);
  }

  lemma WalkSplitsFromNothing(c: Context, candidates: seq<Log>,
                              isLeft: Word -> bool, onLeft: Log -> bool, onRight: Log -> bool)
    requires Sides(isLeft, onLeft, onRight)
    ensures Joined(Walk(c, Nothing(), candidates), Walk(c, Nothing(), Filter(candidates, onLeft)),
                   Walk(c, Nothing(), Filter(candidates, onRight)), isLeft)
  {
    assert Joined(Nothing(), Nothing(), Nothing(), isLeft);
    WalkSplits(c, Nothing(), Nothing(), Nothing(), candidates, isLeft, onLeft, onRight);
  }

  lemma SideAgrees(c: Context, d: Context, logs: seq<Log>)
    requires Agree(c, d, logs)
    ensures Assembled(c, logs) == Assembled(d, logs)
  {
    SortedCandidatesAreLogs(logs);
    WalkAgrees(c, d, Nothing(), Sorted(Candidates(logs), LogPosition));
  }
}
