/**
 Giving each authorization the lowest free later Transfer loses nothing: no other
 way of pairing the authorizations of one payer's receipt keeps more of them.
 */
module AssembleGreedy {
  import opened Assembler
  import opened AssembleMoney
  import opened AssembleOrder
  import opened Chain
  import opened Positions

  function Later(transfers: set<nat>, after: nat): set<nat> {
    set t | t in transfers && t > after
  }

  ghost predicate IsLeast(m: nat, s: set<nat>) {
    m in s && forall x :: x in s ==> m <= x
  }

  /** The pairing the walk makes, on log indexes alone. */
  ghost function GreedyPairs(auths: seq<nat>, transfers: set<nat>): map<nat, nat> {
    if auths == [] then map[]
    else if Later(transfers, auths[0]) == {} then GreedyPairs(auths[1..], transfers)
    else
      LeastExists(Later(transfers, auths[0]));
      var m :| IsLeast(m, Later(transfers, auths[0]));
      GreedyPairs(auths[1..], transfers - {m})[auths[0] := m]
  }

  lemma {:induction false} LeastExists(s: set<nat>)
    requires s != {}
    ensures exists m :: IsLeast(m, s)
  {
    var x :| x in s;
    if s == {x} {
      assert IsLeast(x, s);
    } else {
      LeastExists(s - {x});
      var m :| IsLeast(m, s - {x});
      assert forall y :: y in s ==> y == x || y in s - {x};
      assert IsLeast(if x < m then x else m, s);
    }
  }

  /** Disjoint pairs of an authorization and a strictly later Transfer. */
  ghost predicate IsPairing(pairs: map<nat, nat>, auths: set<nat>, transfers: set<nat>) {
    && (forall a :: a in pairs ==> a in auths && pairs[a] in transfers && pairs[a] > a)
    && (forall a, b :: a in pairs && b in pairs && a != b ==> pairs[a] != pairs[b])
  }

  /** The largest surplus, over all suffixes, of authorizations over the Transfers that follow them. */
  function SuffixExcess(auths: seq<nat>, transfers: set<nat>): nat {
    if auths == [] then 0
    else
      var rest := SuffixExcess(auths[1..], transfers);
      var here := |auths| - |Later(transfers, auths[0])|;
      if here > rest then here else rest
  }

  ghost predicate Increasing(s: seq<nat>) {
    forall i, j :: 0 <= i < j < |s| ==> s[i] < s[j]
  }

  function Members(s: seq<nat>): set<nat> {
    set x | x in s
  }

  lemma {:induction false} GreedyIsPairing(auths: seq<nat>, transfers: set<nat>)
    requires Increasing(auths)
    ensures IsPairing(GreedyPairs(auths, transfers), Members(auths), transfers)
  {
    if auths != [] {
      var later := Later(transfers, auths[0]);
      if later == {} {
        GreedyIsPairing(auths[1..], transfers);
      } else {
        LeastExists(later);
        var m :| IsLeast(m, later)
          && GreedyPairs(auths, transfers) == GreedyPairs(auths[1..], transfers - {m})[auths[0] := m];
        GreedyIsPairing(auths[1..], transfers - {m});
      }
    }
  }

  /** Removing a Transfer that follows auths[0] costs no suffix more than auths[0] itself costs. */
  lemma {:induction false} ExcessAfterTaking(auths: seq<nat>, transfers: set<nat>, first: nat, m: nat, total: nat)
    requires Increasing(auths) && (forall i :: 0 <= i < |auths| ==> auths[i] > first)
    requires IsLeast(m, Later(transfers, first))
    requires total > |auths|
    ensures SuffixExcess(auths, transfers) <= SuffixExcess(auths, transfers - {m})
    ensures var floor := total - |Later(transfers, first)|;
            SuffixExcess(auths, transfers - {m}) <= SuffixExcess(auths, transfers)
            || SuffixExcess(auths, transfers - {m}) <= floor
  {
    if auths != [] {
      ExcessAfterTaking(auths[1..], transfers, first, m, total);
      var a := auths[0];
      assert Later(transfers - {m}, a) == Later(transfers, a) - {m};
      if m > a {
        assert Later(transfers, a) == Later(transfers, first);
      }
    }
  }

  lemma {:induction false} ExcessOfNone(auths: seq<nat>, transfers: set<nat>, first: nat)
    requires Increasing(auths) && (forall i :: 0 <= i < |auths| ==> auths[i] >= first)
    requires Later(transfers, first) == {}
    ensures SuffixExcess(auths, transfers) == |auths|
  {
    if auths != [] {
      assert Later(transfers, auths[0]) <= Later(transfers, first);
      ExcessOfNone(auths[1..], transfers, first);
    }
  }

  /** What the greedy pairing leaves out is exactly the largest suffix excess. */
  lemma {:induction false} GreedyLeavesExcess(auths: seq<nat>, transfers: set<nat>)
    requires Increasing(auths)
    ensures |GreedyPairs(auths, transfers)| + SuffixExcess(auths, transfers) == |auths|
  {
    if auths != [] {
      var first, rest := auths[0], auths[1..];
      var later := Later(transfers, first);
      if later == {} {
        GreedyLeavesExcess(rest, transfers);
        ExcessOfNone(auths, transfers, first);
        ExcessOfNone(rest, transfers, first);
      } else {
        LeastExists(later);
        var m :| IsLeast(m, later);
        GreedyTakes(auths, transfers, m);
        GreedyLeavesExcess(rest, transfers - {m});
        ExcessAfterTaking(rest, transfers, first, m, |auths|);
        if rest != [] {
          FirstSuffixAfterTaking(rest, transfers, first, m);
        }
      }
    }
  }

  lemma FirstSuffixAfterTaking(rest: seq<nat>, transfers: set<nat>, first: nat, m: nat)
    requires rest != [] && rest[0] > first && IsLeast(m, Later(transfers, first))
    ensures |rest| + 1 - |Later(transfers, first)| <= SuffixExcess(rest, transfers - {m})
  {
    var after := Later(transfers - {m}, rest[0]);
    assert after <= Later(transfers, first) - {m};
    SubsetIsNoLarger(after, Later(transfers, first) - {m});
  }

  lemma {:induction false} SubsetIsNoLarger<T>(s: set<T>, t: set<T>)
    requires s <= t
    ensures |s| <= |t|
  {
    if s != {} {
      var x :| x in s;
      SubsetIsNoLarger(s - {x}, t - {x});
    }
  }

  lemma {:induction false} InjectionFits(pairs: map<nat, nat>, into: set<nat>)
    requires forall a :: a in pairs ==> pairs[a] in into
    requires forall a, b :: a in pairs && b in pairs && a != b ==> pairs[a] != pairs[b]
    ensures |pairs| <= |into|
    decreases |pairs|
  {
    if pairs != map[] {
      var a :| a in pairs;
      var rest := pairs - {a};
      assert pairs == rest[a := pairs[a]];
      InjectionFits(rest, into - {pairs[a]});
    }
  }

  lemma FirstSuffixBounds(pairs: map<nat, nat>, auths: seq<nat>, transfers: set<nat>)
    requires auths != [] && Increasing(auths) && IsPairing(pairs, Members(auths), transfers)
    ensures |pairs| <= |Later(transfers, auths[0])|
  {
    forall a | a in pairs ensures pairs[a] in Later(transfers, auths[0]) {
      assert a in Members(auths);
      assert auths[0] <= a;
    }
    InjectionFits(pairs, Later(transfers, auths[0]));
  }

  lemma RestOfPairing(pairs: map<nat, nat>, auths: seq<nat>, transfers: set<nat>)
    requires auths != [] && Increasing(auths) && IsPairing(pairs, Members(auths), transfers)
    ensures Increasing(auths[1..]) && IsPairing(pairs - {auths[0]}, Members(auths[1..]), transfers)
    ensures |pairs| <= |pairs - {auths[0]}| + 1
  {
    var first, rest := auths[0], pairs - {auths[0]};
    forall a | a in rest ensures a in Members(auths[1..]) {
      assert a in Members(auths);
      var i :| 0 <= i < |auths| && auths[i] == a;
      assert auths[1..][i - 1] == a;
    }
    assert pairs.Keys <= rest.Keys + {first};
    SubsetIsNoLarger(pairs.Keys, rest.Keys + {first});
  }

  lemma {:induction false} NoPairingBeatsExcess(pairs: map<nat, nat>, auths: seq<nat>, transfers: set<nat>)
    requires Increasing(auths) && IsPairing(pairs, Members(auths), transfers)
    ensures |pairs| + SuffixExcess(auths, transfers) <= |auths|
  {
    if auths == [] {
      assert pairs == map[];
    } else {
      FirstSuffixBounds(pairs, auths, transfers);
      RestOfPairing(pairs, auths, transfers);
      NoPairingBeatsExcess(pairs - {auths[0]}, auths[1..], transfers);
    }
  }

  // ----- the receipts the claim is about

  function TransferIndexes(receipt: seq<Log>): set<nat> {
    set l | l in receipt && IsUsdcTransfer(l) :: l.logIndex
  }

  function Indexes(logs: seq<Log>): (r: seq<nat>)
    ensures |r| == |logs| && forall i :: 0 <= i < |r| ==> r[i] == logs[i].logIndex
  {
    seq(|logs|, i requires 0 <= i < |logs| => logs[i].logIndex)
  }

  /** Complete context, and one payer behind every authorization and every USDC Transfer of the receipt. */
  ghost predicate OnePayer(ctx: Context, tx: Word, payer: Address, block: nat, candidates: seq<Log>) {
    && tx in ctx.txs && |ctx.txs[tx].input| >= 4
    && tx in ctx.receipts && DistinctLogIndexes(ctx.receipts[tx])
    && block in ctx.blocks && ctx.blocks[block].timestamp <= MAX_INT64
    && (forall l :: l in candidates ==>
          && IsAuthorizationUsed(l) && l.txHash == tx && l.blockNumber == block
          && DecodeAuthorization(l).Some? && DecodeAuthorization(l).value.authorizer == payer)
    && (forall l :: l in ctx.receipts[tx] && IsUsdcTransfer(l) ==>
          DecodeTransfer(l).Some? && DecodeTransfer(l).value.from == payer)
  }

  /** The walk finds no companion exactly when no free later Transfer is left, and else takes the least. */
  lemma CompanionIsLeast(receipt: seq<Log>, after: nat, claimed: set<nat>)
    ensures var later := Later(TransferIndexes(receipt) - claimed, after);
            var c := Companion(receipt, after, claimed);
            && (c.None? <==> later == {})
            && (c.Some? ==> IsLeast(c.value.logIndex, later))
  {
    var later := Later(TransferIndexes(receipt) - claimed, after);
    forall t | t in later ensures exists m :: m in receipt && Eligible(m, after, claimed) && m.logIndex == t {
      var m :| m in receipt && IsUsdcTransfer(m) && m.logIndex == t;
      assert Eligible(m, after, claimed);
    }
    var c := Companion(receipt, after, claimed);
    if c.Some? {
      assert c.value.logIndex in later;
    } else {
      assert later == {};
    }
  }

  lemma JudgeOfOnePayer(ctx: Context, l: Log, claimed: set<nat>, tx: Word, payer: Address, block: nat)
    requires OnePayer(ctx, tx, payer, block, [l])
    ensures var c := Companion(ctx.receipts[tx], l.logIndex, claimed);
            var o := Judge(ctx, l, claimed);
            if c.None? then o == Dropped else o.Kept? && o.companion == c.value
  {
    assert l in [l];
  }

  /** One step keeps the candidate with the least free later Transfer, or drops it if there is none. */
  lemma StepIsGreedy(ctx: Context, a: Assembly, l: Log, tx: Word, payer: Address, block: nat)
    requires OnePayer(ctx, tx, payer, block, [l])
    ensures var free := TransferIndexes(ctx.receipts[tx]) - Claimed(a.consumed, tx);
            var c := Companion(ctx.receipts[tx], l.logIndex, Claimed(a.consumed, tx));
            var next := Step(ctx, a, l);
            var s := a.stats.(authLogs := a.stats.authLogs + 1);
            && (c.None? <==> Later(free, l.logIndex) == {})
            && (c.None? ==> next.stats == s.(dropped := s.dropped + 1) && next.consumed == a.consumed)
            && (c.Some? ==>
                  && IsLeast(c.value.logIndex, Later(free, l.logIndex))
                  && next.stats == s.(kept := s.kept + 1)
                  && TransferIndexes(ctx.receipts[tx]) - Claimed(next.consumed, tx) == free - {c.value.logIndex})
  {
    assert l in [l];
    CompanionIsLeast(ctx.receipts[tx], l.logIndex, Claimed(a.consumed, tx));
    JudgeOfOnePayer(ctx, l, Claimed(a.consumed, tx), tx, payer, block);
  }

  lemma PayerOfParts(ctx: Context, candidates: seq<Log>, tx: Word, payer: Address, block: nat)
    requires OnePayer(ctx, tx, payer, block, candidates) && candidates != []
    ensures OnePayer(ctx, tx, payer, block, [candidates[0]]) && OnePayer(ctx, tx, payer, block, candidates[1..])
  {
    assert candidates[0] in candidates && forall x :: x in [candidates[0]] ==> x == candidates[0];
    assert forall x :: x in candidates[1..] ==> x in candidates;
  }

  /** Of n candidates so many were kept, none denied, the others dropped. */
  predicate Tallied(before: Stats, after: Stats, n: nat, kept: nat) {
    && after.kept == before.kept + kept
    && after.denied == before.denied
    && after.dropped == before.dropped + n - kept
  }

  lemma {:induction false} WalkIsGreedy(ctx: Context, a: Assembly, candidates: seq<Log>,
                                        tx: Word, payer: Address, block: nat)
    requires OnePayer(ctx, tx, payer, block, candidates) && Increasing(Indexes(candidates))
    ensures var w := Walk(ctx, a, candidates);
            var free := TransferIndexes(ctx.receipts[tx]) - Claimed(a.consumed, tx);
            var greedy := |GreedyPairs(Indexes(candidates), free)|;
            Tallied(a.stats, w.stats, |candidates|, greedy)
    decreases |candidates|
  {
    if candidates != [] {
      var l, rest := candidates[0], candidates[1..];
      var free := TransferIndexes(ctx.receipts[tx]) - Claimed(a.consumed, tx);
      PayerOfParts(ctx, candidates, tx, payer, block);
      assert Indexes(candidates)[1..] == Indexes(rest);
      StepIsGreedy(ctx, a, l, tx, payer, block);
      WalkIsGreedy(ctx, Step(ctx, a, l), rest, tx, payer, block);
      var c := Companion(ctx.receipts[tx], l.logIndex, Claimed(a.consumed, tx));
      if c.Some? {
        GreedyTakes(Indexes(candidates), free, c.value.logIndex);
      } else {
        GreedySkips(Indexes(candidates), free);
      }
    }
  }

  lemma GreedySkips(auths: seq<nat>, free: set<nat>)
    requires auths != [] && Later(free, auths[0]) == {}
    ensures GreedyPairs(auths, free) == GreedyPairs(auths[1..], free)
  {
  }

  lemma GreedyTakes(auths: seq<nat>, free: set<nat>, m: nat)
    requires Increasing(auths) && auths != [] && IsLeast(m, Later(free, auths[0]))
    ensures |GreedyPairs(auths, free)| == 1 + |GreedyPairs(auths[1..], free - {m})|
  {
    TakesTheLeast(auths, free, m);
    FirstIsUnpaired(auths, free - {m});
    OneMorePair(GreedyPairs(auths[1..], free - {m}), auths[0], m);
  }

  lemma TakesTheLeast(auths: seq<nat>, free: set<nat>, m: nat)
    requires auths != [] && IsLeast(m, Later(free, auths[0]))
    ensures GreedyPairs(auths, free) == GreedyPairs(auths[1..], free - {m})[auths[0] := m]
  {
  }

  lemma FirstIsUnpaired(auths: seq<nat>, free: set<nat>)
    requires Increasing(auths) && auths != []
    ensures auths[0] !in GreedyPairs(auths[1..], free)
  {
    GreedyIsPairing(auths[1..], free);
    assert auths[0] !in Members(auths[1..]);
  }

  lemma OneMorePair(pairs: map<nat, nat>, auth: nat, transfer: nat)
    requires auth !in pairs
    ensures |pairs[auth := transfer]| == |pairs| + 1
  {
  }

  // ----- one receipt of any batch

  function LacksHash(tx: Word): Log -> bool {
    (l: Log) => l.txHash != tx
  }

  function IsHash(tx: Word): Word -> bool {
    (h: Word) => h == tx
  }

  function RowOf(tx: Word): Payment -> bool {
    (p: Payment) => p.txHash == tx
  }

  lemma RowsHaveTheirHash(ctx: Context, candidates: seq<Log>, p: Payment)
    requires p in Walk(ctx, Nothing(), candidates).payments
    ensures exists l :: l in candidates && l.txHash == p.txHash
  {
    WalkWritesBindings(ctx, Nothing(), candidates);
    BindingsAreBacked(ctx, Nothing(), candidates);
    var bs := Bindings(ctx, Nothing(), candidates);
    var i :| 0 <= i < |bs| && Rows(bs)[i] == p;
    assert bs[i] in bs && bs[i].auth in candidates;
  }

  lemma SideRows(all: seq<Payment>, own: seq<Payment>, others: seq<Payment>, tx: Word)
    requires multiset(all) == multiset(own) + multiset(others)
    requires (forall p :: p in own ==> p.txHash == tx) && (forall p :: p in others ==> p.txHash != tx)
    ensures multiset(Filter(all, RowOf(tx))) == multiset(own)
  {
    FilterKeepsMultiset(all, own + others, RowOf(tx));
    FilterAppend(own, others, RowOf(tx));
    FilterAll(own, RowOf(tx));
    FilterNone(others, RowOf(tx));
    assert own + [] == own;
  }

  /** What the walk does with one transaction's candidates it does apart from all the others. */
  lemma WalkOfOneTx(ctx: Context, candidates: seq<Log>, tx: Word)
    ensures var w := Walk(ctx, Nothing(), candidates);
            var own := Walk(ctx, Nothing(), Filter(candidates, HasHash(tx)));
            var others := Walk(ctx, Nothing(), Filter(candidates, LacksHash(tx)));
            && w.stats == AddStats(own.stats, others.stats)
            && multiset(Filter(w.payments, RowOf(tx))) == multiset(own.payments)
            && |Filter(w.payments, RowOf(tx))| == own.stats.kept
  {
    var mine, rest := Filter(candidates, HasHash(tx)), Filter(candidates, LacksHash(tx));
    var own, others := Walk(ctx, Nothing(), mine), Walk(ctx, Nothing(), rest);
    WalkSplitsFromNothing(ctx, candidates, IsHash(tx), HasHash(tx), LacksHash(tx));
    forall p | p in own.payments ensures p.txHash == tx {
      RowsHaveTheirHash(ctx, mine, p);
    }
    forall p | p in others.payments ensures p.txHash != tx {
      RowsHaveTheirHash(ctx, rest, p);
    }
    var all := Walk(ctx, Nothing(), candidates).payments;
    SideRows(all, own.payments, others.payments, tx);
    WalkCounts(ctx, Nothing(), mine);
    assert |multiset(Filter(all, RowOf(tx)))| == |multiset(own.payments)|;
  }

  /** No set of disjoint pairs is larger than kept, and one is as large. */
  ghost predicate IsMaximum(kept: nat, auths: set<nat>, transfers: set<nat>) {
    && (exists pairs :: IsPairing(pairs, auths, transfers) && |pairs| == kept)
    && (forall pairs :: IsPairing(pairs, auths, transfers) ==> |pairs| <= kept)
  }

  lemma GreedyIsMaximum(auths: seq<nat>, transfers: set<nat>)
    requires Increasing(auths)
    ensures IsMaximum(|GreedyPairs(auths, transfers)|, Members(auths), transfers)
  {
    GreedyIsPairing(auths, transfers);
    GreedyLeavesExcess(auths, transfers);
    forall pairs | IsPairing(pairs, Members(auths), transfers) ensures |pairs| <= |GreedyPairs(auths, transfers)| {
      NoPairingBeatsExcess(pairs, auths, transfers);
    }
  }

  /** The candidates of one transaction, in the order they are walked. */
  function CandidatesOf(logs: seq<Log>, tx: Word): seq<Log> {
    Filter(Sorted(Candidates(logs), LogPosition), HasHash(tx))
  }

  lemma OwnCandidatesRise(logs: seq<Log>, tx: Word, block: nat)
    requires DistinctCandidates(logs)
    requires forall l :: l in CandidatesOf(logs, tx) ==> l.blockNumber == block
    ensures Increasing(Indexes(CandidatesOf(logs, tx)))
  {
    var s, own := Sorted(Candidates(logs), LogPosition), CandidatesOf(logs, tx);
    PermutationKeepsDistinct(Candidates(logs), s, LogPosition);
    FilterIsAscending(s, HasHash(tx), LogPosition);
    FilterIsDistinct(s, HasHash(tx), LogPosition);
    forall i, j | 0 <= i < j < |own| ensures own[i].logIndex < own[j].logIndex {
      assert own[i] in own && own[j] in own;
      assert LogPosition(own[i]) != LogPosition(own[j]) && !Before(LogPosition(own[j]), LogPosition(own[i]));
    }
  }

  lemma GreedyOnOwn(ctx: Context, own: seq<Log>, tx: Word, payer: Address, block: nat)
    requires OnePayer(ctx, tx, payer, block, own) && Increasing(Indexes(own))
    ensures var stats := Walk(ctx, Nothing(), own).stats;
            var transfers := TransferIndexes(ctx.receipts[tx]);
            && stats == Stats(|own|, 0, stats.kept, SuffixExcess(Indexes(own), transfers))
            && IsMaximum(stats.kept, Members(Indexes(own)), transfers)
  {
    var auths, transfers := Indexes(own), TransferIndexes(ctx.receipts[tx]);
    WalkIsGreedy(ctx, Nothing(), own, tx, payer, block);
    WalkCounts(ctx, Nothing(), own);
    assert transfers - Claimed(Nothing().consumed, tx) == transfers;
    GreedyLeavesExcess(auths, transfers);
    GreedyIsMaximum(auths, transfers);
  }

  /**
   Of any batch, take a transaction with one payer and complete context.  As many of its
   authorizations become rows as any disjoint pairing could keep; the others of it, as
   many as the largest suffix excess, are all dropped and none denied.  The rest of the
   statistics is that of the other transactions.
   */
  lemma GreedyIsOptimal(ctx: Context, logs: seq<Log>, tx: Word, payer: Address, block: nat)
    requires DistinctCandidates(logs) && OnePayer(ctx, tx, payer, block, CandidatesOf(logs, tx))
    ensures var w, own := Assembled(ctx, logs), CandidatesOf(logs, tx);
            var others := Walk(ctx, Nothing(), Filter(Sorted(Candidates(logs), LogPosition), LacksHash(tx)));
            var transfers := TransferIndexes(ctx.receipts[tx]);
            var kept := |Filter(w.payments, RowOf(tx))|;
            && IsMaximum(kept, Members(Indexes(own)), transfers)
            && kept + SuffixExcess(Indexes(own), transfers) == |own|
            && w.stats == AddStats(Stats(|own|, 0, kept, SuffixExcess(Indexes(own), transfers)), others.stats)
  {
    WalkOfOneTx(ctx, Sorted(Candidates(logs), LogPosition), tx);
    OwnCandidatesRise(logs, tx, block);
    GreedyOnOwn(ctx, CandidatesOf(logs, tx), tx, payer, block);
    WalkCounts(ctx, Nothing(), CandidatesOf(logs, tx));
  }
}
