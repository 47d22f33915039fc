/** New and returning payers of a bounded window. */
module Cohorts {
  import opened Cube
  import opened Days
  import opened Grouping
  import opened Positions

  function ByPayer(payer: string): Payment -> bool {
    (p: Payment) => p.facilitatorKnown && p.payer == payer
  }

  /** min(day) */
  function FirstDay(q: seq<Payment>): (d: Day)
    requires q != []
    ensures exists i :: 0 <= i < |q| && q[i].day == d
    ensures forall p :: p in q ==> !Earlier(p.day, d)
  {
    assert q == [q[0]] + q[1..];
    if |q| == 1 then q[0].day
    else
      var d := FirstDay(q[1..]);
      var i :| 0 <= i < |q[1..]| && q[1..][i].day == d;
      assert q[i+1].day == d;
      if Earlier(q[0].day, d) then q[0].day else d
  }

  /** The window's verified payments. */
  function Members(payments: seq<Payment>, asOf: Day, w: Window): seq<Payment> {
    Filter(payments, Counted(asOf, KeyInWindow(asOf, w)))
  }

  /** The payer's first verified payment of all is not before the window. */
  predicate IsNew(payments: seq<Payment>, asOf: Day, w: Window, payer: string) {
    var own := Filter(payments, ByPayer(payer));
    own == [] || InWindow(asOf, w, FirstDay(own))
  }

  function PaidByNew(payments: seq<Payment>, asOf: Day, w: Window): Payment -> bool {
    (p: Payment) => IsNew(payments, asOf, w, p.payer)
  }

  function PaidByReturning(payments: seq<Payment>, asOf: Day, w: Window): Payment -> bool {
    (p: Payment) => !IsNew(payments, asOf, w, p.payer)
  }

  ghost function Payers(q: seq<Payment>): set<string> {
    set p | p in q :: p.payer
  }

  datatype Cohort = Cohort(newPayers: nat, returningPayers: nat, newVolume: real, returningVolume: real)

  ghost function CohortOf(payments: seq<Payment>, asOf: Day, w: Window): Cohort {
    var q := Members(payments, asOf, w);
    var first, back := Filter(q, PaidByNew(payments, asOf, w)), Filter(q, PaidByReturning(payments, asOf, w));
    Cohort(|Payers(first)|, |Payers(back)|,
           Sum(AccumSum(), first, PaymentAccum).volume, Sum(AccumSum(), back, PaymentAccum).volume)
  }

  /** Every payer of the window is in one cohort, and the volumes make up the window's. */
  lemma CohortsPartition(payments: seq<Payment>, asOf: Day, w: Window)
    ensures var c := CohortOf(payments, asOf, w);
            && c.newVolume + c.returningVolume == Direct(payments, asOf, KeyInWindow(asOf, w)).volume
            && c.newPayers + c.returningPayers == |Payers(Members(payments, asOf, w))|
  {
    var q := Members(payments, asOf, w);
    var isNew, isBack := PaidByNew(payments, asOf, w), PaidByReturning(payments, asOf, w);
    AccumSumIsLawful();
    SumSplits(AccumSum(), q, isNew, isBack, PaymentAccum);
    PayersSplit(q, payments, asOf, w);
  }

  lemma PayersSplit(q: seq<Payment>, payments: seq<Payment>, asOf: Day, w: Window)
    ensures |Payers(Filter(q, PaidByNew(payments, asOf, w)))| + |Payers(Filter(q, PaidByReturning(payments, asOf, w)))|
         == |Payers(q)|
  {
    var a, b := Payers(Filter(q, PaidByNew(payments, asOf, w))), Payers(Filter(q, PaidByReturning(payments, asOf, w)));
    forall x ensures x in Payers(q) <==> x in a || x in b {
      if x in Payers(q) {
        var p :| p in q && p.payer == x;
        assert PaidByNew(payments, asOf, w)(p) || PaidByReturning(payments, asOf, w)(p);
      }
    }
    assert Payers(q) == a + b && a !! b;
  }

  /** New just when the payer has no verified payment before the window. */
  lemma NewMeansNoneBefore(payments: seq<Payment>, asOf: Day, w: Window, payer: string)
    ensures IsNew(payments, asOf, w, payer) <==>
              forall p :: p in payments && p.facilitatorKnown && p.payer == payer ==> InWindow(asOf, w, p.day)
  {
    var own := Filter(payments, ByPayer(payer));
    forall p | p in payments ensures p in own <==> p.facilitatorKnown && p.payer == payer {
    }
    if own != [] {
      var first := FirstDay(own);
      var i :| 0 <= i < |own| && own[i].day == first;
      assert own[i] in own;
    }
  }

  // ----- by the payments' own fields

  /** The day lies before the window's first, counting days. */
  predicate BeforeWindow(asOf: Date, w: Window, d: Date) {
    var age := DayNumber(asOf) - DayNumber(d);
    match w
    case Window7d => age >= 7
    case Window30d => age >= 30
    case WindowAll => false
  }

  lemma WindowOpens(asOf: Day, w: Window, d: Day)
    ensures InWindow(asOf, w, d) <==> !BeforeWindow(asOf, w, d)
  {
    if w != WindowAll {
      BackIsSoManyLess(asOf, WindowDays(w) - 1);
      EarlierIsByNumber(d, Back(asOf, WindowDays(w) - 1));
    }
  }

  ghost predicate PaidBefore(payments: seq<Payment>, asOf: Day, w: Window, payer: string) {
    exists p :: p in payments && p.facilitatorKnown && p.payer == payer && BeforeWindow(asOf, w, p.day)
  }

  lemma NewMeansNotPaidBefore(payments: seq<Payment>, asOf: Day, w: Window, payer: string)
    ensures IsNew(payments, asOf, w, payer) <==> !PaidBefore(payments, asOf, w, payer)
  {
    NewMeansNoneBefore(payments, asOf, w, payer);
    forall p | p in payments ensures InWindow(asOf, w, p.day) <==> !BeforeWindow(asOf, w, p.day) {
      WindowOpens(asOf, w, p.day);
    }
  }

  /** The window's verified payments, by payers who had or had not paid before it. */
  ghost function InCohort(payments: seq<Payment>, asOf: Day, w: Window, returning: bool): Payment -> bool {
    (p: Payment) =>
      p.facilitatorKnown && WithinDays(asOf, w, p.day) && PaidBefore(payments, asOf, w, p.payer) == returning
  }

  function AmountOf(): Payment -> real {
    (p: Payment) => p.amount
  }

  lemma CohortIsFiltered(payments: seq<Payment>, asOf: Day, w: Window, returning: bool)
    ensures Filter(Members(payments, asOf, w),
                   if returning then PaidByReturning(payments, asOf, w) else PaidByNew(payments, asOf, w))
         == Filter(payments, InCohort(payments, asOf, w, returning))
  {
    var counted := Counted(asOf, KeyInWindow(asOf, w));
    var paidBy := if returning then PaidByReturning(payments, asOf, w) else PaidByNew(payments, asOf, w);
    var both := InCohort(payments, asOf, w, returning);
    forall p | p in payments ensures both(p) == (counted(p) && paidBy(p)) {
      WindowCountsDays(asOf, w, p.day);
      NewMeansNotPaidBefore(payments, asOf, w, p.payer);
      assert KeyInWindow(asOf, w)(SliceKey(p.day, Band(p.amount))) == InWindow(asOf, w, p.day);
    }
    FilterBoth(payments, counted, paidBy, both);
  }

  /** New are the window's payers without a payment before it, returning those with one; each volume is theirs. */
  lemma CohortsAreFacts(payments: seq<Payment>, asOf: Day, w: Window)
    ensures var c := CohortOf(payments, asOf, w);
            var first, back := Filter(payments, InCohort(payments, asOf, w, false)),
                               Filter(payments, InCohort(payments, asOf, w, true));
            && c.newPayers == |set p | p in first :: p.payer|
            && c.returningPayers == |set p | p in back :: p.payer|
            && c.newVolume == Added(first, AmountOf()) && c.returningVolume == Added(back, AmountOf())
  {
    CohortIsFiltered(payments, asOf, w, false);
    CohortIsFiltered(payments, asOf, w, true);
    AccumsAreCounts(Filter(payments, InCohort(payments, asOf, w, false)), PaymentAccum, AmountOf());
    AccumsAreCounts(Filter(payments, InCohort(payments, asOf, w, true)), PaymentAccum, AmountOf());
  }
}
