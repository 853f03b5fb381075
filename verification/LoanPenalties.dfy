/** What one monthly overdue run does to the installments of one loan, and what every run and every
    settlement keep. A plan is the loan's installments in `installment_number` order. */
module LoanPenalties {
  import opened Basics
  import opened Schema
  import opened LoanSchedule

  // ----- the run

  function Eligible(cutoff: Date): Installment -> bool {
    (x: Installment) => x.status == Due && x.dueDate.NotAfter(cutoff)
  }

  function Unpenalised(): Installment -> bool {
    (x: Installment) => x.status == Overdue && x.penalty == 0
  }

  /** The first row from `from` on that a query selects, in its order. */
  function FirstFrom(plan: seq<Installment>, selects: Installment -> bool, from: nat): (r: Option<nat>)
    requires from <= |plan|
    ensures r.Some? ==> from <= r.value < |plan| && selects(plan[r.value])
    ensures r.Some? ==> forall i :: from <= i < r.value ==> !selects(plan[i])
    ensures r.None? ==> forall i :: from <= i < |plan| ==> !selects(plan[i])
    decreases |plan| - from
  {
    if from == |plan| then None
    else if selects(plan[from]) then Some(from)
    else FirstFrom(plan, selects, from + 1)
  }

  function First(plan: seq<Installment>, selects: Installment -> bool): Option<nat> {
    FirstFrom(plan, selects, 0)
  }

  function Marked(x: Installment): Installment { x.(status := Overdue, everOverdue := true) }

  function Charged(x: Installment, penalty: int): Installment {
    x.(penalty := x.penalty + penalty, total := x.total + penalty)
  }

  function CountOverdue(plan: seq<Installment>): nat { CountOverdueTo(plan, |plan|) }

  function CountOverdueTo(plan: seq<Installment>, n: nat): nat
    requires n <= |plan|
  {
    if n == 0 then 0 else CountOverdueTo(plan, n - 1) + (if plan[n - 1].status == Overdue then 1 else 0)
  }

  /** `processLoanOverdueInstallments`: mark the oldest eligible installment; if that makes two or more
      overdue, penalise the oldest one not yet penalised. */
  function AfterRun(plan: seq<Installment>, penalty: int, cutoff: Date): (r: seq<Installment>)
    ensures |r| == |plan|
  {
    match First(plan, Eligible(cutoff))
    case None => plan
    case Some(i) => AfterMarking(plan, i, penalty)
  }

  function AfterMarking(plan: seq<Installment>, i: nat, penalty: int): (r: seq<Installment>)
    requires i < |plan|
    ensures |r| == |plan|
  {
    var marked := plan[i := Marked(plan[i])];
    if CountOverdue(plan) + 1 >= 2 && First(marked, Unpenalised()).Some?
    then var j := First(marked, Unpenalised()).value; marked[j := Charged(marked[j], penalty)]
    else marked
  }

  /** The row is due, and fell due on the cutoff's day or earlier: in an earlier month, or in its month on a day
      not after its day. */
  predicate IsDueBy(x: Installment, cutoff: Date) {
    && x.status == Due
    && (|| x.dueDate.month < cutoff.month
        || (x.dueDate.month == cutoff.month && x.dueDate.day <= cutoff.day))
  }

  /** Row `i` is the oldest such row. */
  ghost predicate IsOldestDue(plan: seq<Installment>, cutoff: Date, i: nat) {
    && i < |plan| && IsDueBy(plan[i], cutoff)
    && forall k :: 0 <= k < i ==> !IsDueBy(plan[k], cutoff)
  }

  /** What the code selects first is the oldest row due by the cutoff. */
  lemma FirstIsOldestDue(plan: seq<Installment>, cutoff: Date)
    ensures First(plan, Eligible(cutoff)).None? <==> forall i :: 0 <= i < |plan| ==> !IsDueBy(plan[i], cutoff)
    ensures forall i: nat :: First(plan, Eligible(cutoff)) == Some(i) <==> IsOldestDue(plan, cutoff, i)
  {
    assert forall x: Installment :: Eligible(cutoff)(x) <==> IsDueBy(x, cutoff);
    var first := First(plan, Eligible(cutoff));
    if first.Some? {
      assert IsOldestDue(plan, cutoff, first.value);
    }
  }

  /** A run makes a row overdue if and only if it was due by the cutoff and no earlier row was; no other status
      changes, and nothing at all if no row was due by the cutoff. */
  lemma RunMarksExactlyOne(plan: seq<Installment>, penalty: int, cutoff: Date)
    ensures var now := AfterRun(plan, penalty, cutoff);
            && (forall i :: 0 <= i < |plan| ==>
                  && now[i].status == (if IsOldestDue(plan, cutoff, i) then Overdue else plan[i].status)
                  && now[i].everOverdue == (plan[i].everOverdue || IsOldestDue(plan, cutoff, i)))
            && ((forall i :: 0 <= i < |plan| ==> !IsDueBy(plan[i], cutoff)) ==> now == plan)
  {
    FirstIsOldestDue(plan, cutoff);
  }

  // ----- the invariant of a plan

  /** The loan's monthly interest, which is also what every penalty is. */
  function PenaltyOf(loan: Loan): int { Interest(loan.principal, loan.period.rate) }

  /** The row is as it was generated, but for its status and for at most one penalty. */
  ghost predicate InstallmentSound(loan: Loan, x: Installment, i: nat)
    requires loan.disbursedOn.Some?
  {
    var base := InstallmentOf(loan, loan.disbursedOn.value, i + 1);
    && x == base.(penalty := x.penalty, total := base.total + x.penalty, status := x.status,
                  everOverdue := x.everOverdue)
    && (x.penalty == 0 || x.penalty == PenaltyOf(loan))
    && (x.status == Due ==> x.penalty == 0 && !x.everOverdue)
    && (x.status == Overdue ==> x.everOverdue)
    && (x.penalty != 0 ==> x.everOverdue)
    && x.status != Partial
  }

  /** No due installment is older than an overdue one. */
  ghost predicate OldestFirst(plan: seq<Installment>) {
    forall i, j :: 0 <= i < j < |plan| && plan[j].status == Overdue ==> plan[i].status != Due
  }

  ghost predicate AtMostOneUnpenalised(plan: seq<Installment>) {
    forall i, j :: 0 <= i < |plan| && 0 <= j < |plan| && Unpenalised()(plan[i]) && Unpenalised()(plan[j]) ==> i == j
  }

  function PenalisedOne(): Installment -> int { (x: Installment) => if x.penalty != 0 then 1 else 0 }

  function EverOverdueOne(): Installment -> int { (x: Installment) => if x.everOverdue then 1 else 0 }

  function OverdueOne(): Installment -> int { (x: Installment) => if x.status == Overdue then 1 else 0 }

  /** The first installment marked is never penalised for it: penalties stay one behind the marks. */
  ghost predicate PenaltiesLag(plan: seq<Installment>) {
    || Sum(plan, PenalisedOne()) == 0
    || Sum(plan, PenalisedOne()) + 1 <= Sum(plan, EverOverdueOne())
  }

  ghost predicate PlanSound(loan: Loan, plan: seq<Installment>) {
    && loan.disbursedOn.Some? && ValidDate(loan.disbursedOn.value)
    && |plan| == loan.period.tenor
    && (forall i :: 0 <= i < |plan| ==> InstallmentSound(loan, plan[i], i))
    && OldestFirst(plan)
    && (PenaltyOf(loan) > 0 ==> AtMostOneUnpenalised(plan))
    && PenaltiesLag(plan)
  }

  /** A fresh schedule satisfies it. */
  lemma ScheduleIsSound(loan: Loan)
    requires loan.disbursedOn.Some? && ValidDate(loan.disbursedOn.value)
    ensures PlanSound(loan, Schedule(loan, loan.disbursedOn.value))
  {
    var plan := Schedule(loan, loan.disbursedOn.value);
    forall i | 0 <= i < |plan|
      ensures InstallmentSound(loan, plan[i], i) && plan[i].status == Due && plan[i].penalty == 0
    {
      GeneratedRowIsSound(loan, i);
    }
    SumBounds(plan, PenalisedOne(), 0, 0, |plan|);
  }

  lemma GeneratedRowIsSound(loan: Loan, i: nat)
    requires loan.disbursedOn.Some?
    ensures var x := InstallmentOf(loan, loan.disbursedOn.value, i + 1);
            InstallmentSound(loan, x, i) && x.status == Due && x.penalty == 0
  {
  }

  // ----- every run keeps it

  lemma {:induction false} CountIsSum(plan: seq<Installment>, n: nat)
    requires n <= |plan|
    ensures CountOverdueTo(plan, n) == SumTo(plan, OverdueOne(), n)
  {
    if n > 0 {
      CountIsSum(plan, n - 1);
    }
  }

  /** How many were overdue, as the code counts them, says whether any was. */
  lemma CountSaysWhether(plan: seq<Installment>)
    ensures CountOverdue(plan) == 0 <==> forall i :: 0 <= i < |plan| ==> plan[i].status != Overdue
  {
    CountIsSum(plan, |plan|);
    SumToNonNegative(plan, OverdueOne(), |plan|);
    if forall i :: 0 <= i < |plan| ==> plan[i].status != Overdue {
      SumBounds(plan, OverdueOne(), 0, 0, |plan|);
    } else {
      var i :| 0 <= i < |plan| && plan[i].status == Overdue;
      assert OverdueOne()(plan[i]) == 1;
    }
  }

  lemma OlderRowsAreDueBy(loan: Loan, plan: seq<Installment>, cutoff: Date, i: nat, k: nat)
    requires PlanSound(loan, plan)
    requires k < i < |plan| && IsDueBy(plan[i], cutoff) && plan[k].status == Due
    ensures IsDueBy(plan[k], cutoff)
  {
  }

  lemma MarkingKeepsRows(loan: Loan, plan: seq<Installment>, i: nat)
    requires PlanSound(loan, plan) && i < |plan| && plan[i].status == Due
    ensures forall k :: 0 <= k < |plan| ==> InstallmentSound(loan, AfterMarking(plan, i, PenaltyOf(loan))[k], k)
  {
    assert InstallmentSound(loan, plan[i], i);
    var marked := plan[i := Marked(plan[i])];
    assert forall k :: 0 <= k < |plan| ==> InstallmentSound(loan, marked[k], k);
  }

  lemma MarkingKeepsOrder(loan: Loan, plan: seq<Installment>, cutoff: Date, i: nat)
    requires PlanSound(loan, plan) && IsOldestDue(plan, cutoff, i)
    ensures OldestFirst(AfterMarking(plan, i, PenaltyOf(loan)))
  {
    var now := AfterMarking(plan, i, PenaltyOf(loan));
    forall a, b | 0 <= a < b < |now| && now[b].status == Overdue
      ensures now[a].status != Due
    {
      if b == i && plan[a].status == Due {
        OlderRowsAreDueBy(loan, plan, cutoff, i, a);
      }
    }
  }

  lemma MarkingLeavesOneUnpenalised(loan: Loan, plan: seq<Installment>, i: nat)
    requires PlanSound(loan, plan) && PenaltyOf(loan) > 0
    requires i < |plan| && plan[i].status == Due
    ensures AtMostOneUnpenalised(AfterMarking(plan, i, PenaltyOf(loan)))
  {
    CountSaysWhether(plan);
    assert InstallmentSound(loan, plan[i], i);
    var marked := plan[i := Marked(plan[i])];
    assert Unpenalised()(marked[i]);
  }

  lemma MarkingKeepsLag(loan: Loan, plan: seq<Installment>, i: nat)
    requires PlanSound(loan, plan) && i < |plan| && plan[i].status == Due
    ensures PenaltiesLag(AfterMarking(plan, i, PenaltyOf(loan)))
  {
    var marked := plan[i := Marked(plan[i])];
    assert InstallmentSound(loan, plan[i], i);
    SumUpdate(plan, i, Marked(plan[i]), PenalisedOne());
    SumUpdate(plan, i, Marked(plan[i]), EverOverdueOne());
    if CountOverdue(plan) + 1 >= 2 && First(marked, Unpenalised()).Some? {
      CountSaysWhether(plan);
      SomeWereOverdue(loan, plan);
      var j := First(marked, Unpenalised()).value;
      SumUpdate(marked, j, Charged(marked[j], PenaltyOf(loan)), PenalisedOne());
      SumUpdate(marked, j, Charged(marked[j], PenaltyOf(loan)), EverOverdueOne());
    }
  }

  lemma SomeWereOverdue(loan: Loan, plan: seq<Installment>)
    requires PlanSound(loan, plan) && exists i :: 0 <= i < |plan| && plan[i].status == Overdue
    ensures Sum(plan, EverOverdueOne()) >= 1
  {
    var i :| 0 <= i < |plan| && plan[i].status == Overdue;
    assert InstallmentSound(loan, plan[i], i);
    SumToNonNegative(plan, EverOverdueOne(), |plan|);
    assert EverOverdueOne()(plan[i]) == 1;
  }

  lemma RunKeepsPlanSound(loan: Loan, plan: seq<Installment>, cutoff: Date)
    requires PlanSound(loan, plan)
    ensures PlanSound(loan, AfterRun(plan, PenaltyOf(loan), cutoff))
  {
    var first := First(plan, Eligible(cutoff));
    FirstIsOldestDue(plan, cutoff);
    if first.Some? {
      MarkingKeepsRows(loan, plan, first.value);
      MarkingKeepsOrder(loan, plan, cutoff, first.value);
      if PenaltyOf(loan) > 0 {
        MarkingLeavesOneUnpenalised(loan, plan, first.value);
      }
      MarkingKeepsLag(loan, plan, first.value);
    }
  }

  /** The row charged is the one just marked exactly when all that were overdue before have their penalty. */
  lemma ChargedRow(loan: Loan, plan: seq<Installment>, i: nat)
    requires PlanSound(loan, plan) && i < |plan| && plan[i].status == Due
    ensures var charged := First(plan[i := Marked(plan[i])], Unpenalised());
            && charged.Some?
            && (charged.value == i <==> AllPenalised(plan))
            && (charged.value != i ==> Unpenalised()(plan[charged.value]))
  {
    assert InstallmentSound(loan, plan[i], i);
    var marked := plan[i := Marked(plan[i])];
    assert Unpenalised()(marked[i]);
    if !AllPenalised(plan) {
      var k :| 0 <= k < |plan| && plan[k].status == Overdue && plan[k].penalty == 0;
      assert Unpenalised()(marked[k]) && k < i;
    }
  }

  lemma OthersArePenalised(loan: Loan, plan: seq<Installment>, i: nat, k: nat)
    requires PlanSound(loan, plan) && PenaltyOf(loan) > 0
    requires i < |plan| && plan[i].status == Due
    requires k < |plan| && k != i && AfterMarking(plan, i, PenaltyOf(loan))[k].status == Overdue
    ensures AfterMarking(plan, i, PenaltyOf(loan))[k].penalty == PenaltyOf(loan)
  {
    ChargedRow(loan, plan, i);
    assert InstallmentSound(loan, plan[k], k);
    assert plan[k].status == Overdue;
    CountSaysWhether(plan);
    if plan[k].penalty == 0 {
      assert Unpenalised()(plan[k]);
    }
  }

  /** What a run charges: after it every overdue installment but the one just marked has its penalty, and that
      one has it only if some were overdue before and all of those had theirs. */
  lemma RunPenalisesTheRest(loan: Loan, plan: seq<Installment>, cutoff: Date, i: nat)
    requires PlanSound(loan, plan) && PenaltyOf(loan) > 0
    requires IsOldestDue(plan, cutoff, i)
    ensures var now := AfterRun(plan, PenaltyOf(loan), cutoff);
            && (forall k :: 0 <= k < |now| && k != i && now[k].status == Overdue ==> now[k].penalty == PenaltyOf(loan))
            && (now[i].penalty == PenaltyOf(loan) <==> SomeOverdue(plan) && AllPenalised(plan))
  {
    var now := AfterRun(plan, PenaltyOf(loan), cutoff);
    FirstIsOldestDue(plan, cutoff);
    forall k | 0 <= k < |now| && k != i && now[k].status == Overdue
      ensures now[k].penalty == PenaltyOf(loan)
    {
      OthersArePenalised(loan, plan, i, k);
    }
    ChargedRow(loan, plan, i);
    CountSaysWhether(plan);
    assert InstallmentSound(loan, plan[i], i);
  }

  ghost predicate SomeOverdue(plan: seq<Installment>) {
    exists k :: 0 <= k < |plan| && plan[k].status == Overdue
  }

  ghost predicate AllPenalised(plan: seq<Installment>) {
    forall k :: 0 <= k < |plan| && plan[k].status == Overdue ==> plan[k].penalty != 0
  }

  /** Paying an installment keeps it too. */
  lemma PayingKeepsPlanSound(loan: Loan, plan: seq<Installment>, i: nat)
    requires PlanSound(loan, plan) && i < |plan|
    ensures PlanSound(loan, plan[i := plan[i].(status := Paid)])
  {
    assert InstallmentSound(loan, plan[i], i);
    SumUpdate(plan, i, plan[i].(status := Paid), PenalisedOne());
    SumUpdate(plan, i, plan[i].(status := Paid), EverOverdueOne());
  }

  // ----- what a loan costs

  function PenaltyAmount(): Installment -> int { (x: Installment) => x.penalty }

  lemma {:induction false} PenaltiesAreCounted(loan: Loan, plan: seq<Installment>, n: nat)
    requires n <= |plan|
    requires forall i :: 0 <= i < n ==> plan[i].penalty == 0 || plan[i].penalty == PenaltyOf(loan)
    ensures SumTo(plan, PenaltyAmount(), n) == SumTo(plan, PenalisedOne(), n) * PenaltyOf(loan)
  {
    if n > 0 {
      PenaltiesAreCounted(loan, plan, n - 1);
    }
  }

  lemma {:induction false} TotalsArePenaltiesAndSchedule(plan: seq<Installment>, schedule: seq<Installment>, n: nat)
    requires n <= |plan| && n <= |schedule|
    requires forall i :: 0 <= i < n ==> plan[i].total == schedule[i].total + plan[i].penalty
    ensures SumTo(plan, TotalOf(), n) == SumTo(schedule, TotalOf(), n) + SumTo(plan, PenaltyAmount(), n)
  {
    if n > 0 {
      TotalsArePenaltiesAndSchedule(plan, schedule, n - 1);
    }
  }

  /** What never changes in a row, and what its total always is. */
  lemma AsGenerated(loan: Loan, plan: seq<Installment>, i: nat)
    requires PlanSound(loan, plan) && i < |plan|
    ensures var generated := Schedule(loan, loan.disbursedOn.value)[i];
            && plan[i].number == i + 1
            && plan[i].dueDate == generated.dueDate
            && plan[i].principal == generated.principal
            && plan[i].interest == generated.interest == loan.interest
            && plan[i].total == generated.total + plan[i].penalty
            && (plan[i].penalty == 0 || plan[i].penalty == PenaltyOf(loan))
  {
  }

  lemma TotalsCountPenalties(loan: Loan, plan: seq<Installment>)
    requires PlanSound(loan, plan)
    ensures Sum(plan, TotalOf()) ==
            Sum(Schedule(loan, loan.disbursedOn.value), TotalOf()) + Sum(plan, PenalisedOne()) * PenaltyOf(loan)
  {
    var schedule := Schedule(loan, loan.disbursedOn.value);
    forall i | 0 <= i < |plan|
      ensures plan[i].total == schedule[i].total + plan[i].penalty
      ensures plan[i].penalty == 0 || plan[i].penalty == PenaltyOf(loan)
    {
      AsGenerated(loan, plan, i);
    }
    TotalsArePenaltiesAndSchedule(plan, schedule, |plan|);
    PenaltiesAreCounted(loan, plan, |plan|);
  }

  /** A loan is penalised fewer times than its installments were ever marked overdue, and fewer than it
      has installments. */
  lemma FewPenalties(loan: Loan, plan: seq<Installment>)
    requires PlanSound(loan, plan)
    ensures 0 <= Sum(plan, PenalisedOne()) <= loan.period.tenor - 1
    ensures Sum(plan, PenalisedOne()) > 0 ==> Sum(plan, PenalisedOne()) <= Sum(plan, EverOverdueOne()) - 1
  {
    SumToNonNegative(plan, PenalisedOne(), |plan|);
    SumBounds(plan, EverOverdueOne(), 0, 1, |plan|);
  }

  /** The cost lies between the total payable and that plus tenor - 1 penalties, both with the excess of the
      schedule; so the latter bounds it if there is no excess. */
  predicate CostIsBounded(loan: Loan, cost: int) {
    var most := (loan.period.tenor - 1) * PenaltyOf(loan);
    && loan.totalPayable + Excess(loan) <= cost <= loan.totalPayable + Excess(loan) + most
    && (Excess(loan) <= 0 ==> cost <= loan.totalPayable + most)
    && (Excess(loan) >= 0 ==> cost >= loan.totalPayable)
  }

  /** The lifetime cost, whatever the runs and settlements: the total payable, the excess of the schedule, and one
      penalty for each installment charged. It is bounded, and by the total payable and tenor - 1 penalties exactly
      while the penalties not yet charged make up for the excess. */
  lemma LifetimeCost(loan: Loan, plan: seq<Installment>)
    requires PlanSound(loan, plan) && Priced(loan)
    ensures CostIsBounded(loan, Sum(plan, TotalOf()))
    ensures var cost, most, charged := Sum(plan, TotalOf()), loan.period.tenor - 1, Sum(plan, PenalisedOne());
            && cost == loan.totalPayable + Excess(loan) + charged * PenaltyOf(loan)
            && (cost <= loan.totalPayable + most * PenaltyOf(loan) <==>
                  Excess(loan) <= (most - charged) * PenaltyOf(loan))
  {
    TotalsCountPenalties(loan, plan);
    TotalsSum(loan, loan.disbursedOn.value);
    FewPenalties(loan, plan);
    PaymentsAreNotNegative(loan);
    PenaltyIsNotNegative(loan);
    ProductBounds(Sum(plan, PenalisedOne()), loan.period.tenor - 1, PenaltyOf(loan));
  }

  /** A large amount keeps the excess within half a unit a month; an amount of at most four decimals that rounds
      evenly, as whole rupiah do, leaves none. */
  lemma LargeLoansExceedLittle(loan: Loan)
    requires Priced(loan) && IsLargeAmount(loan.requested, loan.period.tenor)
    ensures IsSmall(Excess(loan), loan.period.tenor)
    ensures HasFourDecimals(loan.requested) ==> (Excess(loan) == 0 <==> RoundsEvenly(loan))
    ensures loan.requested == loan.requested.Floor as real ==> Excess(loan) == 0
  {
    LargeAmountsLeaveALast(loan.requested, loan.period.tenor);
    SlackIsExact(loan);
    ExcessIsExact(loan);
    WholeRupiahRoundsEvenly(loan);
  }

  /** The plan after `n` runs that find every installment late. */
  function LateRuns(loan: Loan, disbursedOn: Date, cutoff: Date, n: nat): seq<Installment> {
    if n == 0 then Schedule(loan, disbursedOn)
    else AfterRun(LateRuns(loan, disbursedOn, cutoff, n - 1), PenaltyOf(loan), cutoff)
  }

  /** Such runs mark the installments in order and charge each but the last marked. */
  ghost predicate LateSoFar(loan: Loan, plan: seq<Installment>, n: nat) {
    && PlanSound(loan, plan) && n <= |plan|
    && (forall i :: 0 <= i < |plan| ==> plan[i].status == (if i < n then Overdue else Due))
    && (forall i :: 0 <= i < |plan| ==> plan[i].penalty == (if i + 1 < n then PenaltyOf(loan) else 0))
  }

  lemma AllAreDueBy(loan: Loan, plan: seq<Installment>, cutoff: Date, n: nat)
    requires LateSoFar(loan, plan, n) && n < |plan|
    requires DueDate(loan.disbursedOn.value, loan.period.tenor).NotAfter(cutoff)
    ensures IsOldestDue(plan, cutoff, n)
  {
    AsGenerated(loan, plan, n);
    DueDatesNeverDecrease(loan.disbursedOn.value, n + 1, loan.period.tenor);
  }

  lemma OneMoreIsLate(loan: Loan, plan: seq<Installment>, cutoff: Date, n: nat)
    requires LateSoFar(loan, plan, n) && n < |plan| && PenaltyOf(loan) > 0
    requires IsOldestDue(plan, cutoff, n)
    ensures LateSoFar(loan, AfterRun(plan, PenaltyOf(loan), cutoff), n + 1)
  {
    var now := AfterRun(plan, PenaltyOf(loan), cutoff);
    RunKeepsPlanSound(loan, plan, cutoff);
    assert forall i :: 0 <= i < |now| ==> now[i].status == (if i < n + 1 then Overdue else Due) by {
      RunMarksExactlyOne(plan, PenaltyOf(loan), cutoff);
    }
    RunPenalisesTheRest(loan, plan, cutoff, n);
    assert !(SomeOverdue(plan) && AllPenalised(plan)) by {
      LastMarkedIsFree(loan, plan, n);
    }
    LatePenalties(loan, now, n);
  }

  lemma LastMarkedIsFree(loan: Loan, plan: seq<Installment>, n: nat)
    requires LateSoFar(loan, plan, n)
    ensures !(SomeOverdue(plan) && AllPenalised(plan))
  {
    if n > 0 {
      assert plan[n - 1].status == Overdue && plan[n - 1].penalty == 0;
    }
  }

  lemma LatePenalties(loan: Loan, now: seq<Installment>, n: nat)
    requires PlanSound(loan, now) && n < |now|
    requires forall i :: 0 <= i < |now| ==> now[i].status == (if i < n + 1 then Overdue else Due)
    requires forall i :: 0 <= i < |now| && i != n && now[i].status == Overdue ==> now[i].penalty == PenaltyOf(loan)
    requires now[n].penalty != PenaltyOf(loan)
    ensures LateSoFar(loan, now, n + 1)
  {
    forall i | 0 <= i < |now|
      ensures now[i].penalty == (if i + 1 < n + 1 then PenaltyOf(loan) else 0)
    {
      assert InstallmentSound(loan, now[i], i);
    }
  }

  lemma {:induction false} LateRunsChargeAllButOne(loan: Loan, cutoff: Date, n: nat)
    requires loan.disbursedOn.Some? && ValidDate(loan.disbursedOn.value) && PenaltyOf(loan) > 0
    requires DueDate(loan.disbursedOn.value, loan.period.tenor).NotAfter(cutoff) && n <= loan.period.tenor
    ensures LateSoFar(loan, LateRuns(loan, loan.disbursedOn.value, cutoff, n), n)
  {
    if n == 0 {
      ScheduleIsSound(loan);
    } else {
      LateRunsChargeAllButOne(loan, cutoff, n - 1);
      var plan := LateRuns(loan, loan.disbursedOn.value, cutoff, n - 1);
      AllAreDueBy(loan, plan, cutoff, n - 1);
      OneMoreIsLate(loan, plan, cutoff, n - 1);
    }
  }

  lemma {:induction false} LateRunsAreSound(loan: Loan, cutoff: Date, n: nat)
    requires loan.disbursedOn.Some? && ValidDate(loan.disbursedOn.value)
    ensures PlanSound(loan, LateRuns(loan, loan.disbursedOn.value, cutoff, n))
  {
    if n == 0 {
      ScheduleIsSound(loan);
    } else {
      LateRunsAreSound(loan, cutoff, n - 1);
      RunKeepsPlanSound(loan, LateRuns(loan, loan.disbursedOn.value, cutoff, n - 1), cutoff);
    }
  }

  lemma LateCounts(loan: Loan, plan: seq<Installment>)
    requires LateSoFar(loan, plan, |plan|) && plan != [] && PenaltyOf(loan) > 0
    ensures Sum(plan, PenalisedOne()) == |plan| - 1
  {
    ConstantThenLast(plan, PenalisedOne(), 1, 0);
  }

  lemma LateCost(loan: Loan, plan: seq<Installment>)
    requires PlanSound(loan, plan) && Priced(loan)
    requires PenaltyOf(loan) > 0 ==> Sum(plan, PenalisedOne()) == loan.period.tenor - 1
    ensures Sum(plan, TotalOf()) == loan.totalPayable + Excess(loan) + (loan.period.tenor - 1) * PenaltyOf(loan)
  {
    PaymentsAreNotNegative(loan);
    PenaltyIsNotNegative(loan);
    LifetimeCost(loan, plan);
  }

  /** The bound is met: a member who is late with everything is charged tenor - 1 penalties. So the total payable
      and tenor - 1 penalties bound the cost of the loan in all plans if and only if its schedule has no excess. */
  lemma {:induction false} LateRunsReachTheBound(loan: Loan, cutoff: Date)
    requires loan.disbursedOn.Some? && ValidDate(loan.disbursedOn.value) && Priced(loan)
    requires DueDate(loan.disbursedOn.value, loan.period.tenor).NotAfter(cutoff)
    ensures var plan := LateRuns(loan, loan.disbursedOn.value, cutoff, loan.period.tenor);
            var most := (loan.period.tenor - 1) * PenaltyOf(loan);
            && PlanSound(loan, plan)
            && Sum(plan, TotalOf()) == loan.totalPayable + Excess(loan) + most
            && (Sum(plan, TotalOf()) <= loan.totalPayable + most <==> Excess(loan) <= 0)
  {
    var plan := LateRuns(loan, loan.disbursedOn.value, cutoff, loan.period.tenor);
    LateRunsAreSound(loan, cutoff, loan.period.tenor);
    if PenaltyOf(loan) > 0 {
      LateRunsChargeAllButOne(loan, cutoff, loan.period.tenor);
      LateCounts(loan, plan);
    }
    LateCost(loan, plan);
  }

  /** A penalty is a month's interest on the stored principal, to the nearest unit. */
  lemma PenaltyIsNearest(loan: Loan)
    requires loan.principal >= 0
    ensures IsNearest(PenaltyOf(loan), loan.principal as real / 10000.0 * (loan.period.rate as real / 10000.0))
  {
    ExactPenalty(loan.principal, loan.period.rate);
    NearestOfUnits(loan.principal * loan.period.rate,
                   loan.principal as real / 10000.0 * (loan.period.rate as real / 10000.0));
  }

  lemma NearestOfUnits(numerator: int, x: real)
    requires numerator >= 0 && x * 10000.0 == numerator as real / 10000.0
    ensures IsNearest((numerator + 5000) / 10000, x)
  {
  }

  lemma PenaltyIsNotNegative(loan: Loan)
    requires loan.principal >= 0
    ensures PenaltyOf(loan) >= 0
  {
  }

  lemma ProductBounds(n: int, m: int, p: int)
    requires 0 <= n <= m && p >= 0
    ensures 0 <= n * p <= m * p
    ensures (m - n) * p == m * p - n * p
  {
  }

  // ----- what settling posts

  /** What a paid installment has brought in: interest and penalty to SHU, principal to capital. */
  function PaidPart(x: Installment): Amounts {
    if x.status == Paid then Amounts(x.interest + x.penalty, x.principal) else ZERO
  }

  /** Once all installments are paid, they have brought in exactly the principal, and the interest of every
      month with every penalty charged. */
  lemma AllPaidBringsInPrincipal(loan: Loan, plan: seq<Installment>)
    requires PlanSound(loan, plan)
    requires forall i :: 0 <= i < |plan| ==> plan[i].status == Paid
    ensures SumAmounts(plan, PaidPart).capital == loan.principal
    ensures SumAmounts(plan, PaidPart).shu ==
            loan.period.tenor * loan.interest + Sum(plan, PenalisedOne()) * PenaltyOf(loan)
  {
    forall i | 0 <= i < |plan|
      ensures plan[i].principal == Schedule(loan, loan.disbursedOn.value)[i].principal
      ensures plan[i].interest == loan.interest
      ensures plan[i].penalty == 0 || plan[i].penalty == PenaltyOf(loan)
    {
      AsGenerated(loan, plan, i);
    }
    PaidPrincipals(loan, plan);
    PaidInterest(loan, plan);
  }

  lemma PaidPrincipals(loan: Loan, plan: seq<Installment>)
    requires loan.disbursedOn.Some? && |plan| == loan.period.tenor
    requires forall i :: 0 <= i < |plan| ==> plan[i].status == Paid
    requires forall i :: 0 <= i < |plan| ==> plan[i].principal == Schedule(loan, loan.disbursedOn.value)[i].principal
    ensures SumAmounts(plan, PaidPart).capital == loan.principal
  {
    var schedule := Schedule(loan, loan.disbursedOn.value);
    forall i | 0 <= i < |plan|
      ensures CapitalOf(PaidPart)(plan[i]) == PrincipalOf()(schedule[i]) + 0
    {
      assert PaidPart(plan[i]).capital == plan[i].principal;
    }
    SumPointwise(plan, schedule, CapitalOf(PaidPart), PrincipalOf(), 0);
    PrincipalsSumToPrincipal(loan, loan.disbursedOn.value);
  }

  lemma PaidInterest(loan: Loan, plan: seq<Installment>)
    requires forall i :: 0 <= i < |plan| ==> plan[i].status == Paid && plan[i].interest == loan.interest
    requires forall i :: 0 <= i < |plan| ==> plan[i].penalty == 0 || plan[i].penalty == PenaltyOf(loan)
    ensures SumAmounts(plan, PaidPart).shu == |plan| * loan.interest + Sum(plan, PenalisedOne()) * PenaltyOf(loan)
  {
    forall i | 0 <= i < |plan|
      ensures ShuOf(PaidPart)(plan[i]) == PenaltyAmount()(plan[i]) + loan.interest
    {
      assert PaidPart(plan[i]).shu == plan[i].interest + plan[i].penalty;
    }
    SumPointwise(plan, plan, ShuOf(PaidPart), PenaltyAmount(), loan.interest);
    PenaltiesAreCounted(loan, plan, |plan|);
  }
}
