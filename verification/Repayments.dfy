/** The overdue run and settlement inside the whole system: what they leave of the invariant, and what a
    settlement posts. */
module Repayments {
  import opened Basics
  import opened Schema
  import opened CashbookLedger
  import opened Incomes
  import opened LoanSchedule
  import opened LoanPenalties
  import opened Loans
  import opened Cooperative

  // ----- the overdue run

  /** Only due and overdue rows change, and neither has brought anything in. */
  lemma RunKeepsPaidParts(plan: seq<Installment>, penalty: int, cutoff: Date)
    ensures SumAmounts(AfterRun(plan, penalty, cutoff), PaidPart) == SumAmounts(plan, PaidPart)
  {
    SumAmountsSame(AfterRun(plan, penalty, cutoff), plan, PaidPart, PaidPart);
  }

  lemma RunKeepsPlans(b: Lending, cutoff: Date)
    requires LendingInv(b)
    ensures LendingInv(b.(installments := AfterRuns(b.loans, b.installments, cutoff)))
  {
    var now := b.(installments := AfterRuns(b.loans, b.installments, cutoff));
    forall l | 0 <= l < |b.loans|
      ensures LoanSound(b.loans[l], now.installments[l])
    {
      assert LoanSound(b.loans[l], b.installments[l]);
      if b.loans[l].status == Active {
        RunKeepsPlanSound(b.loans[l], b.installments[l], cutoff);
      }
    }
    forall k | 0 <= k < |now.readers|
      ensures ReaderSound(now, now.readers[k])
    {
      assert ReaderSound(b, b.readers[k]);
    }
  }

  lemma RunKeepsParts(b: Lending, cutoff: Date)
    requires |b.loans| == |b.installments|
    ensures var now := AfterRuns(b.loans, b.installments, cutoff);
            && Sum(now, PlanCapital()) == Sum(b.installments, PlanCapital())
            && Sum(now, PlanShu()) == Sum(b.installments, PlanShu())
            && forall l: nat :: l < |now| ==> SumAmounts(now[l], PaidPart) == SumAmounts(b.installments[l], PaidPart)
  {
    var now := AfterRuns(b.loans, b.installments, cutoff);
    forall l: nat | l < |now|
      ensures SumAmounts(now[l], PaidPart) == SumAmounts(b.installments[l], PaidPart)
    {
      RunKeepsPaidParts(b.installments[l], PenaltyOf(b.loans[l]), cutoff);
    }
    SumPointwise(now, b.installments, PlanCapital(), PlanCapital(), 0);
    SumPointwise(now, b.installments, PlanShu(), PlanShu(), 0);
  }

  lemma RunOverdueKeepsInv(s: State, cutoff: Date)
    requires SystemInv(s)
    ensures SystemInv(OverdueRun(s, cutoff))
  {
    var b, now := s.lending, OverdueRun(s, cutoff).lending;
    RunKeepsPlans(b, cutoff);
    RunKeepsParts(b, cutoff);
    forall l: nat
      ensures PostedFor(s.books.incomes, now, l)
    {
      assert PostedFor(s.books.incomes, b, l);
    }
  }

  /** What a monthly run does to the tables: in each plan it makes overdue the oldest row due by the cutoff; no other
      status changes, and nothing but the installments. */
  lemma RunOutcome(s: State, cutoff: Date)
    requires SystemInv(s)
    ensures var plans, was := OverdueRun(s, cutoff).lending.installments, s.lending.installments;
            && OverdueRun(s, cutoff) == s.(lending := s.lending.(installments := plans))
            && |plans| == |was|
            && (forall l :: 0 <= l < |was| ==> IsRunOf(plans[l], was[l], cutoff))
  {
    var was := s.lending.installments;
    forall l | 0 <= l < |was|
      ensures IsRunOf(OverdueRun(s, cutoff).lending.installments[l], was[l], cutoff)
    {
      RunMarksExactlyOne(was[l], PenaltyOf(s.lending.loans[l]), cutoff);
    }
  }

  ghost predicate IsRunOf(now: seq<Installment>, was: seq<Installment>, cutoff: Date) {
    && |now| == |was|
    && forall i :: 0 <= i < |was| ==>
         now[i].status == if IsOldestDue(was, cutoff, i) then Overdue else was[i].status
  }

  // ----- settlement

  /** The incomes of one settlement, in the order they are recorded. */
  function Collections(l: nat, x: Installment): seq<Option<Income>> {
    [Some(Income(InstallmentPrincipal(l, x.number), x.principal, Capital))] + ShuCollections(l, x)
  }

  function ShuCollections(l: nat, x: Installment): seq<Option<Income>> {
    [Some(Income(InstallmentInterest(l, x.number), x.interest, Shu))] +
    (if x.penalty > 0 then [Some(Income(InstallmentPenalty(l, x.number), x.penalty, Shu))] else [])
  }

  lemma CollectedShuOutcome(b: Books, l: nat, x: Installment, date: int)
    requires LedgerInv(b) && x.penalty >= 0
    ensures CollectedShu(b, l, x, date).Success? <==> x.interest > 0
    ensures CollectedShu(b, l, x, date).Success? ==>
              var now := CollectedShu(b, l, x, date).value;
              && LedgerInv(now)
              && now.balances == b.balances.Plus(Amounts(x.interest + x.penalty, 0))
              && now.incomes == b.incomes + ShuCollections(l, x)
              && now.expenses == b.expenses
  {
    EarnedOutcome(b, InstallmentInterest(l, x.number), x.interest, date);
    if x.interest > 0 && x.penalty > 0 {
      var interest := Earned(b, InstallmentInterest(l, x.number), x.interest, date).value;
      EarnedOutcome(interest, InstallmentPenalty(l, x.number), x.penalty, date);
    }
  }

  /** Recording goes through exactly when there is principal and interest to record, and moves each bucket by
      its own part. */
  lemma CollectedOutcome(b: Books, l: nat, x: Installment, date: int)
    requires LedgerInv(b) && x.penalty >= 0
    ensures Collected(b, l, x, date).Success? <==> x.principal > 0 && x.interest > 0
    ensures Collected(b, l, x, date).Success? ==>
              var now := Collected(b, l, x, date).value;
              && LedgerInv(now)
              && now.balances == b.balances.Plus(Amounts(x.interest + x.penalty, x.principal))
              && now.incomes == b.incomes + Collections(l, x)
              && now.expenses == b.expenses
  {
    EarnedOutcome(b, InstallmentPrincipal(l, x.number), x.principal, date);
    if x.principal > 0 {
      CollectedShuOutcome(Earned(b, InstallmentPrincipal(l, x.number), x.principal, date).value, l, x, date);
    }
  }

  lemma CollectionsSum(incomes: seq<Option<Income>>, l: nat, x: Installment, i: nat)
    requires x.penalty >= 0
    ensures SumAmounts(incomes + Collections(l, x), Repayment(i)) ==
            if i == l then SumAmounts(incomes, Repayment(i)).Plus(Amounts(x.interest + x.penalty, x.principal))
            else SumAmounts(incomes, Repayment(i))
    ensures Sum(incomes + Collections(l, x), FeeCount(i)) == Sum(incomes, FeeCount(i))
  {
    var all := Collections(l, x);
    var one, two := incomes + [all[0]], incomes + [all[0]] + [all[1]];
    SumAmountsAppend(incomes, all[0], Repayment(i));
    SumAmountsAppend(one, all[1], Repayment(i));
    SumAppend(incomes, all[0], FeeCount(i));
    SumAppend(one, all[1], FeeCount(i));
    if x.penalty > 0 {
      SumAmountsAppend(two, all[2], Repayment(i));
      SumAppend(two, all[2], FeeCount(i));
      assert incomes + all == two + [all[2]];
    } else {
      assert incomes + all == two;
    }
  }

  /** Settlement's place in the tables: the installment, its plan and its loan. */
  ghost predicate Unpaid(b: Lending, l: nat, i: nat) {
    HasLoan(b, l) && i < |b.installments[l]| && b.installments[l][i].status != Paid
  }

  function WithPaid(b: Lending, l: nat, i: nat): Lending
    requires HasLoan(b, l) && i < |b.installments[l]|
  {
    b.(installments := b.installments[l := b.installments[l][i := b.installments[l][i].(status := Paid)]])
  }

  lemma UnpaidIsSound(b: Lending, l: nat, i: nat)
    requires LendingInv(b) && Unpaid(b, l, i)
    ensures b.loans[l].status == Active && PlanSound(b.loans[l], b.installments[l])
    ensures b.installments[l][i].penalty >= 0
  {
    assert LoanSound(b.loans[l], b.installments[l]);
    AsGenerated(b.loans[l], b.installments[l], i);
    PenaltyIsNotNegative(b.loans[l]);
  }

  lemma PayingKeepsLending(b: Lending, l: nat, i: nat)
    requires LendingInv(b) && Unpaid(b, l, i)
    ensures LendingInv(WithPaid(b, l, i))
  {
    var now := WithPaid(b, l, i);
    UnpaidIsSound(b, l, i);
    PayingKeepsPlanSound(b.loans[l], b.installments[l], i);
    forall j | 0 <= j < |now.loans|
      ensures LoanSound(now.loans[j], now.installments[j])
    {
      assert LoanSound(b.loans[j], b.installments[j]);
    }
    forall k | 0 <= k < |now.readers|
      ensures ReaderSound(now, now.readers[k])
    {
      assert ReaderSound(b, b.readers[k]);
    }
  }

  lemma PayingBringsIn(b: Lending, l: nat, i: nat)
    requires Unpaid(b, l, i)
    ensures var x, now := b.installments[l][i], WithPaid(b, l, i);
            && SumAmounts(now.installments[l], PaidPart) ==
               SumAmounts(b.installments[l], PaidPart).Plus(Amounts(x.interest + x.penalty, x.principal))
            && Sum(now.installments, PlanCapital()) == Sum(b.installments, PlanCapital()) + x.principal
            && Sum(now.installments, PlanShu()) == Sum(b.installments, PlanShu()) + x.interest + x.penalty
  {
    var x, now := b.installments[l][i], WithPaid(b, l, i);
    SumAmountsUpdate(b.installments[l], i, x.(status := Paid), PaidPart);
    SumUpdate(b.installments, l, now.installments[l], PlanCapital());
    SumUpdate(b.installments, l, now.installments[l], PlanShu());
  }

  lemma SettlePosts(incomes: seq<Option<Income>>, b: Lending, l: nat, i: nat)
    requires AllPosted(incomes, b) && Unpaid(b, l, i) && b.installments[l][i].penalty >= 0
    ensures AllPosted(incomes + Collections(l, b.installments[l][i]), WithPaid(b, l, i))
  {
    var x, now := b.installments[l][i], WithPaid(b, l, i);
    forall j: nat
      ensures PostedFor(incomes + Collections(l, x), now, j)
    {
      assert PostedFor(incomes, b, j);
      CollectionsSum(incomes, l, x, j);
      PayingBringsIn(b, l, i);
      assert j != l ==> PlanAt(now, j) == PlanAt(b, j);
    }
  }

  /** What a settlement does to the tables: the installment is paid, its parts are in their buckets with an income for
      each, and nothing else has changed. */
  lemma SettledShape(s: State, l: nat, i: nat, date: int)
    requires SystemInv(s) && Settled(s, l, i, date).Success?
    ensures var now, x, plan := Settled(s, l, i, date).value, s.lending.installments[l][i], s.lending.installments[l];
            && now.lending == s.lending.(installments := s.lending.installments[l := plan[i := x.(status := Paid)]])
            && now.deposits == s.deposits && now.categories == s.categories
            && now.books.balances == s.books.balances.Plus(Amounts(x.interest + x.penalty, x.principal))
            && now.books.incomes == s.books.incomes + Collections(l, x)
            && now.books.expenses == s.books.expenses
  {
    UnpaidIsSound(s.lending, l, i);
    CollectedOutcome(s.books, l, s.lending.installments[l][i], date);
  }

  lemma SettleKeepsInv(s: State, l: nat, i: nat, date: int)
    requires SystemInv(s) && Settled(s, l, i, date).Success?
    ensures SystemInv(Settled(s, l, i, date).value)
  {
    var x, now := s.lending.installments[l][i], Settled(s, l, i, date).value;
    assert now.lending == WithPaid(s.lending, l, i);
    UnpaidIsSound(s.lending, l, i);
    CollectedOutcome(s.books, l, x, date);
    PayingKeepsLending(s.lending, l, i);
    PayingBringsIn(s.lending, l, i);
    SettlePosts(s.books.incomes, s.lending, l, i);
  }

  // ----- when a settlement goes through

  /** An unpaid installment settles exactly when its interest is positive and the months before it leave some
      principal for it: always, but for the last installment of an amount the rounding has used up. */
  lemma SettlementOutcome(s: State, l: nat, i: nat, date: int)
    requires SystemInv(s) && HasLoan(s.lending, l) && i < |s.lending.installments[l]|
    ensures var loan := s.lending.loans[l];
            Settled(s, l, i, date).Success? <==>
              && s.lending.installments[l][i].status != Paid
              && loan.interest > 0
              && (i + 1 < loan.period.tenor || LeavesALast(loan))
    ensures Settled(s, l, i, date).Failure? ==>
              Settled(s, l, i, date).error ==
              if s.lending.installments[l][i].status == Paid then AlreadyPaid else AmountsNotPositive
  {
    if s.lending.installments[l][i].status != Paid {
      UnpaidIsSound(s.lending, l, i);
      CollectedOutcome(s.books, l, s.lending.installments[l][i], date);
      assert LoanSound(s.lending.loans[l], s.lending.installments[l]);
      PrincipalLeft(s.lending.loans[l], s.lending.installments[l], i);
    }
  }

  lemma PrincipalLeft(loan: Loan, plan: seq<Installment>, i: nat)
    requires PlanSound(loan, plan) && Priced(loan) && i < |plan|
    ensures plan[i].interest == loan.interest
    ensures plan[i].principal > 0 <==> i + 1 < loan.period.tenor || LeavesALast(loan)
  {
    AsGenerated(loan, plan, i);
    MonthlyIsPositive(loan.requested, loan.period.tenor);
  }

  /** From one rupiah on, any rate above zero makes the stored interest positive. */
  lemma RatedLoansBearInterest(loan: Loan)
    requires Priced(loan) && loan.principal >= RUPIAH
    ensures loan.interest > 0 <==> loan.period.rate > 0
  {
    TimesIsNotNegative(loan.period.rate, loan.requested);
  }

  /** The loan bears interest, and its first months leave something for the last. */
  predicate IsPayable(loan: Loan) { loan.interest > 0 && LeavesALast(loan) }

  /** Settling an installment of such a loan fails only for what is already paid. */
  lemma PayableLoansAlwaysSettle(s: State, l: nat, i: nat, date: int)
    requires SystemInv(s) && HasLoan(s.lending, l) && i < |s.lending.installments[l]|
    requires IsPayable(s.lending.loans[l])
    ensures Settled(s, l, i, date).Success? <==> s.lending.installments[l][i].status != Paid
  {
    SettlementOutcome(s, l, i, date);
  }

  /** A large amount, of a rupiah at least, and a rate. */
  ghost predicate IsLarge(loan: Loan) {
    IsLargeAmount(loan.requested, loan.period.tenor) && loan.principal >= RUPIAH && loan.period.rate > 0
  }

  lemma LargeLoansArePayable(loan: Loan)
    requires Priced(loan) && IsLarge(loan)
    ensures IsPayable(loan)
  {
    RatedLoansBearInterest(loan);
    LargeAmountsLeaveALast(loan.requested, loan.period.tenor);
  }

  /** So a loan of a large amount can be paid off whatever happens. */
  lemma LargeLoansAlwaysSettle(s: State, l: nat, i: nat, date: int)
    requires SystemInv(s) && HasLoan(s.lending, l) && i < |s.lending.installments[l]|
    requires IsLarge(s.lending.loans[l])
    ensures Settled(s, l, i, date).Success? <==> s.lending.installments[l][i].status != Paid
  {
    assert LoanSound(s.lending.loans[l], s.lending.installments[l]);
    LargeLoansArePayable(s.lending.loans[l]);
    PayableLoansAlwaysSettle(s, l, i, date);
  }
}
