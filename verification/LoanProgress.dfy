/** Loans can get on: what is pending can be disbursed, and what is disbursed can be paid off, from wherever a run
    has led. */
module LoanProgress {
  import opened Basics
  import opened Schema
  import opened LoanSchedule
  import opened LoanPenalties
  import opened Loans
  import opened Cooperative
  import opened Repayments
  import opened CooperativeRuns
  import opened LoanLifecycle

  // ----- to disbursement

  /** The loan was disbursed on `day` and its installments are as they were generated. */
  ghost predicate FreshLoan(b: Lending, l: nat, day: Date) {
    && HasLoan(b, l) && IsActive(b, l) && b.loans[l].disbursedOn == Some(day)
    && b.installments[l] == Schedule(b.loans[l], day)
  }

  /** A pending loan that capital can pay out becomes active, with its schedule, by approval and one disbursement. */
  lemma PendingLoansCanBeDisbursed(s: State, l: nat, today: Day, date: int)
    requires SystemInv(s) && l < |s.lending.loans| && s.lending.loans[l].status == Pending
    requires LOAN_DISBURSEMENT in s.categories
    requires 0 < s.lending.loans[l].disbursed <= s.books.balances.capital && s.lending.loans[l].adminFee > 0
    ensures var ready := After(After(s, Approve(l)), ReadLoan(l));
            FreshLoan(After(ready, Disburse(|s.lending.readers|, today, date)).lending, l, today)
  {
    ApprovingApproves(s, l);
    StepKeepsInv(s, Approve(l));
    ApprovedLoansCanBeDisbursed(After(s, Approve(l)), l, today, date);
  }

  lemma ApprovingApproves(s: State, l: nat)
    requires LendingInv(s.lending) && l < |s.lending.loans| && s.lending.loans[l].status == Pending
    ensures After(s, Approve(l)) == WithLoan(s, l, s.lending.loans[l].(status := Approved))
  {
    DecisionOutcome(s, l, Approved);
  }

  lemma ApprovedLoansCanBeDisbursed(s: State, l: nat, today: Day, date: int)
    requires SystemInv(s) && l < |s.lending.loans| && s.lending.loans[l].status == Approved
    requires LOAN_DISBURSEMENT in s.categories
    requires 0 < s.lending.loans[l].disbursed <= s.books.balances.capital && s.lending.loans[l].adminFee > 0
    ensures var disburse := Disburse(|s.lending.readers|, today, date);
            FreshLoan(After(After(s, ReadLoan(l)), disburse).lending, l, today)
  {
    StepKeepsInv(s, ReadLoan(l));
    ReadingWaits(s, l);
    WaitingDisburses(After(s, ReadLoan(l)), |s.lending.readers|, today, date);
  }

  lemma ReadingWaits(s: State, l: nat)
    requires l < |s.lending.loans| && s.lending.loans[l].status == Approved && LOAN_DISBURSEMENT in s.categories
    ensures After(s, ReadLoan(l)) ==
            s.(lending := s.lending.(readers := s.lending.readers + [(l, s.lending.loans[l])]))
  {
  }

  lemma WaitingDisburses(s: State, k: nat, today: Day, date: int)
    requires SystemInv(s) && k < |s.lending.readers| && LOAN_DISBURSEMENT in s.categories
    requires var (l, loan) := s.lending.readers[k];
             && l < |s.lending.loans| && s.lending.loans[l].status == Approved
             && 0 < loan.disbursed <= s.books.balances.capital && loan.adminFee > 0
    ensures FreshLoan(After(s, Disburse(k, today, date)).lending, s.lending.readers[k].0, today)
  {
    DisbursementOutcome(s, k, today, date);
    DisbursingIsAStep(s, k, today, date);
    CommitIsFresh(s, k, today, date);
  }

  lemma CommitIsFresh(s: State, k: nat, today: Day, date: int)
    requires SystemInv(s) && Disbursed(s, k, today, date).Success?
    ensures FreshLoan(Disbursed(s, k, today, date).value.lending, s.lending.readers[k].0, today)
  {
    DisbursedShape(s, k, today, date);
    ScheduledIsFresh(s.lending, s.lending.readers[k].0, today);
  }

  lemma ScheduledIsFresh(b: Lending, l: nat, today: Date)
    requires IsApproved(b, l)
    ensures FreshLoan(WithSchedule(b, l, today), l, today)
  {
    SameSchedule(b.loans[l], WithSchedule(b, l, today).loans[l], today);
  }

  // ----- to full repayment

  /** A run followed by the settlement of the first `n` installments of loan `l`, in order. */
  function Settling(commands: seq<Command>, l: nat, n: nat, date: int): seq<Command> {
    if n == 0 then commands else Settling(commands, l, n - 1, date) + [Settle(l, n - 1, date)]
  }

  ghost predicate PaidUpTo(b: Lending, l: nat, n: nat) {
    && HasLoan(b, l) && n <= |b.installments[l]|
    && forall i :: 0 <= i < n ==> b.installments[l][i].status == Paid
  }

  lemma PaidStaysPaid(was: Lending, now: Lending, l: nat, n: nat)
    requires PaidUpTo(was, l, n) && n < |was.installments[l]|
    requires LoanLater(was, now, l) && was.loans[l].status == Active
    requires now.installments[l][n].status == Paid
    ensures PaidUpTo(now, l, n + 1) && now.loans[l] == was.loans[l]
  {
    forall i | 0 <= i < n
      ensures now.installments[l][i].status == Paid
    {
      assert Progressed(was.installments[l][i], now.installments[l][i]);
    }
  }

  lemma SettlingPaysOne(s: State, l: nat, n: nat, date: int)
    requires SystemInv(s) && IsActive(s.lending, l) && IsPayable(s.lending.loans[l])
    requires PaidUpTo(s.lending, l, n) && n < |s.lending.installments[l]|
    ensures var now := After(s, Settle(l, n, date)).lending;
            PaidUpTo(now, l, n + 1) && now.loans[l] == s.lending.loans[l]
  {
    PayableLoansAlwaysSettle(s, l, n, date);
    StepMovesForward(s, Settle(l, n, date), l);
    StepMovesInstallment(s, Settle(l, n, date), l, n);
    PaidStaysPaid(s.lending, After(s, Settle(l, n, date)).lending, l, n);
  }

  ghost predicate PaidAfter(categories: map<nat, Source>, commands: seq<Command>, l: nat, n: nat, loan: Loan) {
    var b := Run(categories, commands).lending;
    PaidUpTo(b, l, n) && b.loans[l] == loan
  }

  lemma OneMoreIsPaid(categories: map<nat, Source>, commands: seq<Command>, l: nat, n: nat, date: int, loan: Loan)
    requires PaidAfter(categories, commands, l, n, loan)
    requires loan.status == Active && IsPayable(loan) && n < loan.period.tenor
    ensures PaidAfter(categories, commands + [Settle(l, n, date)], l, n + 1, loan)
  {
    EveryRunKeepsInv(categories, commands);
    RunAppend(categories, commands, Settle(l, n, date));
    PostedAsActive(Run(categories, commands), l);
    SettlingPaysOne(Run(categories, commands), l, n, date);
  }

  lemma {:induction false} SettlingPaysAll(categories: map<nat, Source>, commands: seq<Command>, l: nat, n: nat,
                                           date: int, loan: Loan)
    requires PaidAfter(categories, commands, l, 0, loan)
    requires loan.status == Active && IsPayable(loan) && n <= loan.period.tenor
    ensures PaidAfter(categories, Settling(commands, l, n, date), l, n, loan)
  {
    if n > 0 {
      SettlingPaysAll(categories, commands, l, n - 1, date, loan);
      OneMoreIsPaid(categories, Settling(commands, l, n - 1, date), l, n - 1, date, loan);
    }
  }

  /** From any point of any run, settling the installments of a payable loan in order pays it off, and its repayments
      then have posted exactly its principal to capital and its interest and penalties to SHU. */
  lemma {:induction false} LoansCanBePaidOff(categories: map<nat, Source>, commands: seq<Command>, l: nat, date: int)
    requires IsActive(Run(categories, commands).lending, l) && IsPayable(Run(categories, commands).lending.loans[l])
    ensures var loan := Run(categories, commands).lending.loans[l];
            var s := Run(categories, Settling(commands, l, loan.period.tenor, date));
            && PaidUpTo(s.lending, l, loan.period.tenor)
            && SumAmounts(s.books.incomes, Repayment(l)) ==
               Amounts(loan.period.tenor * loan.interest +
                       Sum(PlanAt(s.lending, l), PenalisedOne()) * PenaltyOf(loan), loan.principal)
  {
    var loan := Run(categories, commands).lending.loans[l];
    var all := Settling(commands, l, loan.period.tenor, date);
    EveryRunKeepsInv(categories, commands);
    SettlingPaysAll(categories, commands, l, loan.period.tenor, date, loan);
    EveryRunKeepsInv(categories, all);
    PostedAsActive(Run(categories, all), l);
    EveryRunRepays(categories, all, l);
  }

  /** Loans of large amounts are payable, so they can. */
  lemma {:induction false} LargeLoansCanBePaidOff(categories: map<nat, Source>, commands: seq<Command>, l: nat,
                                                  date: int)
    requires IsActive(Run(categories, commands).lending, l) && IsLarge(Run(categories, commands).lending.loans[l])
    ensures var loan := Run(categories, commands).lending.loans[l];
            var s := Run(categories, Settling(commands, l, loan.period.tenor, date));
            IsPayable(loan) && PaidUpTo(s.lending, l, loan.period.tenor)
  {
    var b := Run(categories, commands).lending;
    EveryRunKeepsInv(categories, commands);
    assert LoanSound(b.loans[l], b.installments[l]);
    LargeLoansArePayable(b.loans[l]);
    LoansCanBePaidOff(categories, commands, l, date);
  }
}
