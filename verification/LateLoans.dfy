/** How far the cost of a loan can go over whole runs: the bound that is always kept, and the runs that reach it. */
module LateLoans {
  import opened Basics
  import opened Schema
  import opened LoanSchedule
  import opened LoanPenalties
  import opened Loans
  import opened Cooperative
  import opened CooperativeRuns
  import opened LoanLifecycle
  import opened LoanProgress
  import opened Grants

  /** A run followed by `n` monthly overdue runs. */
  function RunningLate(commands: seq<Command>, cutoff: Date, n: nat): seq<Command> {
    if n == 0 then commands else RunningLate(commands, cutoff, n - 1) + [RunOverdue(cutoff)]
  }

  /** `loan` has been late `n` times since its disbursement, and nothing else has happened to it. */
  ghost predicate IsLate(b: Lending, l: nat, loan: Loan, cutoff: Date, n: nat) {
    && HasLoan(b, l) && b.loans[l] == loan && loan.disbursedOn.Some?
    && b.installments[l] == LateRuns(loan, loan.disbursedOn.value, cutoff, n)
  }

  lemma OverdueRunIsLate(s: State, l: nat, loan: Loan, cutoff: Date, n: nat)
    requires IsLate(s.lending, l, loan, cutoff, n)
    ensures IsLate(After(s, RunOverdue(cutoff)).lending, l, loan, cutoff, n + 1)
  {
  }

  lemma {:induction false} RunsAreLate(categories: map<nat, Source>, commands: seq<Command>, l: nat, loan: Loan,
                                       cutoff: Date, n: nat)
    requires IsLate(Run(categories, commands).lending, l, loan, cutoff, 0)
    ensures IsLate(Run(categories, RunningLate(commands, cutoff, n)).lending, l, loan, cutoff, n)
  {
    if n > 0 {
      var before := RunningLate(commands, cutoff, n - 1);
      RunsAreLate(categories, commands, l, loan, cutoff, n - 1);
      RunAppend(categories, before, RunOverdue(cutoff));
      OverdueRunIsLate(Run(categories, before), l, loan, cutoff, n - 1);
    }
  }

  /** The total payable, and a penalty for each installment but one. */
  function Promised(loan: Loan): int { loan.totalPayable + (loan.period.tenor - 1) * PenaltyOf(loan) }

  /** A schedule without excess keeps the promise in every run. */
  lemma {:induction false} EveryRunKeepsThePromise(categories: map<nat, Source>, commands: seq<Command>, l: nat)
    requires var b := Run(categories, commands).lending;
             IsActive(b, l) && Excess(b.loans[l]) <= 0
    ensures var b := Run(categories, commands).lending;
            Sum(PlanAt(b, l), TotalOf()) <= Promised(b.loans[l])
  {
    EveryRunBoundsCost(categories, commands, l);
  }

  lemma FreshIsPriced(b: Lending, l: nat, day: Date)
    requires LendingInv(b) && FreshLoan(b, l, day)
    ensures Priced(b.loans[l]) && ValidDate(day)
  {
    assert LoanSound(b.loans[l], b.installments[l]);
  }

  lemma LateLoanCosts(b: Lending, l: nat, loan: Loan, cutoff: Date)
    requires IsLate(b, l, loan, cutoff, loan.period.tenor)
    requires Priced(loan) && ValidDate(loan.disbursedOn.value)
    requires DueDate(loan.disbursedOn.value, loan.period.tenor).NotAfter(cutoff)
    ensures Sum(b.installments[l], TotalOf()) == Promised(loan) + Excess(loan)
  {
    LateRunsReachTheBound(loan, cutoff);
  }

  /** And no other: from a disbursement on, as many overdue runs as there are installments reach the promise and the
      excess. So the promise holds of all runs if and only if there is none. */
  lemma {:induction false} LateRunsTestThePromise(categories: map<nat, Source>, commands: seq<Command>, l: nat,
                                                  loan: Loan, day: Date, cutoff: Date)
    requires FreshLoan(Run(categories, commands).lending, l, day) && Run(categories, commands).lending.loans[l] == loan
    requires DueDate(day, loan.period.tenor).NotAfter(cutoff)
    ensures var b := Run(categories, RunningLate(commands, cutoff, loan.period.tenor)).lending;
            && HasLoan(b, l) && b.loans[l] == loan
            && Sum(b.installments[l], TotalOf()) == Promised(loan) + Excess(loan)
            && (Sum(b.installments[l], TotalOf()) <= Promised(loan) <==> Excess(loan) <= 0)
  {
    EveryRunKeepsInv(categories, commands);
    FreshIsPriced(Run(categories, commands).lending, l, day);
    RunsAreLate(categories, commands, l, loan, cutoff, loan.period.tenor);
    LateLoanCosts(Run(categories, RunningLate(commands, cutoff, loan.period.tenor)).lending, l, loan, cutoff);
  }

  // ----- at the seeded period

  lemma HalfUnitCanBeGranted(categories: map<nat, Source>, a: Application)
    requires LOAN_DISBURSEMENT in categories
    requires a.amount == 1_000_000.005 && a.period == LoanPeriod(3, 100) && a.feeRate == 0.02
    ensures CanBeGranted(categories, a)
  {
    assert Units(a.amount * a.feeRate) == 200_000_001.0;
    assert Units(a.amount - a.amount * a.feeRate) == 9_800_000_049.0;
  }

  lemma {:induction false} GrantedLoanIs(categories: map<nat, Source>, a: Application, today: Day, date: int)
    requires CanBeGranted(categories, a)
    ensures var b := Run(categories, a.Granting(today, date)).lending;
            FreshLoan(b, 0, today) && SameTerms(a.Loan(), b.loans[0])
  {
    GrantedIsFresh(categories, a, today, date);
    GrantedStays(categories, a, today, date, []);
    assert a.Granting(today, date) + [] == a.Granting(today, date);
  }

  lemma SameTermsSameExcess(was: Loan, now: Loan)
    requires SameTerms(was, now)
    ensures Excess(now) == Excess(was)
  {
  }

  /** 1,000,000.005 rupiah over 3 months at one percent, granted and then late three times, cost one unit more than
      was promised. */
  lemma {:induction false} HalfUnitBreaksThePromise(categories: map<nat, Source>, a: Application, today: Day, date: int,
                                                    cutoff: Date)
    requires LOAN_DISBURSEMENT in categories
    requires a.amount == 1_000_000.005 && a.period == LoanPeriod(3, 100) && a.feeRate == 0.02
    requires DueDate(today, 3).NotAfter(cutoff)
    ensures var b := Run(categories, RunningLate(a.Granting(today, date), cutoff, 3)).lending;
            HasLoan(b, 0) && Sum(b.installments[0], TotalOf()) == Promised(b.loans[0]) + 1
  {
    HalfUnitCanBeGranted(categories, a);
    GrantedLoanIs(categories, a, today, date);
    var loan := Run(categories, a.Granting(today, date)).lending.loans[0];
    SameTermsSameExcess(a.Loan(), loan);
    HalfUnitDrifts(a.user, a.amount, a.period, a.feeRate, today);
    LateRunsTestThePromise(categories, a.Granting(today, date), 0, loan, today, cutoff);
  }
}
