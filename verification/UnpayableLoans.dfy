/** Loans that cannot be paid off: those that bear no interest, or whose rounded first months use up the amount. */
module UnpayableLoans {
  import opened Basics
  import opened Schema
  import opened LoanSchedule
  import opened Loans
  import opened Cooperative
  import opened Repayments
  import opened CooperativeRuns
  import opened LoanLifecycle
  import opened LoanProgress
  import opened Grants

  ghost predicate IsUnpayable(b: Lending, l: nat) { IsActive(b, l) && !IsPayable(b.loans[l]) }

  /** The last installment of a loan that is not payable is there and unpaid. */
  ghost predicate LastIsUnpaid(b: Lending, l: nat) {
    && HasLoan(b, l)
    && |b.installments[l]| == b.loans[l].period.tenor
    && b.installments[l][b.loans[l].period.tenor - 1].status != Paid
  }

  lemma UnpayableIsRefused(s: State, l: nat, date: int)
    requires SystemInv(s) && IsUnpayable(s.lending, l)
    ensures Settled(s, l, s.lending.loans[l].period.tenor - 1, date).Failure?
  {
    assert LoanSound(s.lending.loans[l], s.lending.installments[l]);
    SettlementOutcome(s, l, s.lending.loans[l].period.tenor - 1, date);
  }

  lemma FreshIsUnpaid(b: Lending, l: nat, day: Date)
    requires FreshLoan(b, l, day)
    ensures LastIsUnpaid(b, l)
  {
  }

  lemma DisbursedStepIsFresh(s: State, c: Command, l: nat)
    requires SystemInv(s) && Disburses(s, c, l)
    ensures FreshLoan(After(s, c).lending, l, c.today)
  {
    DisbursingIsAStep(s, c.reader, c.today, c.date);
    CommitIsFresh(s, c.reader, c.today, c.date);
  }

  lemma DisbursedStepIsUnpaid(s: State, c: Command, l: nat)
    requires SystemInv(s) && Disburses(s, c, l)
    ensures LastIsUnpaid(After(s, c).lending, l)
  {
    DisbursedStepIsFresh(s, c, l);
    FreshIsUnpaid(After(s, c).lending, l, c.today);
  }

  lemma SettlingIsAStep(s: State, l: nat, i: nat, date: int)
    ensures Step(s, Settle(l, i, date)) == Settled(s, l, i, date)
  {
  }

  lemma UnpayableDoesNotSettle(s: State, c: Command, l: nat)
    requires SystemInv(s) && IsUnpayable(s.lending, l)
    ensures !Settles(s, c, l, s.lending.loans[l].period.tenor - 1)
  {
    var last := s.lending.loans[l].period.tenor - 1;
    if c.Settle? && c.loan == l && c.index == last {
      SettlingIsAStep(s, l, last, c.date);
      UnpayableIsRefused(s, l, c.date);
    }
  }

  lemma LastStaysUnpaid(s: State, c: Command, l: nat, last: nat)
    requires SystemInv(s) && IsUnpayable(s.lending, l) && LastIsUnpaid(s.lending, l)
    requires last == s.lending.loans[l].period.tenor - 1
    ensures var now := After(s, c).lending.installments;
            l < |now| && last < |now[l]| && now[l][last].status != Paid
  {
    UnpayableDoesNotSettle(s, c, l);
    StepMovesInstallment(s, c, l, last);
  }

  lemma UnpayableStaysUnpaid(s: State, c: Command, l: nat)
    requires SystemInv(s) && IsUnpayable(s.lending, l) && LastIsUnpaid(s.lending, l)
    ensures LastIsUnpaid(After(s, c).lending, l)
  {
    StepMovesForward(s, c, l);
    LastStaysUnpaid(s, c, l, s.lending.loans[l].period.tenor - 1);
  }

  ghost predicate UnpaidIfUnpayable(b: Lending, l: nat) {
    IsUnpayable(b, l) ==> LastIsUnpaid(b, l)
  }

  lemma StepLeavesUnpayableUnpaid(s: State, c: Command, l: nat)
    requires SystemInv(s) && UnpaidIfUnpayable(s.lending, l)
    ensures UnpaidIfUnpayable(After(s, c).lending, l)
  {
    StepActivates(s, c, l);
    if Disburses(s, c, l) {
      DisbursedStepIsUnpaid(s, c, l);
    } else if IsActive(s.lending, l) {
      StepMovesForward(s, c, l);
      if IsUnpayable(s.lending, l) {
        UnpayableStaysUnpaid(s, c, l);
      }
    }
  }

  lemma {:induction false} EveryRunLeavesUnpayableUnpaid(categories: map<nat, Source>, commands: seq<Command>, l: nat)
    ensures UnpaidIfUnpayable(Run(categories, commands).lending, l)
  {
    if commands != [] {
      var earlier, last := commands[..|commands| - 1], commands[|commands| - 1];
      var s := Run(categories, earlier);
      EveryRunLeavesUnpayableUnpaid(categories, earlier, l);
      EveryRunKeepsInv(categories, earlier);
      StepLeavesUnpayableUnpaid(s, last, l);
      assert Run(categories, commands) == After(s, last);
    }
  }

  ghost predicate LastIsRefused(s: State, l: nat, date: int) {
    l < |s.lending.loans| && Settled(s, l, s.lending.loans[l].period.tenor - 1, date).Failure?
  }

  lemma UnpayableState(s: State, l: nat, date: int)
    requires SystemInv(s) && IsUnpayable(s.lending, l) && UnpaidIfUnpayable(s.lending, l)
    ensures LastIsUnpaid(s.lending, l) && LastIsRefused(s, l, date)
  {
    UnpayableIsRefused(s, l, date);
  }

  /** In every run, the last installment of an active loan that is not payable is never paid, and settling it is
      refused. */
  lemma {:induction false} UnpayableLoansAreNeverPaidOff(categories: map<nat, Source>, commands: seq<Command>, l: nat,
                                                         date: int)
    requires IsUnpayable(Run(categories, commands).lending, l)
    ensures LastIsUnpaid(Run(categories, commands).lending, l) && LastIsRefused(Run(categories, commands), l, date)
  {
    EveryRunKeepsInv(categories, commands);
    EveryRunLeavesUnpayableUnpaid(categories, commands, l);
    UnpayableState(Run(categories, commands), l, date);
  }

  /** So what has been paid off was payable: with `LoansCanBePaidOff`, an active loan can be paid off if and only
      if it bears interest and its first months leave something for the last. */
  lemma {:induction false} PaidOffLoansWerePayable(categories: map<nat, Source>, commands: seq<Command>, l: nat)
    requires var b := Run(categories, commands).lending;
             IsActive(b, l) && PaidUpTo(b, l, b.loans[l].period.tenor)
    ensures IsPayable(Run(categories, commands).lending.loans[l])
  {
    EveryRunLeavesUnpayableUnpaid(categories, commands, l);
  }

  // ----- such loans are granted

  /** An application that can be granted but not paid off is granted: and whatever comes after, its last installment is
      unpaid and cannot be settled. */
  lemma {:induction false} UnpayableApplicationIsNeverPaidOff(categories: map<nat, Source>, a: Application, today: Day,
                                                              date: int, more: seq<Command>, settledOn: int)
    requires CanBeGranted(categories, a) && !IsPayable(a.Loan())
    ensures var s := Run(categories, a.Granting(today, date) + more);
            && HasLoan(s.lending, 0) && IsActive(s.lending, 0) && SameTerms(a.Loan(), s.lending.loans[0])
            && LastIsUnpaid(s.lending, 0) && LastIsRefused(s, 0, settledOn)
  {
    GrantedStays(categories, a, today, date, more);
    UnpayableLoansAreNeverPaidOff(categories, a.Granting(today, date) + more, 0, settledOn);
  }

  /** 600 rupiah over 3 months, at any rate: the third installment, of minus 400 rupiah, is never paid. */
  lemma {:induction false} SmallLoanIsNeverPaidOff(categories: map<nat, Source>, a: Application, today: Day, date: int,
                                                   more: seq<Command>, settledOn: int)
    requires LOAN_DISBURSEMENT in categories
    requires a.amount == 600.0 && a.period.tenor == 3 && a.feeRate == 0.02
    ensures Schedule(a.Loan(), today)[2].principal == -400 * RUPIAH
    ensures var s := Run(categories, a.Granting(today, date) + more);
            LastIsUnpaid(s.lending, 0) && LastIsRefused(s, 0, settledOn)
  {
    SmallPrincipalOvershoots(a.user, a.amount, a.period, a.feeRate, today);
    assert Units(a.amount * a.feeRate) == 120_000.0 && Units(a.amount - a.amount * a.feeRate) == 5_880_000.0;
    UnpayableApplicationIsNeverPaidOff(categories, a, today, date, more, settledOn);
  }

  /** 3000.00001 rupiah over 3 months, at any rate: the amount is above 500 * tenor * (tenor - 1) rupiah, and the
      third installment, of no principal, is never paid. */
  lemma {:induction false} FifthDecimalIsNeverPaidOff(categories: map<nat, Source>, a: Application, today: Day,
                                                      date: int, more: seq<Command>, settledOn: int)
    requires LOAN_DISBURSEMENT in categories
    requires a.amount == 3000.00001 && a.period.tenor == 3 && a.feeRate == 0.02
    ensures Units(a.amount) > (STEP * 3 * 2) as real && Schedule(a.Loan(), today)[2].principal == 0
    ensures var s := Run(categories, a.Granting(today, date) + more);
            LastIsUnpaid(s.lending, 0) && LastIsRefused(s, 0, settledOn)
  {
    BoundNeedsHalfUnits(a.user, a.amount, a.period, a.feeRate, today);
    assert Units(a.amount * a.feeRate) == 600_000.002 && Units(a.amount - a.amount * a.feeRate) == 29_400_000.098;
    UnpayableApplicationIsNeverPaidOff(categories, a, today, date, more, settledOn);
  }
}
