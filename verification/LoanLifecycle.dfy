/** The loan and installment state machines: which request moves what, and where whole runs can lead. */
module LoanLifecycle {
  import opened Basics
  import opened Schema
  import opened LoanPenalties
  import opened Loans
  import opened Cooperative
  import opened CooperativeRuns

  // ----- one request

  /** Everything about a loan but its status and disbursement date is fixed when it is requested. */
  predicate SameTerms(was: Loan, now: Loan) {
    now == was.(status := now.status, disbursedOn := now.disbursedOn)
  }

  /** What one request does to one loan. */
  predicate LoanRowMoved(was: Loan, now: Loan, approved: bool, rejected: bool, disbursedOn: Option<Date>) {
    && SameTerms(was, now)
    && now.status == (if disbursedOn.Some? then Active
                      else if was.status == Pending && approved then Approved
                      else if was.status == Pending && rejected then Rejected
                      else was.status)
    && now.disbursedOn == (if disbursedOn.Some? then disbursedOn else was.disbursedOn)
  }

  ghost function DisbursedBy(s: State, c: Command, l: nat): Option<Date> {
    if Disburses(s, c, l) then Some(c.today) else None
  }

  /** The whole loan machine: each move has one cause, and nothing else moves a loan. */
  ghost predicate LoanMoved(s: State, c: Command, l: nat)
    requires l < |s.lending.loans|
  {
    var now := After(s, c).lending.loans;
    l < |now| && LoanRowMoved(s.lending.loans[l], now[l], c == Approve(l), c == Reject(l), DisbursedBy(s, c, l))
  }

  lemma DecisionMovesLoan(s: State, decided: nat, verdict: LoanStatus, l: nat)
    requires LendingInv(s.lending) && l < |s.lending.loans| && (verdict == Approved || verdict == Rejected)
    ensures var r := Decided(s, decided, verdict);
            var now := if r.Success? then r.value.lending.loans else s.lending.loans;
            && l < |now|
            && LoanRowMoved(s.lending.loans[l], now[l], decided == l && verdict == Approved,
                            decided == l && verdict == Rejected, None)
  {
    DecisionOutcome(s, decided, verdict);
  }

  lemma DisbursementMovesLoan(s: State, k: nat, today: Day, date: int, l: nat)
    requires SystemInv(s) && l < |s.lending.loans| && Disbursed(s, k, today, date).Success?
    ensures var now := Disbursed(s, k, today, date).value.lending.loans;
            && l < |now|
            && LoanRowMoved(s.lending.loans[l], now[l], false, false,
                            if s.lending.readers[k].0 == l then Some(today) else None)
  {
    DisbursedShape(s, k, today, date);
  }

  lemma RestLeaveLoans(s: State, c: Command)
    requires !c.Approve? && !c.Reject? && !c.Disburse?
    ensures s.lending.loans <= After(s, c).lending.loans
  {
  }

  lemma DecisionStepMoves(s: State, c: Command, l: nat)
    requires LendingInv(s.lending) && l < |s.lending.loans| && (c.Approve? || c.Reject?)
    ensures LoanMoved(s, c, l)
  {
    DecisionMovesLoan(s, c.loan, if c.Approve? then Approved else Rejected, l);
  }

  lemma DisburseStepMoves(s: State, c: Command, l: nat)
    requires SystemInv(s) && l < |s.lending.loans| && c.Disburse?
    ensures LoanMoved(s, c, l)
  {
    DisbursingIsAStep(s, c.reader, c.today, c.date);
    if Step(s, c).Success? {
      DisbursementMovesLoan(s, c.reader, c.today, c.date, l);
    }
  }

  lemma StepMovesLoan(s: State, c: Command, l: nat)
    requires SystemInv(s) && l < |s.lending.loans|
    ensures LoanMoved(s, c, l)
  {
    if c.Approve? || c.Reject? {
      DecisionStepMoves(s, c, l);
    } else if c.Disburse? {
      DisburseStepMoves(s, c, l);
    } else {
      RestLeaveLoans(s, c);
    }
  }

  ghost predicate Settles(s: State, c: Command, l: nat, i: nat) {
    c.Settle? && c.loan == l && c.index == i && Step(s, c).Success?
  }

  ghost predicate Marks(s: State, c: Command, l: nat, i: nat)
    requires l < |s.lending.installments|
  {
    c.RunOverdue? && IsOldestDue(s.lending.installments[l], c.cutoff, i)
  }

  /** Everything about an installment but its status and penalty is fixed when it is generated. */
  predicate SameDue(was: Installment, now: Installment) {
    && now == was.(status := now.status, penalty := now.penalty, total := now.total, everOverdue := now.everOverdue)
    && now.total - now.penalty == was.total - was.penalty
  }

  /** What one request does to one installment: `paid` by a settlement, `marked` by a monthly run, and
      charged only by a monthly run, once, and only if overdue after it. */
  predicate RowMoved(was: Installment, now: Installment, paid: bool, marked: bool, run: bool, penalty: int) {
    && SameDue(was, now)
    && now.status == (if paid then Paid else if marked then Overdue else was.status)
    && (now.penalty != was.penalty ==> run && now.status == Overdue && was.penalty == 0 && now.penalty == penalty)
  }

  /** The whole installment machine: settling pays, a monthly run marks the oldest one due by its cutoff, and
      nothing else moves an installment. */
  ghost predicate InstallmentMoved(s: State, c: Command, l: nat, i: nat)
    requires HasLoan(s.lending, l) && i < |s.lending.installments[l]|
  {
    var plans := After(s, c).lending.installments;
    && l < |plans| && i < |plans[l]|
    && RowMoved(s.lending.installments[l][i], plans[l][i], Settles(s, c, l, i), Marks(s, c, l, i), c.RunOverdue?,
                PenaltyOf(s.lending.loans[l]))
  }

  lemma RunMoves(s: State, cutoff: Date, l: nat, i: nat)
    requires HasLoan(s.lending, l) && i < |s.lending.installments[l]|
    ensures var plan, loan := s.lending.installments[l], s.lending.loans[l];
            RowMoved(plan[i], OverdueRun(s, cutoff).lending.installments[l][i], false,
                     IsOldestDue(plan, cutoff, i), true, PenaltyOf(loan))
  {
    FirstIsOldestDue(s.lending.installments[l], cutoff);
  }

  lemma DisbursementMoves(s: State, k: nat, today: Day, date: int, l: nat)
    requires SystemInv(s) && Disbursed(s, k, today, date).Success?
    requires HasLoan(s.lending, l) && s.lending.installments[l] != []
    ensures var now := Disbursed(s, k, today, date).value.lending.installments;
            l < |now| && now[l] == s.lending.installments[l]
  {
    assert s.lending.readers[k].0 != l by {
      DisbursementActivates(s, k, today, date, l);
      assert LoanSound(s.lending.loans[l], s.lending.installments[l]);
    }
    DisbursedShape(s, k, today, date);
  }

  lemma RestLeavePlans(s: State, c: Command)
    requires !c.RunOverdue? && !c.Settle? && !c.Disburse?
    ensures s.lending.installments <= After(s, c).lending.installments
  {
  }

  lemma SamePlanIsMoved(s: State, c: Command, l: nat, i: nat)
    requires HasLoan(s.lending, l) && i < |s.lending.installments[l]| && !c.RunOverdue? && !c.Settle?
    requires l < |After(s, c).lending.installments|
    requires After(s, c).lending.installments[l] == s.lending.installments[l]
    ensures InstallmentMoved(s, c, l, i)
  {
  }

  lemma OthersMoveNoInstallment(s: State, c: Command, l: nat, i: nat)
    requires SystemInv(s) && HasLoan(s.lending, l) && i < |s.lending.installments[l]|
    requires !c.RunOverdue? && !c.Settle?
    ensures InstallmentMoved(s, c, l, i)
  {
    if c.Disburse? {
      DisbursementLeavesPlan(s, c, l);
    } else {
      RestLeavePlans(s, c);
    }
    SamePlanIsMoved(s, c, l, i);
  }

  lemma DisbursementLeavesPlan(s: State, c: Command, l: nat)
    requires SystemInv(s) && HasLoan(s.lending, l) && s.lending.installments[l] != [] && c.Disburse?
    ensures var now := After(s, c).lending.installments;
            l < |now| && now[l] == s.lending.installments[l]
  {
    DisbursingIsAStep(s, c.reader, c.today, c.date);
    if Step(s, c).Success? {
      DisbursementMoves(s, c.reader, c.today, c.date, l);
    }
  }

  lemma SettleStepMoves(s: State, c: Command, l: nat, i: nat)
    requires HasLoan(s.lending, l) && i < |s.lending.installments[l]| && c.Settle?
    ensures InstallmentMoved(s, c, l, i)
  {
  }

  lemma OverdueStepMoves(s: State, c: Command, l: nat, i: nat)
    requires HasLoan(s.lending, l) && i < |s.lending.installments[l]| && c.RunOverdue?
    ensures InstallmentMoved(s, c, l, i)
  {
    RunMoves(s, c.cutoff, l, i);
  }

  lemma StepMovesInstallment(s: State, c: Command, l: nat, i: nat)
    requires SystemInv(s) && HasLoan(s.lending, l) && i < |s.lending.installments[l]|
    ensures InstallmentMoved(s, c, l, i)
  {
    if c.RunOverdue? {
      OverdueStepMoves(s, c, l, i);
    } else if c.Settle? {
      SettleStepMoves(s, c, l, i);
    } else {
      OthersMoveNoInstallment(s, c, l, i);
    }
  }

  // ----- whole runs

  /** Where a loan can be later on: rejected and active loans stay as they are for good. */
  predicate Evolved(was: Loan, now: Loan) {
    && SameTerms(was, now)
    && match was.status
       case Pending => now.status != Completed
       case Approved => now.status == Approved || now.status == Active
       case _ => now == was
  }

  /** Where an installment can be later on: paid ones stay as they are, and penalties are never taken back. */
  predicate Progressed(was: Installment, now: Installment) {
    && SameDue(was, now)
    && (was.status == Paid ==> now == was)
    && (was.status == Overdue ==> now.status == Overdue || now.status == Paid)
    && (was.penalty != 0 ==> now.penalty == was.penalty)
  }

  ghost predicate LoanLater(was: Lending, now: Lending, l: nat)
    requires HasLoan(was, l)
  {
    && HasLoan(now, l)
    && Evolved(was.loans[l], now.loans[l])
    && (was.installments[l] != [] ==> |now.installments[l]| == |was.installments[l]|)
    && (forall i :: 0 <= i < |was.installments[l]| && i < |now.installments[l]| ==>
          Progressed(was.installments[l][i], now.installments[l][i]))
  }

  lemma LoanEvolves(s: State, c: Command, l: nat)
    requires SystemInv(s) && l < |s.lending.loans| && LoanMoved(s, c, l)
    ensures Evolved(s.lending.loans[l], After(s, c).lending.loans[l])
  {
    assert LoanSound(s.lending.loans[l], s.lending.installments[l]);
    if Disburses(s, c, l) {
      DisbursedShape(s, c.reader, c.today, c.date);
    }
  }

  lemma PlansKeepLength(was: Lending, now: Lending, l: nat)
    requires LendingInv(was) && LendingInv(now) && HasLoan(was, l)
    requires l < |now.loans| && Evolved(was.loans[l], now.loans[l])
    ensures HasLoan(now, l)
    ensures was.installments[l] != [] ==> |now.installments[l]| == |was.installments[l]|
  {
  }

  lemma InstallmentProgresses(s: State, c: Command, l: nat, i: nat)
    requires HasLoan(s.lending, l) && i < |s.lending.installments[l]| && InstallmentMoved(s, c, l, i)
    ensures Progressed(s.lending.installments[l][i], After(s, c).lending.installments[l][i])
  {
  }

  lemma StepMovesForward(s: State, c: Command, l: nat)
    requires SystemInv(s) && HasLoan(s.lending, l)
    ensures LoanLater(s.lending, After(s, c).lending, l)
  {
    StepMovesLoan(s, c, l);
    StepKeepsInv(s, c);
    LoanEvolves(s, c, l);
    PlansKeepLength(s.lending, After(s, c).lending, l);
    forall i | 0 <= i < |s.lending.installments[l]|
      ensures Progressed(s.lending.installments[l][i], After(s, c).lending.installments[l][i])
    {
      StepMovesInstallment(s, c, l, i);
      InstallmentProgresses(s, c, l, i);
    }
  }

  lemma LaterStill(a: Lending, b: Lending, c: Lending, l: nat)
    requires HasLoan(a, l) && LoanLater(a, b, l) && LoanLater(b, c, l)
    ensures LoanLater(a, c, l)
  {
  }

  /** From any point of any run to its end, loans and installments only move forward: terms never change,
      rejections and disbursements are final, and a paid installment is never touched again. */
  lemma {:induction false} EveryRunMovesForward(categories: map<nat, Source>, commands: seq<Command>, m: nat, l: nat)
    requires m <= |commands| && HasLoan(Run(categories, commands[..m]).lending, l)
    ensures LoanLater(Run(categories, commands[..m]).lending, Run(categories, commands).lending, l)
  {
    if m == |commands| {
      assert commands[..m] == commands;
    } else {
      var earlier := commands[..|commands| - 1];
      assert earlier[..m] == commands[..m];
      EveryRunMovesForward(categories, earlier, m, l);
      EveryRunKeepsInv(categories, earlier);
      StepMovesForward(Run(categories, earlier), commands[|commands| - 1], l);
      LaterStill(Run(categories, commands[..m]).lending, Run(categories, earlier).lending,
                 Run(categories, commands).lending, l);
    }
  }
}
