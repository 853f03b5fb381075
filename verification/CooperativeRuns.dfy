/** What holds after every run of every operation, whoever calls what in whatever order. */
module CooperativeRuns {
  import opened Basics
  import opened Schema
  import opened CashbookLedger
  import opened Expenses
  import opened LoanSchedule
  import opened LoanPenalties
  import opened Loans
  import opened OverdueRuns
  import opened Savings
  import opened Reports
  import opened Cooperative
  import opened Repayments

  // ----- every step and every run keep the invariant

  lemma StepKeepsInv(s: State, c: Command)
    requires SystemInv(s)
    ensures SystemInv(After(s, c))
  {
    if Step(s, c).Success? {
      match c
      case AskDeposit(user, activeMembers, minimum) => AskDepositKeepsInv(s, user, activeMembers, minimum);
      case PayDeposit(user, date) => PayDepositKeepsInv(s, user, date);
      case GenerateSavings(users, configured, year, startMonth) =>
        GenerateKeepsInv(s, users, configured, year, startMonth);
      case PaySaving(id, date) => PaySavingKeepsInv(s, id, date);
      case PostExpense(category, amount, source, date) => PostExpenseKeepsInv(s, category, amount, source, date);
      case EditExpense(id, change) => EditExpenseKeepsInv(s, id, change);
      case DropExpense(id) => DropExpenseKeepsInv(s, id);
      case RequestLoan(user, amount, period, feeRate) => RequestKeepsInv(s, user, amount, period, feeRate);
      case Approve(l) => DecideKeepsInv(s, l, Approved);
      case Reject(l) => DecideKeepsInv(s, l, Rejected);
      case ReadLoan(l) => ReadKeepsInv(s, l);
      case Disburse(k, today, date) => DisburseKeepsInv(s, k, today, date);
      case RunOverdue(cutoff) => RunOverdueKeepsInv(s, cutoff);
      case Settle(l, i, date) => SettleKeepsInv(s, l, i, date);
    }
  }

  /** Which requests change which tables. */
  lemma StepTouchesOnly(s: State, c: Command)
    ensures var now := After(s, c);
            && now.categories == s.categories
            && (now.books != s.books ==> c.PayDeposit? || c.PaySaving? || MovesExpenses(c) || c.Disburse? || c.Settle?)
            && (now.books.expenses != s.books.expenses ==> MovesExpenses(c) || c.Disburse?)
            && (now.books.incomes != s.books.incomes ==> !MovesExpenses(c))
            && (now.lending.loans != s.lending.loans ==> c.RequestLoan? || c.Approve? || c.Reject? || c.Disburse?)
            && (now.lending.installments != s.lending.installments ==>
                  c.RequestLoan? || c.Disburse? || c.RunOverdue? || c.Settle?)
            && (now.lending.readers != s.lending.readers ==> c.ReadLoan?)
            && (now.deposits.principal != s.deposits.principal ==> c.AskDeposit? || c.PayDeposit?)
            && (now.deposits.mandatory != s.deposits.mandatory ==> c.GenerateSavings? || c.PaySaving?)
  {
  }

  predicate MovesExpenses(c: Command) { c.PostExpense? || c.EditExpense? || c.DropExpense? }

  lemma EmptyKeepsInv(categories: map<nat, Source>)
    ensures SystemInv(EmptyState(categories))
  {
  }

  lemma {:induction false} EveryRunKeepsInv(categories: map<nat, Source>, commands: seq<Command>)
    ensures SystemInv(Run(categories, commands))
  {
    if commands == [] {
      EmptyKeepsInv(categories);
    } else {
      EveryRunKeepsInv(categories, commands[..|commands| - 1]);
      StepKeepsInv(Run(categories, commands[..|commands| - 1]), commands[|commands| - 1]);
    }
  }

  lemma {:induction false} RunAppend(categories: map<nat, Source>, commands: seq<Command>, c: Command)
    ensures Run(categories, commands + [c]) == After(Run(categories, commands), c)
  {
    assert (commands + [c])[..|commands|] == commands;
  }

  // ----- the money

  /** Reconciliation: after every run the cached balances are what the business tables say, and what the
      linked cashbook rows say, and what the visible history says. */
  lemma {:induction false} EveryRunReconciles(categories: map<nat, Source>, commands: seq<Command>)
    ensures var s := Run(categories, commands);
            var b := s.books.balances;
            && b.capital == 5_000_000 * RUPIAH
                            + Sum(s.deposits.principal, PaidDeposit()) + Sum(s.deposits.mandatory, PaidSaving())
                            + Sum(s.lending.installments, PlanCapital()) - Sum(s.books.expenses, SpentCapital())
            && b.shu == Sum(s.lending.loans, ActiveFee()) + Sum(s.lending.installments, PlanShu())
                        - Sum(s.books.expenses, SpentShu())
            && b.total == b.shu + b.capital && b.NonNegative()
            && b == OPENING.Plus(SumAmounts(s.books.rows, LinkedPart))
            && b == OPENING.Plus(SumAmounts(s.books.rows, VisiblePart))
  {
    EveryRunKeepsInv(categories, commands);
  }

  // ----- disbursement

  ghost predicate Disburses(s: State, c: Command, l: nat) {
    c.Disburse? && Step(s, c).Success? && s.lending.readers[c.reader].0 == l
  }

  /** How many disbursements of loan `l` a run committed. */
  ghost function Disbursals(categories: map<nat, Source>, commands: seq<Command>, l: nat): nat {
    if commands == [] then 0
    else
      var earlier, last := commands[..|commands| - 1], commands[|commands| - 1];
      Disbursals(categories, earlier, l) + (if Disburses(Run(categories, earlier), last, l) then 1 else 0)
  }

  lemma DisbursingIsAStep(s: State, k: nat, today: Day, date: int)
    ensures Step(s, Disburse(k, today, date)) == Disbursed(s, k, today, date)
  {
  }

  lemma OthersActivateNothing(s: State, c: Command, l: nat)
    requires !c.Disburse?
    ensures IsActive(After(s, c).lending, l) <==> IsActive(s.lending, l)
  {
  }

  lemma DisbursementActivates(s: State, k: nat, today: Day, date: int, l: nat)
    requires SystemInv(s) && Disbursed(s, k, today, date).Success?
    ensures var disbursed := s.lending.readers[k].0;
            && !IsActive(s.lending, disbursed)
            && (IsActive(Disbursed(s, k, today, date).value.lending, l) <==> IsActive(s.lending, l) || l == disbursed)
  {
    DisbursedShape(s, k, today, date);
    ScheduleKeepsParts(s.lending, s.lending.readers[k].0, today, l);
  }

  lemma DisburseStepActivates(s: State, c: Command, l: nat)
    requires SystemInv(s) && c.Disburse?
    ensures IsActive(After(s, c).lending, l) <==> IsActive(s.lending, l) || Disburses(s, c, l)
    ensures Disburses(s, c, l) ==> !IsActive(s.lending, l)
  {
    DisbursingIsAStep(s, c.reader, c.today, c.date);
    if Step(s, c).Success? {
      DisbursementActivates(s, c.reader, c.today, c.date, l);
    }
  }

  /** Only a committed disbursement makes a loan active, and never one that already is. */
  lemma StepActivates(s: State, c: Command, l: nat)
    requires SystemInv(s)
    ensures IsActive(After(s, c).lending, l) <==> IsActive(s.lending, l) || Disburses(s, c, l)
    ensures Disburses(s, c, l) ==> !IsActive(s.lending, l)
  {
    if c.Disburse? {
      DisburseStepActivates(s, c, l);
    } else {
      OthersActivateNothing(s, c, l);
    }
  }

  lemma {:induction false} CommitsAreActivity(categories: map<nat, Source>, commands: seq<Command>, l: nat)
    ensures Disbursals(categories, commands, l) == (if IsActive(Run(categories, commands).lending, l) then 1 else 0)
  {
    if commands != [] {
      var earlier, last := commands[..|commands| - 1], commands[|commands| - 1];
      var s := Run(categories, earlier);
      CommitsAreActivity(categories, earlier, l);
      EveryRunKeepsInv(categories, earlier);
      StepActivates(s, last, l);
      assert Run(categories, commands) == After(s, last);
    }
  }

  lemma PostedAsActive(s: State, l: nat)
    requires SystemInv(s)
    ensures Sum(s.books.incomes, FeeCount(l)) == (if IsActive(s.lending, l) then 1 else 0)
    ensures |PlanAt(s.lending, l)| == (if IsActive(s.lending, l) then s.lending.loans[l].period.tenor else 0)
  {
    assert PostedFor(s.books.incomes, s.lending, l);
    if l < |s.lending.loans| {
      assert LoanSound(s.lending.loans[l], s.lending.installments[l]);
    }
  }

  // ----- penalties and repayment

  /** The penalty machine after every run: an installment is its generated self plus at most one penalty of
      exactly principal * rate, none while due; at most one overdue installment is unpenalised; older
      installments are never due while a newer one is overdue; penalties lag the marks by one. */
  lemma {:induction false} EveryRunPenalises(categories: map<nat, Source>, commands: seq<Command>, l: nat)
    ensures var b := Run(categories, commands).lending;
            IsActive(b, l) && l < |b.installments| ==>
              var loan, plan := b.loans[l], b.installments[l];
              && (forall i :: 0 <= i < |plan| ==>
                    && plan[i].penalty in {0, PenaltyOf(loan)}
                    && (plan[i].status == Due ==> plan[i].penalty == 0)
                    && loan.disbursedOn.Some?
                    && i < |Schedule(loan, loan.disbursedOn.value)|
                    && plan[i].total == Schedule(loan, loan.disbursedOn.value)[i].total + plan[i].penalty)
              && OldestFirst(plan)
              && (PenaltyOf(loan) > 0 ==> AtMostOneUnpenalised(plan))
              && (Sum(plan, PenalisedOne()) > 0 ==> Sum(plan, PenalisedOne()) <= Sum(plan, EverOverdueOne()) - 1)
  {
    EveryRunKeepsInv(categories, commands);
    var b := Run(categories, commands).lending;
    if IsActive(b, l) {
      var loan, plan := b.loans[l], b.installments[l];
      assert LoanSound(loan, plan);
      FewPenalties(loan, plan);
      forall i | 0 <= i < |plan|
        ensures plan[i].penalty in {0, PenaltyOf(loan)} && (plan[i].status == Due ==> plan[i].penalty == 0)
        ensures plan[i].total == Schedule(loan, loan.disbursedOn.value)[i].total + plan[i].penalty
      {
        assert InstallmentSound(loan, plan[i], i);
        AsGenerated(loan, plan, i);
      }
    }
  }

  /** After every run each installment's total is its principal, interest and penalty, all through the plan,
      if and only if the last row adds up when generated: at four decimals, if and only if the clamp is inactive. */
  lemma {:induction false} EveryRunAddsUp(categories: map<nat, Source>, commands: seq<Command>, l: nat)
    ensures var b := Run(categories, commands).lending;
            IsActive(b, l) && l < |b.installments| ==>
              && ((forall i :: 0 <= i < |b.installments[l]| ==> AddsUp(b.installments[l][i])) <==>
                  LastRowAddsUp(b.loans[l]))
              && (HasFourDecimals(b.loans[l].requested) ==> (LastRowAddsUp(b.loans[l]) <==> !Clamped(b.loans[l])))
  {
    EveryRunKeepsInv(categories, commands);
    var b := Run(categories, commands).lending;
    if IsActive(b, l) {
      assert LoanSound(b.loans[l], b.installments[l]);
      PlanAddsUp(b.loans[l], b.installments[l]);
    }
  }

  lemma PlanAddsUp(loan: Loan, plan: seq<Installment>)
    requires PlanSound(loan, plan) && Priced(loan)
    ensures (forall i :: 0 <= i < |plan| ==> AddsUp(plan[i])) <==> LastRowAddsUp(loan)
    ensures HasFourDecimals(loan.requested) ==> (LastRowAddsUp(loan) <==> !Clamped(loan))
  {
    var schedule := Schedule(loan, loan.disbursedOn.value);
    forall i | 0 <= i < |plan|
      ensures AddsUp(plan[i]) <==> AddsUp(schedule[i])
    {
      AsGenerated(loan, plan, i);
    }
    RowsAddUp(loan, loan.disbursedOn.value);
  }

  /** What a loan costs, exactly and with no proviso: the principal, every month's interest, the slack
      of the last payment, and the penalties so far, of which there are fewer than installments. */
  lemma {:induction false} EveryRunCostsExactly(categories: map<nat, Source>, commands: seq<Command>, l: nat)
    ensures var b := Run(categories, commands).lending;
            IsActive(b, l) && l < |b.installments| ==>
              var loan, plan := b.loans[l], b.installments[l];
              && Sum(plan, TotalOf()) == loan.principal + loan.period.tenor * loan.interest + Slack(loan)
                                         + Sum(plan, PenalisedOne()) * PenaltyOf(loan)
              && Sum(plan, PenalisedOne()) <= loan.period.tenor - 1
  {
    EveryRunKeepsInv(categories, commands);
    var b := Run(categories, commands).lending;
    if IsActive(b, l) {
      var loan, plan := b.loans[l], b.installments[l];
      assert LoanSound(loan, plan);
      TotalsCountPenalties(loan, plan);
      TotalsSum(loan, loan.disbursedOn.value);
      FewPenalties(loan, plan);
    }
  }

  /** The cost of a loan is bounded whatever happens to it. */
  lemma {:induction false} EveryRunBoundsCost(categories: map<nat, Source>, commands: seq<Command>, l: nat)
    ensures var b := Run(categories, commands).lending;
            IsActive(b, l) ==> CostIsBounded(b.loans[l], Sum(PlanAt(b, l), TotalOf()))
  {
    EveryRunKeepsInv(categories, commands);
    var b := Run(categories, commands).lending;
    if IsActive(b, l) {
      assert LoanSound(b.loans[l], b.installments[l]);
      LifetimeCost(b.loans[l], b.installments[l]);
    }
  }

  /** After every run, what a loan's repayments posted is what its paid installments carry; once all are paid,
      that is the principal to capital, and every month's interest with every penalty to SHU. */
  lemma {:induction false} EveryRunRepays(categories: map<nat, Source>, commands: seq<Command>, l: nat)
    ensures var s := Run(categories, commands);
            && SumAmounts(s.books.incomes, Repayment(l)) == SumAmounts(PlanAt(s.lending, l), PaidPart)
            && (IsActive(s.lending, l) && (forall i :: 0 <= i < |PlanAt(s.lending, l)| ==>
                                             PlanAt(s.lending, l)[i].status == Paid) ==>
                  var loan := s.lending.loans[l];
                  SumAmounts(s.books.incomes, Repayment(l)) ==
                  Amounts(loan.period.tenor * loan.interest +
                          Sum(PlanAt(s.lending, l), PenalisedOne()) * PenaltyOf(loan), loan.principal))
  {
    var s := Run(categories, commands);
    EveryRunKeepsInv(categories, commands);
    assert PostedFor(s.books.incomes, s.lending, l);
    if IsActive(s.lending, l) {
      var loan, plan := s.lending.loans[l], s.lending.installments[l];
      assert LoanSound(loan, plan);
      if forall i :: 0 <= i < |plan| ==> plan[i].status == Paid {
        AllPaidBringsInPrincipal(loan, plan);
      }
    }
  }

  // ----- the loan limit

  /** No member ever has more than three open loans, and the limit trigger only ever refuses a request. */
  lemma {:induction false} EveryRunKeepsLimit(categories: map<nat, Source>, commands: seq<Command>, user: nat,
                                              c: Command)
    ensures Sum(Run(categories, commands).lending.loans, OpenOf(user)) <= 3
    ensures Step(Run(categories, commands), c) == Failure(TooManyLoans) ==> c.RequestLoan?
  {
    EveryRunKeepsInv(categories, commands);
    OnlyRequestsMeetLimit(Run(categories, commands), c);
  }

  lemma OnlyRequestsMeetLimit(s: State, c: Command)
    requires LendingInv(s.lending)
    ensures Step(s, c) == Failure(TooManyLoans) ==> c.RequestLoan?
  {
    match c
    case RequestLoan(_, _, _, _) =>
    case Approve(l) => ApprovalIsWithinLimit(s, l);
    case Disburse(k, today, date) => DisbursementIsWithinLimit(s, k, today, date);
    case _ => OthersIgnoreLimit(s, c);
  }

  lemma ApprovalIsWithinLimit(s: State, l: nat)
    requires LendingInv(s.lending)
    ensures Decided(s, l, Approved) != Failure(TooManyLoans)
  {
    DecisionOutcome(s, l, Approved);
  }

  lemma DisbursementIsWithinLimit(s: State, k: nat, today: Day, date: int)
    requires LendingInv(s.lending)
    ensures Disbursed(s, k, today, date) != Failure(TooManyLoans)
  {
    if k < |s.lending.readers| {
      var (l, loan) := s.lending.readers[k];
      assert ReaderSound(s.lending, s.lending.readers[k]);
      OpenLoansPassTheLimit(s.lending.loans, l, s.lending.loans[l].(status := Active, disbursedOn := Some(today)));
    }
  }

  lemma OthersIgnoreLimit(s: State, c: Command)
    requires !c.RequestLoan? && !c.Approve? && !c.Disburse?
    ensures Step(s, c) != Failure(TooManyLoans)
  {
  }

  // ----- the report

  /** The report of any year, made after any run, for any list of members, whatever order the paid rows are
      listed in: all its totals agree. */
  lemma {:induction false} EveryRunReportAgrees(categories: map<nat, Source>, commands: seq<Command>, year: int,
                                                members: seq<Member>, paid: seq<Saving>, report: Report)
    requires DistinctIds(members) && IsReport(report, members, paid)
    requires ListsPaid(paid, Run(categories, commands).deposits.mandatory, year)
    ensures report.total == Sum(paid, OfUsers(Ids(members, |members|)))
    ensures report.total == ColumnsTo(report.monthlyTotals, 12)
    ensures report.total == Sum(report.rows, RowTotal())
    ensures forall k :: 0 <= k < |members| ==> report.rows[k].total == CellSum(paid, members[k].id, |paid|, 12)
  {
    EveryRunKeepsInv(categories, commands);
    var table := Run(categories, commands).deposits.mandatory;
    forall i | 0 <= i < |paid|
      ensures paid[i].month < 12 && paid[i].amount > 0
    {
      ListedRowIsPaidRow(paid, table, year, i);
    }
    forall k | 0 <= k < |members|
      ensures OnePerMonth(paid, members[k].id, |paid|)
      ensures report.rows[k].total == CellSum(paid, members[k].id, |paid|, 12)
    {
      UniqueRowsArePaidOnce(paid, table, year, members[k].id);
      RowTotalIsCellSum(paid, members[k].id);
      assert IsRowOf(report.rows[k], members[k], paid, |paid|);
    }
    TotalsAgree(report, members, paid);
  }

  // ----- the running database

  lemma AmountsAreInRange(b: Lending)
    requires LendingInv(b)
    ensures InRange(b.loans, b.installments)
  {
    forall l | 0 <= l < |b.loans|
      ensures b.loans[l].principal >= 0
    {
      assert LoanSound(b.loans[l], b.installments[l]);
    }
    forall l: nat, i: nat | l < |b.installments| && i < |b.installments[l]|
      ensures b.installments[l][i].penalty >= 0 && b.installments[l][i].total >= 0
    {
      assert LoanSound(b.loans[l], b.installments[l]);
      TotalsAreNotNegative(b.loans[l], b.installments[l], i);
    }
  }

  lemma TotalsAreNotNegative(loan: Loan, plan: seq<Installment>, i: nat)
    requires PlanSound(loan, plan) && Priced(loan) && i < |plan|
    ensures plan[i].penalty >= 0 && plan[i].total >= 0
  {
    AsGenerated(loan, plan, i);
    PaymentsAreNotNegative(loan);
    PenaltyIsNotNegative(loan);
  }

  /** Requests on deposits and savings. */
  method ServeSavings(db: Database, c: Command)
    requires c.AskDeposit? || c.PayDeposit? || c.GenerateSavings? || c.PaySaving?
    modifies db
    ensures db.View() == After(old(db.View()), c)
  {
    match c {
      case AskDeposit(user, activeMembers, minimum) =>
        var _ := CreatePrincipalSavings(db, user, activeMembers, minimum);
      case PayDeposit(user, date) =>
        var _ := SettlePrincipalSavings(db, user, date);
      case GenerateSavings(users, configured, year, startMonth) =>
        var _ := GenerateRemainingYearSavings(db, users, configured, year, startMonth);
      case PaySaving(id, date) =>
        var _ := SettleMandatorySavings(db, id, date);
    }
  }

  /** Requests on expenses. */
  method ServeExpense(db: Database, c: Command)
    requires c.PostExpense? || c.EditExpense? || c.DropExpense?
    modifies db
    ensures db.View() == After(old(db.View()), c)
  {
    match c {
      case PostExpense(category, amount, source, date) =>
        var _ := CreateExpense(db, category, amount, source, date);
      case EditExpense(id, change) =>
        var _ := UpdateExpense(db, id, change);
      case DropExpense(id) =>
        var _ := DeleteExpense(db, id);
    }
  }

  /** Requests on loans, up to their decision. */
  method ServeApplication(db: Database, c: Command)
    requires c.RequestLoan? || c.Approve? || c.Reject? || c.ReadLoan?
    modifies db
    ensures db.View() == After(old(db.View()), c)
  {
    match c {
      case RequestLoan(user, amount, period, feeRate) =>
        var _ := CreateLoan(db, user, amount, period, feeRate);
      case Approve(l) =>
        var _ := ApproveLoan(db, l);
      case Reject(l) =>
        var _ := RejectLoan(db, l);
      case ReadLoan(l) =>
        var _ := FindLoanToDisburse(db, l);
    }
  }

  /** Requests on loans, once decided. */
  method ServeLoan(db: Database, c: Command)
    requires c.Disburse? || c.RunOverdue? || c.Settle?
    requires |db.installments| == |db.loans| && InRange(db.loans, db.installments)
    modifies db
    ensures db.View() == After(old(db.View()), c)
  {
    match c {
      case Disburse(k, today, date) =>
        var _ := DisburseLoan(db, k, today, date);
      case RunOverdue(cutoff) =>
        ProcessOverdueInstallments(db, cutoff);
      case Settle(l, i, date) =>
        var _ := SettleInstallment(db, l, i, date);
    }
  }

  /** One request against the live tables. The services' methods do what `Step` says, so whatever holds after
      every run holds of the database. */
  method Serve(db: Database, c: Command)
    requires SystemInv(db.View())
    modifies db
    ensures db.View() == After(old(db.View()), c)
    ensures SystemInv(db.View())
  {
    StepKeepsInv(db.View(), c);
    if c.AskDeposit? || c.PayDeposit? || c.GenerateSavings? || c.PaySaving? {
      ServeSavings(db, c);
    } else if c.PostExpense? || c.EditExpense? || c.DropExpense? {
      ServeExpense(db, c);
    } else if c.RequestLoan? || c.Approve? || c.Reject? || c.ReadLoan? {
      ServeApplication(db, c);
    } else {
      AmountsAreInRange(db.View().lending);
      ServeLoan(db, c);
    }
  }
}
