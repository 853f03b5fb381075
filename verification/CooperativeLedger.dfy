/** The whole system seen from the cashbook: every run of it is a run of single ledger steps, so what holds of
    the ledger's history holds of the system's. */
module CooperativeLedger {
  import opened Basics
  import opened Schema
  import opened CashbookLedger
  import opened Expenses
  import opened Incomes
  import opened Loans
  import opened Savings
  import opened Cooperative
  import opened CooperativeRuns
  import opened LoanLifecycle
  import L = LedgerHistory
  import LedgerRefinement

  function Collecting(l: nat, x: Installment, date: int): seq<L.LedgerStep> {
    [L.PostIncome(InstallmentPrincipal(l, x.number), x.principal, date),
     L.PostIncome(InstallmentInterest(l, x.number), x.interest, date)] +
    (if x.penalty > 0 then [L.PostIncome(InstallmentPenalty(l, x.number), x.penalty, date)] else [])
  }

  function PayOutSteps(l: nat, loan: Loan, date: int): seq<L.LedgerStep> {
    [L.PostExpense(LOAN_DISBURSEMENT, loan.disbursed, Some(FromCapital), date),
     L.PostIncome(AdminFee(l), loan.adminFee, date)]
  }

  /** The postings of a committed request, in order. */
  function Committed(s: State, c: Command): seq<L.LedgerStep> {
    match c
    case PayDeposit(user, date) =>
      var found := FindDeposit(s.deposits.principal, user, |s.deposits.principal|);
      if found.None? then []
      else [L.PostIncome(PrincipalDeposit(user), s.deposits.principal[found.value].amount, date)]
    case PaySaving(id, date) =>
      if id >= |s.deposits.mandatory| then []
      else [L.PostIncome(MandatorySaving(id), s.deposits.mandatory[id].amount, date)]
    case PostExpense(category, amount, source, date) => [L.PostExpense(category, amount, source, date)]
    case EditExpense(id, change) => [L.EditExpense(id, change)]
    case DropExpense(id) => [L.DropExpense(id)]
    case Disburse(k, _, date) =>
      if k >= |s.lending.readers| then []
      else
        var (l, loan) := s.lending.readers[k];
        PayOutSteps(l, loan, date)
    case Settle(l, i, date) =>
      if !HasLoan(s.lending, l) || i >= |s.lending.installments[l]| then []
      else Collecting(l, s.lending.installments[l][i], date)
    case _ => []
  }

  /** A refused request posts nothing, because its transaction is rolled back. */
  ghost function Postings(s: State, c: Command): seq<L.LedgerStep> {
    if Step(s, c).Success? then Committed(s, c) else []
  }

  ghost function AllPostings(categories: map<nat, Source>, commands: seq<Command>): seq<L.LedgerStep> {
    if commands == [] then []
    else
      var earlier, last := commands[..|commands| - 1], commands[|commands| - 1];
      AllPostings(categories, earlier) + Postings(Run(categories, earlier), last)
  }

  // ----- taking several ledger steps

  ghost function TakeAll(b: Books, categories: map<nat, Source>, steps: seq<L.LedgerStep>): Books
    decreases |steps|
  {
    if steps == [] then b else TakeAll(L.After(b, categories, steps[0]), categories, steps[1..])
  }

  lemma {:induction false} RunThenTake(categories: map<nat, Source>, first: seq<L.LedgerStep>, rest: seq<L.LedgerStep>)
    ensures L.Run(categories, first + rest) == TakeAll(L.Run(categories, first), categories, rest)
    decreases |rest|
  {
    if rest == [] {
      assert first + rest == first;
    } else {
      var longer := first + [rest[0]];
      assert longer[..|longer| - 1] == first;
      assert longer + rest[1..] == first + rest;
      RunThenTake(categories, longer, rest[1..]);
    }
  }

  lemma {:induction false} TakeOne(b: Books, categories: map<nat, Source>, step: L.LedgerStep)
    ensures TakeAll(b, categories, [step]) == L.After(b, categories, step)
  {
  }

  lemma {:induction false} TakeFirst(b: Books, categories: map<nat, Source>, step: L.LedgerStep,
                                     rest: seq<L.LedgerStep>)
    ensures TakeAll(b, categories, [step] + rest) == TakeAll(L.After(b, categories, step), categories, rest)
  {
  }

  // ----- the requests that post more than once

  lemma {:induction false} PayingOutPosts(b: Books, categories: map<nat, Source>, l: nat, loan: Loan, date: int)
    requires LedgerInv(b) && PaidOut(b, categories, l, loan, date).Success?
    ensures TakeAll(b, categories, PayOutSteps(l, loan, date)) == PaidOut(b, categories, l, loan, date).value
  {
    var spend := L.PostExpense(LOAN_DISBURSEMENT, loan.disbursed, Some(FromCapital), date);
    var earn := L.PostIncome(AdminFee(l), loan.adminFee, date);
    CreatedKeepsInvariant(b, categories, LOAN_DISBURSEMENT, loan.disbursed, Some(FromCapital), date);
    assert PayOutSteps(l, loan, date) == [spend] + [earn];
    TakeFirst(b, categories, spend, [earn]);
    TakeOne(L.After(b, categories, spend), categories, earn);
  }

  lemma {:induction false} CollectingPosts(b: Books, categories: map<nat, Source>, l: nat, x: Installment, date: int)
    requires Collected(b, l, x, date).Success?
    ensures TakeAll(b, categories, Collecting(l, x, date)) == Collected(b, l, x, date).value
  {
    var principal := L.PostIncome(InstallmentPrincipal(l, x.number), x.principal, date);
    var rest := Collecting(l, x, date)[1..];
    assert Collecting(l, x, date) == [principal] + rest;
    TakeFirst(b, categories, principal, rest);
    CollectingShuPosts(L.After(b, categories, principal), categories, l, x, date);
  }

  lemma {:induction false} CollectingShuPosts(b: Books, categories: map<nat, Source>, l: nat, x: Installment, date: int)
    requires CollectedShu(b, l, x, date).Success?
    ensures TakeAll(b, categories, Collecting(l, x, date)[1..]) == CollectedShu(b, l, x, date).value
  {
    var interest := L.PostIncome(InstallmentInterest(l, x.number), x.interest, date);
    if x.penalty > 0 {
      var penalty := L.PostIncome(InstallmentPenalty(l, x.number), x.penalty, date);
      assert Collecting(l, x, date)[1..] == [interest] + [penalty];
      TakeFirst(b, categories, interest, [penalty]);
      TakeOne(L.After(b, categories, interest), categories, penalty);
    } else {
      assert Collecting(l, x, date)[1..] == [interest];
      TakeOne(b, categories, interest);
    }
  }

  // ----- every request, every run

  ghost predicate PostsExactly(s: State, c: Command) {
    && After(s, c).books == TakeAll(s.books, s.categories, Postings(s, c))
    && After(s, c).categories == s.categories
  }

  predicate Quiet(c: Command) {
    c.AskDeposit? || c.GenerateSavings? || c.RequestLoan? || c.Approve? || c.Reject? || c.ReadLoan? || c.RunOverdue?
  }

  lemma QuietPosts(s: State, c: Command)
    requires Quiet(c)
    ensures PostsExactly(s, c)
  {
  }

  lemma DepositPosts(s: State, c: Command)
    requires (c.PayDeposit? || c.PaySaving?) && Step(s, c).Success?
    ensures PostsExactly(s, c)
  {
  }

  lemma ExpensePosts(s: State, c: Command)
    requires (c.PostExpense? || c.EditExpense? || c.DropExpense?) && Step(s, c).Success?
    ensures PostsExactly(s, c)
  {
  }

  lemma DisbursementPosts(s: State, c: Command)
    requires SystemInv(s) && c.Disburse? && Step(s, c).Success?
    ensures PostsExactly(s, c)
  {
    var (l, loan) := s.lending.readers[c.reader];
    var books := After(s, c).books;
    assert PaidOut(s.books, s.categories, l, loan, c.date) == Success(books) by {
      DisbursingIsAStep(s, c.reader, c.today, c.date);
      DisbursedShape(s, c.reader, c.today, c.date);
    }
    PayingOutPosts(s.books, s.categories, l, loan, c.date);
    DisbursementIsCommitted(s, c);
  }

  lemma DisbursementIsCommitted(s: State, c: Command)
    requires c.Disburse? && Step(s, c).Success?
    ensures c.reader < |s.lending.readers|
    ensures var (l, loan) := s.lending.readers[c.reader];
            Postings(s, c) == PayOutSteps(l, loan, c.date) && After(s, c).categories == s.categories
  {
  }

  lemma SettlementPosts(s: State, c: Command)
    requires c.Settle? && Step(s, c).Success?
    ensures PostsExactly(s, c)
  {
    CollectingPosts(s.books, s.categories, c.loan, s.lending.installments[c.loan][c.index], c.date);
  }

  lemma CommandPosts(s: State, c: Command)
    requires SystemInv(s)
    ensures PostsExactly(s, c)
  {
    if Quiet(c) {
      QuietPosts(s, c);
    } else if Step(s, c).Success? {
      if c.Disburse? {
        DisbursementPosts(s, c);
      } else if c.Settle? {
        SettlementPosts(s, c);
      } else if c.PayDeposit? || c.PaySaving? {
        DepositPosts(s, c);
      } else {
        ExpensePosts(s, c);
      }
    }
  }

  /** The cashbook of every run of the system is the cashbook of a run of ledger steps. */
  lemma {:induction false} EveryRunIsALedgerRun(categories: map<nat, Source>, commands: seq<Command>)
    ensures Run(categories, commands).books == L.Run(categories, AllPostings(categories, commands))
    ensures Run(categories, commands).categories == categories
  {
    if commands != [] {
      var earlier, last := commands[..|commands| - 1], commands[|commands| - 1];
      var s := Run(categories, earlier);
      EveryRunIsALedgerRun(categories, earlier);
      EveryRunKeepsInv(categories, earlier);
      CommandPosts(s, last);
      RunThenTake(categories, AllPostings(categories, earlier), Postings(s, last));
    }
  }

  /** So its snapshots chain, from the opening balances to the current ones, with gaps only for what deleted
      expenses gave back; no expense's rows ever net to an inflow on the way; and every expense is in the cashbook
      under its own date. */
  lemma {:induction false} EveryRunKeepsHistory(categories: map<nat, Source>, commands: seq<Command>)
    ensures var audit := L.AuditRun(categories, AllPostings(categories, commands));
            audit.books == Run(categories, commands).books && L.Chained(audit)
    ensures LedgerRefinement.NeverAhead(Run(categories, commands).books.rows)
    ensures L.AllDated(Run(categories, commands).books)
  {
    EveryRunIsALedgerRun(categories, commands);
    L.EveryRunChains(categories, AllPostings(categories, commands));
    LedgerRefinement.EveryRunNeverAhead(categories, AllPostings(categories, commands));
    L.EveryRunKeepsDates(categories, AllPostings(categories, commands));
  }

  // ----- dates

  predicate PostsOn(step: L.LedgerStep, date: int) {
    match step
    case PostIncome(_, _, on) => on == date
    case PostExpense(_, _, _, on) => on == date
    case _ => false
  }

  lemma StepAddsDated(b: Books, categories: map<nat, Source>, step: L.LedgerStep, date: int)
    requires LedgerInv(b) && PostsOn(step, date)
    ensures AddsDated(b, L.After(b, categories, step), date)
    ensures LedgerInv(L.After(b, categories, step))
  {
    L.StepKeepsLedger(b, categories, step);
    match step
    case PostIncome(origin, amount, _) => EarnedOutcome(b, origin, amount, date);
    case PostExpense(category, amount, source, _) =>
      if L.Take(b, categories, step).Success? {
        CreatedKeepsInvariant(b, categories, category, amount, source, date);
      }
  }

  lemma {:induction false} TakingAddsDated(b: Books, categories: map<nat, Source>, steps: seq<L.LedgerStep>, date: int)
    requires LedgerInv(b) && forall k :: 0 <= k < |steps| ==> PostsOn(steps[k], date)
    ensures AddsDated(b, TakeAll(b, categories, steps), date)
    decreases |steps|
  {
    if steps != [] {
      var next := L.After(b, categories, steps[0]);
      StepAddsDated(b, categories, steps[0], date);
      TakingAddsDated(next, categories, steps[1..], date);
    }
  }

  lemma PostingsAreDated(s: State, c: Command)
    requires c.PayDeposit? || c.PaySaving? || c.PostExpense? || c.Disburse? || c.Settle?
    ensures forall k :: 0 <= k < |Committed(s, c)| ==> PostsOn(Committed(s, c)[k], c.date)
  {
  }

  /** Whatever rows a payment, an expense, a disbursement or a settlement adds have the date it was given, none is a
      reversal, and older rows stay as they are. */
  lemma RequestsAddDated(s: State, c: Command)
    requires SystemInv(s)
    requires c.PayDeposit? || c.PaySaving? || c.PostExpense? || c.Disburse? || c.Settle?
    ensures AddsDated(s.books, After(s, c).books, c.date)
  {
    CommandPosts(s, c);
    PostingsAreDated(s, c);
    TakingAddsDated(s.books, s.categories, Postings(s, c), c.date);
  }

  // ----- what disbursements post

  /** The ledger steps that the committed disbursements of loan `l` contribute to `AllPostings`. */
  ghost function DisbursementPostings(categories: map<nat, Source>, commands: seq<Command>, l: nat): seq<L.LedgerStep> {
    if commands == [] then []
    else
      var earlier, last := commands[..|commands| - 1], commands[|commands| - 1];
      var s := Run(categories, earlier);
      DisbursementPostings(categories, earlier, l) + (if Disburses(s, last, l) then Postings(s, last) else [])
  }

  /** Nothing for a loan that is not active; for an active one its net amount and its fee, once each. */
  ghost predicate PaidOutOnce(b: Lending, l: nat, steps: seq<L.LedgerStep>) {
    if IsActive(b, l) then exists date :: steps == PayOutSteps(l, b.loans[l], date) else steps == []
  }

  lemma DisbursementPostsPair(s: State, c: Command, l: nat)
    requires SystemInv(s) && Disburses(s, c, l)
    ensures l < |s.lending.loans| && Postings(s, c) == PayOutSteps(l, s.lending.loans[l], c.date)
  {
    assert IsApproved(s.lending, l) && s.lending.readers[c.reader].1 == s.lending.loans[l] by {
      DisbursingIsAStep(s, c.reader, c.today, c.date);
      DisbursedShape(s, c.reader, c.today, c.date);
    }
    DisbursementIsCommitted(s, c);
  }

  lemma DisbursementPaysOut(s: State, c: Command, l: nat)
    requires SystemInv(s) && Disburses(s, c, l)
    ensures PaidOutOnce(After(s, c).lending, l, Postings(s, c))
  {
    DisbursementPostsPair(s, c, l);
    StepMovesLoan(s, c, l);
    StepActivates(s, c, l);
    assert Postings(s, c) == PayOutSteps(l, After(s, c).lending.loans[l], c.date);
  }

  lemma OthersPayOutNothing(s: State, c: Command, l: nat, steps: seq<L.LedgerStep>)
    requires SystemInv(s) && PaidOutOnce(s.lending, l, steps) && !Disburses(s, c, l)
    ensures PaidOutOnce(After(s, c).lending, l, steps)
  {
    StepActivates(s, c, l);
    if IsActive(s.lending, l) {
      StepMovesForward(s, c, l);
    }
  }

  lemma StepPaysOutOnce(s: State, c: Command, l: nat, steps: seq<L.LedgerStep>)
    requires SystemInv(s) && PaidOutOnce(s.lending, l, steps)
    ensures PaidOutOnce(After(s, c).lending, l, steps + (if Disburses(s, c, l) then Postings(s, c) else []))
  {
    if Disburses(s, c, l) {
      StepActivates(s, c, l);
      DisbursementPaysOut(s, c, l);
      assert steps + Postings(s, c) == Postings(s, c);
    } else {
      OthersPayOutNothing(s, c, l, steps);
      assert steps + [] == steps;
    }
  }

  lemma {:induction false} EveryRunPaysOutOnce(categories: map<nat, Source>, commands: seq<Command>, l: nat)
    ensures PaidOutOnce(Run(categories, commands).lending, l, DisbursementPostings(categories, commands, l))
  {
    if commands != [] {
      var earlier, last := commands[..|commands| - 1], commands[|commands| - 1];
      var s := Run(categories, earlier);
      EveryRunPaysOutOnce(categories, earlier, l);
      EveryRunKeepsInv(categories, earlier);
      StepPaysOutOnce(s, last, l, DisbursementPostings(categories, earlier, l));
      assert Run(categories, commands) == After(s, last);
    }
  }

  /** However many disbursers read the loan as approved before any of them committed, at most one commits: exactly
      one for an active loan, which then has one schedule, one fee income, and in the ledger one posting of its
      net amount out of capital and one of its fee; none of these for any other loan. */
  lemma {:induction false} DisbursedAtMostOnce(categories: map<nat, Source>, commands: seq<Command>, l: nat)
    ensures var s := Run(categories, commands);
            && Disbursals(categories, commands, l) == (if IsActive(s.lending, l) then 1 else 0)
            && Sum(s.books.incomes, FeeCount(l)) == Disbursals(categories, commands, l)
            && |PlanAt(s.lending, l)| == (if IsActive(s.lending, l) then s.lending.loans[l].period.tenor else 0)
            && PaidOutOnce(s.lending, l, DisbursementPostings(categories, commands, l))
  {
    CommitsAreActivity(categories, commands, l);
    EveryRunKeepsInv(categories, commands);
    PostedAsActive(Run(categories, commands), l);
    EveryRunPaysOutOnce(categories, commands, l);
  }
}
