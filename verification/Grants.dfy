/** The first loan of a fresh system: requested, approved, read and disbursed, and kept whatever comes after. */
module Grants {
  import opened Basics
  import opened Schema
  import opened LoanSchedule
  import opened Loans
  import opened Cooperative
  import opened CooperativeRuns
  import opened LoanLifecycle
  import opened LoanProgress

  datatype Application = Application(user: nat, amount: real, period: Period, feeRate: real) {
    function Loan(): Loan { NewLoan(user, amount, period, feeRate) }

    function Request(): Command { RequestLoan(user, amount, Some(period), feeRate) }

    function Granting(today: Day, date: int): seq<Command> {
      [Request()] + [Approve(0)] + [ReadLoan(0)] + [Disburse(0, today, date)]
    }
  }

  /** The opening capital pays the net amount, and there is a fee to book. */
  predicate CanBeGranted(categories: map<nat, Source>, a: Application) {
    && a.amount > 0.0
    && LOAN_DISBURSEMENT in categories
    && 0 < a.Loan().disbursed <= OPENING.capital
    && a.Loan().adminFee > 0
  }

  lemma RequestIsTaken(categories: map<nat, Source>, a: Application)
    requires a.amount > 0.0
    ensures After(EmptyState(categories), a.Request()) ==
            EmptyState(categories).(lending := Lending([a.Loan()], [[]], []))
  {
  }

  lemma RequestedState(categories: map<nat, Source>, a: Application)
    requires CanBeGranted(categories, a)
    ensures var s := After(EmptyState(categories), a.Request());
            && SystemInv(s) && s.lending.loans == [a.Loan()] && s.lending.readers == []
            && s.books.balances == OPENING && s.categories == categories
            && a.Loan().status == Pending
  {
    EmptyKeepsInv(categories);
    StepKeepsInv(EmptyState(categories), a.Request());
    RequestIsTaken(categories, a);
  }

  lemma {:induction false} FourRequests(categories: map<nat, Source>, a: Command, b: Command, c: Command, d: Command)
    ensures Run(categories, [a] + [b] + [c] + [d]) == After(After(After(After(EmptyState(categories), a), b), c), d)
  {
    assert [] + [a] == [a];
    RunAppend(categories, [], a);
    RunAppend(categories, [a], b);
    RunAppend(categories, [a] + [b], c);
    RunAppend(categories, [a] + [b] + [c], d);
  }

  /** It is granted: after the four requests loan 0 is active with its own schedule. */
  lemma {:induction false} GrantedIsFresh(categories: map<nat, Source>, a: Application, today: Day, date: int)
    requires CanBeGranted(categories, a)
    ensures FreshLoan(Run(categories, a.Granting(today, date)).lending, 0, today)
  {
    RequestedState(categories, a);
    PendingLoansCanBeDisbursed(After(EmptyState(categories), a.Request()), 0, today, date);
    FourRequests(categories, a.Request(), Approve(0), ReadLoan(0), Disburse(0, today, date));
  }

  /** And kept: whatever comes after, loan 0 is active and has its terms. */
  lemma {:induction false} GrantedStays(categories: map<nat, Source>, a: Application, today: Day, date: int,
                                        more: seq<Command>)
    requires CanBeGranted(categories, a)
    ensures var b := Run(categories, a.Granting(today, date) + more).lending;
            HasLoan(b, 0) && IsActive(b, 0) && SameTerms(a.Loan(), b.loans[0])
  {
    var start := a.Granting(today, date);
    var commands := start + more;
    assert commands[..|start|] == start;
    assert commands[..1] == [a.Request()] == [] + [a.Request()];
    RunAppend(categories, [], a.Request());
    RequestedState(categories, a);
    GrantedIsFresh(categories, a, today, date);
    EveryRunMovesForward(categories, commands, 1, 0);
    EveryRunMovesForward(categories, commands, |start|, 0);
  }
}
