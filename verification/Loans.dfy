/** `LoansService`: request, approval, rejection, disbursement, the monthly overdue run, and settlement. */
module Loans {
  import opened Basics
  import opened Schema
  import opened Expenses
  import opened Incomes
  import opened LoanSchedule
  import opened LoanPenalties

  // ----- the loan limit trigger

  function CountOpen(loans: seq<Loan>, user: nat, except: nat, n: nat): nat
    requires n <= |loans|
  {
    if n == 0 then 0
    else CountOpen(loans, user, except, n - 1) + (if IsOtherOpen(loans[n - 1], user, except, n - 1) then 1 else 0)
  }

  predicate IsOtherOpen(loan: Loan, user: nat, except: nat, id: nat) {
    loan.user == user && loan.status.Open() && id != except
  }

  /** `check_max_loans_per_user` on a row about to be written with id `id`; its WHEN clause lets rows that
      are not open pass. */
  function LimitRefuses(loans: seq<Loan>, id: nat, row: Loan): bool {
    row.status.Open() && CountOpen(loans, row.user, id, |loans|) >= 3
  }

  method CheckMaxLoans(trx: Database, id: nat, row: Loan) returns (r: Result<()>)
    ensures r == if LimitRefuses(trx.loans, id, row) then Failure(TooManyLoans) else Success(())
  {
    if row.status.Open() {
      var loanCount := 0;
      for i := 0 to |trx.loans|
        invariant loanCount == CountOpen(trx.loans, row.user, id, i)
      {
        if trx.loans[i].user == row.user && trx.loans[i].status.Open() && i != id {
          loanCount := loanCount + 1;
        }
      }
      if loanCount >= 3 {
        return Failure(TooManyLoans);
      }
    }
    r := Success(());
  }

  // ----- what the operations amount to

  function HasLoan(b: Lending, l: nat): bool { l < |b.loans| && l < |b.installments| }

  function WithLoan(s: State, l: nat, loan: Loan): State
    requires l < |s.lending.loans|
  {
    s.(lending := s.lending.(loans := s.lending.loans[l := loan]))
  }

  function WithPlan(s: State, l: nat, plan: seq<Installment>): State
    requires l < |s.lending.installments|
  {
    s.(lending := s.lending.(installments := s.lending.installments[l := plan]))
  }

  /** `createLoan`, from a loan period that may not exist. */
  function Requested(s: State, user: nat, amount: real, period: Option<Period>, feeRate: real): Result<State> {
    if amount <= 0.0 then Failure(InvalidAmount)
    else if period.None? then Failure(NotFound)
    else
      var loan := NewLoan(user, amount, period.value, feeRate);
      if LimitRefuses(s.lending.loans, |s.lending.loans|, loan) then Failure(TooManyLoans)
      else Success(s.(lending := s.lending.(loans := s.lending.loans + [loan],
                                            installments := s.lending.installments + [[]])))
  }

  /** `approveLoan` and `rejectLoan`: out of pending only. */
  function Decided(s: State, l: nat, verdict: LoanStatus): Result<State> {
    if l >= |s.lending.loans| then Failure(NotFound)
    else if s.lending.loans[l].status != Pending then Failure(WrongStatus)
    else
      var decided := s.lending.loans[l].(status := verdict);
      if LimitRefuses(s.lending.loans, l, decided) then Failure(TooManyLoans)
      else Success(WithLoan(s, l, decided))
  }

  /** The first half of `disburseLoan`: a read outside any transaction, and its check. */
  function ReadForDisbursement(s: State, l: nat): Result<State> {
    if l >= |s.lending.loans| then Failure(NotFound)
    else if s.lending.loans[l].status != Approved then Failure(WrongStatus)
    else if LOAN_DISBURSEMENT !in s.categories then Failure(CategoryNotFound)
    else Success(s.(lending := s.lending.(readers := s.lending.readers + [(l, s.lending.loans[l])])))
  }

  /** The unique key on (loan_id, installment_number). */
  predicate Clashes(group: seq<Installment>, batch: seq<Installment>) {
    exists i, j :: 0 <= i < |group| && 0 <= j < |batch| && group[i].number == batch[j].number
  }

  /** The second half of `disburseLoan`: the transaction of reader `k`, which trusts what it read. */
  function Disbursed(s: State, k: nat, today: Date, txnDate: int): Result<State> {
    if k >= |s.lending.readers| || !HasLoan(s.lending, s.lending.readers[k].0) then Failure(NotFound)
    else
      var (l, loan) := s.lending.readers[k];
      var active := s.lending.loans[l].(status := Active, disbursedOn := Some(today));
      var group, batch := s.lending.installments[l], Schedule(loan, today);
      if LimitRefuses(s.lending.loans, l, active) then Failure(TooManyLoans)
      else if Clashes(group, batch) then Failure(UniqueViolation)
      else
        var books :- PaidOut(s.books, s.categories, l, loan, txnDate);
        Success(WithPlan(WithLoan(s, l, active), l, group + batch).(books := books))
  }

  /** The money of a disbursement: the net amount leaves capital, and the fee is booked to SHU besides. */
  function PaidOut(b: Books, categories: map<nat, Source>, l: nat, loan: Loan, txnDate: int): Result<Books> {
    var spent :- Created(b, categories, LOAN_DISBURSEMENT, loan.disbursed, Some(FromCapital), txnDate);
    Earned(spent, AdminFee(l), loan.adminFee, txnDate)
  }

  /** `processOverdueInstallments`. */
  function OverdueRun(s: State, cutoff: Date): State {
    s.(lending := s.lending.(installments := AfterRuns(s.lending.loans, s.lending.installments, cutoff)))
  }

  function AfterRuns(loans: seq<Loan>, installments: seq<seq<Installment>>, cutoff: Date): seq<seq<Installment>> {
    seq(|installments|, l requires 0 <= l < |installments| =>
      if l < |loans| then AfterRun(installments[l], PenaltyOf(loans[l]), cutoff) else installments[l])
  }

  /** The incomes a settlement records, one cashbook row each. */
  function Collected(b: Books, l: nat, x: Installment, txnDate: int): Result<Books> {
    var principal :- Earned(b, InstallmentPrincipal(l, x.number), x.principal, txnDate);
    CollectedShu(principal, l, x, txnDate)
  }

  function CollectedShu(b: Books, l: nat, x: Installment, txnDate: int): Result<Books> {
    var interest :- Earned(b, InstallmentInterest(l, x.number), x.interest, txnDate);
    if x.penalty > 0 then Earned(interest, InstallmentPenalty(l, x.number), x.penalty, txnDate) else Success(interest)
  }

  /** `settleInstallment`. */
  function Settled(s: State, l: nat, i: nat, txnDate: int): Result<State> {
    if !HasLoan(s.lending, l) || i >= |s.lending.installments[l]| then Failure(NotFound)
    else
      var x := s.lending.installments[l][i];
      if x.status == Paid then Failure(AlreadyPaid)
      else
        var collected :- Collected(s.books, l, x, txnDate);
        Success(WithPlan(s, l, s.lending.installments[l][i := x.(status := Paid)]).(books := collected))
  }

  // ----- the service

  method CreateLoan(db: Database, user: nat, amount: real, period: Option<Period>, feeRate: real)
    returns (r: Result<nat>)
    modifies db
    ensures Commits(r, old(db.View()), db.View(), Requested(old(db.View()), user, amount, period, feeRate))
  {
    if amount <= 0.0 {
      return Failure(InvalidAmount);
    }
    if period.None? {
      return Failure(NotFound);
    }
    var loan := NewLoan(user, amount, period.value, feeRate);
    var id := |db.loans|;
    var _ :- CheckMaxLoans(db, id, loan);
    db.loans := db.loans + [loan];
    db.installments := db.installments + [[]];
    r := Success(id);
  }

  method ApproveLoan(db: Database, l: nat) returns (r: Result<()>)
    modifies db
    ensures Commits(r, old(db.View()), db.View(), Decided(old(db.View()), l, Approved))
  {
    r := Decide(db, l, Approved);
  }

  method RejectLoan(db: Database, l: nat) returns (r: Result<()>)
    modifies db
    ensures Commits(r, old(db.View()), db.View(), Decided(old(db.View()), l, Rejected))
  {
    r := Decide(db, l, Rejected);
  }

  method Decide(db: Database, l: nat, verdict: LoanStatus) returns (r: Result<()>)
    modifies db
    ensures Commits(r, old(db.View()), db.View(), Decided(old(db.View()), l, verdict))
  {
    if l >= |db.loans| {
      return Failure(NotFound);
    }
    var loan := db.loans[l];
    if loan.status != Pending {
      return Failure(WrongStatus);
    }
    var _ :- CheckMaxLoans(db, l, loan.(status := verdict));
    db.loans := db.loans[l := loan.(status := verdict)];
    r := Success(());
  }

  /** The read keeps the loan for the transaction that follows; its id is the reader's. */
  method FindLoanToDisburse(db: Database, l: nat) returns (r: Result<nat>)
    modifies db
    ensures Commits(r, old(db.View()), db.View(), ReadForDisbursement(old(db.View()), l))
  {
    if l >= |db.loans| {
      return Failure(NotFound);
    }
    var loan := db.loans[l];
    if loan.status != Approved {
      return Failure(WrongStatus);
    }
    if LOAN_DISBURSEMENT !in db.categories {
      return Failure(CategoryNotFound);
    }
    db.readers := db.readers + [(l, loan)];
    r := Success(|db.readers| - 1);
  }

  method DisburseLoan(db: Database, k: nat, today: Date, txnDate: int) returns (r: Result<()>)
    modifies db
    ensures Commits(r, old(db.View()), db.View(), Disbursed(old(db.View()), k, today, txnDate))
  {
    if k >= |db.readers| || db.readers[k].0 >= |db.loans| || db.readers[k].0 >= |db.installments| {
      return Failure(NotFound);
    }
    var saved := db.View();
    r := DisburseInTransaction(db, k, today, txnDate);
    if r.Failure? {
      db.Rollback(saved);
    }
  }

  method DisburseInTransaction(trx: Database, k: nat, today: Date, txnDate: int) returns (r: Result<()>)
    requires k < |trx.readers| && trx.readers[k].0 < |trx.loans| && trx.readers[k].0 < |trx.installments|
    modifies trx
    ensures Follows(r, trx.View(), Disbursed(old(trx.View()), k, today, txnDate))
  {
    var (l, loan) := trx.readers[k];
    var active := trx.loans[l].(status := Active, disbursedOn := Some(today));
    var _ :- CheckMaxLoans(trx, l, active);
    trx.loans := trx.loans[l := active];
    var installments := GenerateInstallments(loan, today);
    if Clashes(trx.installments[l], installments) {
      return Failure(UniqueViolation);
    }
    trx.installments := trx.installments[l := trx.installments[l] + installments];
    r := PayOut(trx, l, loan, txnDate);
  }

  method PayOut(trx: Database, l: nat, loan: Loan, txnDate: int) returns (r: Result<()>)
    modifies trx`balances, trx`rows, trx`incomes, trx`expenses
    ensures Follows(r, trx.Cashbook(), PaidOut(old(trx.Cashbook()), trx.categories, l, loan, txnDate))
  {
    var _ :- CreateExpenseInTransaction(trx, LOAN_DISBURSEMENT, loan.disbursed, Some(FromCapital), txnDate);
    r := RecordIncome(trx, AdminFee(l), loan.adminFee, txnDate);
  }

  method SettleInstallment(db: Database, l: nat, i: nat, txnDate: int) returns (r: Result<()>)
    modifies db
    ensures Commits(r, old(db.View()), db.View(), Settled(old(db.View()), l, i, txnDate))
  {
    if l >= |db.loans| || l >= |db.installments| || i >= |db.installments[l]| {
      return Failure(NotFound);
    }
    if db.installments[l][i].status == Paid {
      return Failure(AlreadyPaid);
    }
    var saved := db.View();
    r := SettleInTransaction(db, l, i, txnDate);
    if r.Failure? {
      db.Rollback(saved);
    }
  }

  method SettleInTransaction(trx: Database, l: nat, i: nat, txnDate: int) returns (r: Result<()>)
    requires l < |trx.loans| && l < |trx.installments| && i < |trx.installments[l]|
    requires trx.installments[l][i].status != Paid
    modifies trx
    ensures Follows(r, trx.View(), Settled(old(trx.View()), l, i, txnDate))
  {
    var x := trx.installments[l][i];
    trx.installments := trx.installments[l := trx.installments[l][i := x.(status := Paid)]];
    r := Collect(trx, l, x, txnDate);
  }

  method Collect(trx: Database, l: nat, x: Installment, txnDate: int) returns (r: Result<()>)
    modifies trx`balances, trx`rows, trx`incomes
    ensures Follows(r, trx.Cashbook(), Collected(old(trx.Cashbook()), l, x, txnDate))
  {
    var _ :- RecordIncome(trx, InstallmentPrincipal(l, x.number), x.principal, txnDate);
    var _ :- RecordIncome(trx, InstallmentInterest(l, x.number), x.interest, txnDate);
    if x.penalty > 0 {
      var _ :- RecordIncome(trx, InstallmentPenalty(l, x.number), x.penalty, txnDate);
    }
    r := Success(());
  }
}
