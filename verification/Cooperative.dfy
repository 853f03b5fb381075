/** The whole system: every run of every operation from the migrated database. */
module Cooperative {
  import opened Basics
  import opened Schema
  import opened CashbookLedger
  import opened Expenses
  import opened Incomes
  import opened LoanSchedule
  import opened LoanPenalties
  import opened Loans
  import opened Savings

  type Day = d: Date | ValidDate(d) witness Date(0, 1)

  datatype Command =
    | AskDeposit(user: nat, activeMembers: nat, minimum: real)
    | PayDeposit(user: nat, date: int)
    | GenerateSavings(users: seq<nat>, configured: real, year: int, startMonth: nat)
    | PaySaving(id: nat, date: int)
    | PostExpense(category: nat, amount: int, source: Option<Source>, date: int)
    | EditExpense(id: nat, change: ExpenseChange)
    | DropExpense(id: nat)
    | RequestLoan(user: nat, requested: real, period: Option<Period>, feeRate: real)
    | Approve(loan: nat)
    | Reject(loan: nat)
    | ReadLoan(loan: nat)
    | Disburse(reader: nat, today: Day, date: int)
    | RunOverdue(cutoff: Date)
    | Settle(loan: nat, index: nat, date: int)

  /** One transaction. Overdue runs and generations always commit. */
  ghost function Step(s: State, c: Command): Result<State> {
    match c
    case AskDeposit(user, activeMembers, minimum) => DepositAsked(s, user, activeMembers, minimum)
    case PayDeposit(user, date) => DepositSettled(s, user, date)
    case GenerateSavings(users, configured, year, startMonth) =>
      Success(Generated(s, users, configured, year, startMonth))
    case PaySaving(id, date) => SavingSettled(s, id, date)
    case PostExpense(category, amount, source, date) =>
      OnBooks(s, Posted(s.books, s.categories, category, amount, source, date))
    case EditExpense(id, change) => OnBooks(s, Updated(s.books, s.categories, id, change))
    case DropExpense(id) => OnBooks(s, Deleted(s.books, id))
    case RequestLoan(user, amount, period, feeRate) => Requested(s, user, amount, period, feeRate)
    case Approve(l) => Decided(s, l, Approved)
    case Reject(l) => Decided(s, l, Rejected)
    case ReadLoan(l) => ReadForDisbursement(s, l)
    case Disburse(k, today, date) => Disbursed(s, k, today, date)
    case RunOverdue(cutoff) => Success(OverdueRun(s, cutoff))
    case Settle(l, i, date) => Settled(s, l, i, date)
  }

  ghost function After(s: State, c: Command): State {
    var r := Step(s, c);
    if r.Success? then r.value else s
  }

  ghost function Run(categories: map<nat, Source>, commands: seq<Command>): State {
    if commands == [] then EmptyState(categories)
    else After(Run(categories, commands[..|commands| - 1]), commands[|commands| - 1])
  }

  // ----- reconciliation

  function PaidDeposit(): PrincipalSaving -> int { (x: PrincipalSaving) => if x.paid then x.amount else 0 }

  function PaidSaving(): Saving -> int { (x: Saving) => if x.paid then x.amount else 0 }

  function ActiveFee(): Loan -> int { (x: Loan) => if x.status == Active then x.adminFee else 0 }

  ghost function PlanCapital(): seq<Installment> -> int {
    (plan: seq<Installment>) => SumAmounts(plan, PaidPart).capital
  }

  ghost function PlanShu(): seq<Installment> -> int {
    (plan: seq<Installment>) => SumAmounts(plan, PaidPart).shu
  }

  function SpentCapital(): Option<Expense> -> int {
    (x: Option<Expense>) => if x.Some? then x.value.parts.capital else 0
  }

  function SpentShu(): Option<Expense> -> int { (x: Option<Expense>) => if x.Some? then x.value.parts.shu else 0 }

  /** What the business tables say capital should hold, before expenses. */
  ghost function CapitalIn(d: Deposits, b: Lending): int {
    5_000_000 * RUPIAH + Sum(d.principal, PaidDeposit()) + Sum(d.mandatory, PaidSaving()) +
    Sum(b.installments, PlanCapital())
  }

  /** And SHU. */
  ghost function ShuIn(b: Lending): int {
    Sum(b.loans, ActiveFee()) + Sum(b.installments, PlanShu())
  }

  ghost predicate Reconciled(s: State) {
    && s.books.balances.capital == CapitalIn(s.deposits, s.lending) - Sum(s.books.expenses, SpentCapital())
    && s.books.balances.shu == ShuIn(s.lending) - Sum(s.books.expenses, SpentShu())
  }

  // ----- lending

  /** One for a loan of the member that is pending, approved or active. */
  function OpenOf(user: nat): Loan -> int {
    (x: Loan) => if x.user == user && (x.status == Pending || x.status == Approved || x.status == Active) then 1 else 0
  }

  ghost predicate LoanSound(loan: Loan, plan: seq<Installment>) {
    && Priced(loan)
    && loan.status != Completed
    && (loan.status == Active ==> PlanSound(loan, plan))
    && (loan.status != Active ==> plan == [] && loan.disbursedOn.None?)
  }

  /** What a waiting disburser read is still the loan, but for what a disbursement since has set. */
  ghost predicate ReaderSound(b: Lending, reader: (nat, Loan)) {
    && HasLoan(b, reader.0)
    && reader.1 == b.loans[reader.0].(status := Approved, disbursedOn := None)
    && (b.loans[reader.0].status == Approved || b.loans[reader.0].status == Active)
  }

  ghost predicate LendingInv(b: Lending) {
    && |b.loans| == |b.installments|
    && (forall l :: 0 <= l < |b.loans| ==> LoanSound(b.loans[l], b.installments[l]))
    && (forall k :: 0 <= k < |b.readers| ==> ReaderSound(b, b.readers[k]))
    && WithinLimit(b.loans)
  }

  ghost predicate WithinLimit(loans: seq<Loan>) {
    forall user: nat :: Sum(loans, OpenOf(user)) <= 3
  }

  ghost predicate OneDepositEach(table: seq<PrincipalSaving>) {
    forall i, j :: 0 <= i < |table| && 0 <= j < |table| && table[i].user == table[j].user ==> i == j
  }

  /** Every mandatory row is for a month of the year, and what is paid was something. */
  ghost predicate AllPayable(table: seq<Saving>) {
    forall i :: 0 <= i < |table| ==> table[i].month < 12 && (table[i].paid ==> table[i].amount > 0)
  }

  ghost predicate DepositsInv(d: Deposits) {
    UniqueKeys(d.mandatory) && AllPayable(d.mandatory) && OneDepositEach(d.principal)
  }

  // ----- postings

  /** The incomes that settling installments of loan `l` recorded. */
  function Repayment(l: nat): Option<Income> -> Amounts {
    (x: Option<Income>) => if x.Some? && RepaysLoan(x.value.origin, l) then x.value.Parts() else ZERO
  }

  predicate RepaysLoan(origin: Origin, l: nat) {
    match origin
    case InstallmentPrincipal(loan, _) => loan == l
    case InstallmentInterest(loan, _) => loan == l
    case InstallmentPenalty(loan, _) => loan == l
    case _ => false
  }

  function FeeCount(l: nat): Option<Income> -> int {
    (x: Option<Income>) => if x.Some? && x.value.origin == AdminFee(l) then 1 else 0
  }

  ghost predicate PostedFor(incomes: seq<Option<Income>>, b: Lending, l: nat) {
    && SumAmounts(incomes, Repayment(l)) == SumAmounts(PlanAt(b, l), PaidPart)
    && Sum(incomes, FeeCount(l)) == (if IsActive(b, l) then 1 else 0)
  }

  function PlanAt(b: Lending, l: nat): seq<Installment> { if l < |b.installments| then b.installments[l] else [] }

  predicate IsActive(b: Lending, l: nat) { l < |b.loans| && b.loans[l].status == Active }

  /** Each loan has posted exactly its paid installments, and one fee if it was disbursed, none otherwise. */
  ghost predicate AllPosted(incomes: seq<Option<Income>>, b: Lending) {
    forall l: nat :: PostedFor(incomes, b, l)
  }

  ghost predicate SystemInv(s: State) {
    && LedgerInv(s.books)
    && LendingInv(s.lending)
    && DepositsInv(s.deposits)
    && Reconciled(s)
    && AllPosted(s.books.incomes, s.lending)
  }

  // ----- deposits and savings

  lemma OtherIncomeKeepsPostings(was: seq<Option<Income>>, income: Income, b: Lending)
    requires AllPosted(was, b)
    requires income.origin.PrincipalDeposit? || income.origin.MandatorySaving?
    ensures AllPosted(was + [Some(income)], b)
  {
    forall l: nat
      ensures PostedFor(was + [Some(income)], b, l)
    {
      assert PostedFor(was, b, l);
      SumAppend(was, Some(income), ShuOf(Repayment(l)));
      SumAppend(was, Some(income), CapitalOf(Repayment(l)));
      SumAppend(was, Some(income), FeeCount(l));
    }
  }

  lemma PaySavingKeepsInv(s: State, id: nat, date: int)
    requires SystemInv(s) && SavingSettled(s, id, date).Success?
    ensures SystemInv(SavingSettled(s, id, date).value)
  {
    var saving := s.deposits.mandatory[id];
    EarnedOutcome(s.books, MandatorySaving(id), saving.amount, date);
    SumUpdate(s.deposits.mandatory, id, saving.(paid := true), PaidSaving());
    OtherIncomeKeepsPostings(s.books.incomes, Income(MandatorySaving(id), saving.amount, Capital), s.lending);
    var now := SavingSettled(s, id, date).value;
    assert forall i :: 0 <= i < |now.deposits.mandatory| ==>
             now.deposits.mandatory[i].Key() == s.deposits.mandatory[i].Key();
  }

  /** The books with one income more, and its amount in capital. */
  ghost predicate BringsIn(now: Books, was: Books, origin: Origin, amount: int, date: int) {
    && now.balances == was.balances.Plus(Amounts(0, amount))
    && now.incomes == was.incomes + [Some(Income(origin, amount, Capital))]
    && now.expenses == was.expenses
    && |now.rows| == |was.rows| + 1 && AddsDated(was, now, date)
  }

  /** A mandatory saving settles exactly if it is there, unpaid, and asks for something; then it is paid, its amount
      is in capital, and nothing else has changed. */
  lemma SavingOutcome(s: State, id: nat, date: int)
    requires SystemInv(s)
    ensures SavingSettled(s, id, date).Success? <==>
              id < |s.deposits.mandatory| && !s.deposits.mandatory[id].paid && s.deposits.mandatory[id].amount > 0
    ensures SavingSettled(s, id, date) == Failure(NotFound) <==> id >= |s.deposits.mandatory|
    ensures SavingSettled(s, id, date) == Failure(AlreadyPaid) <==>
              id < |s.deposits.mandatory| && s.deposits.mandatory[id].paid
    ensures SavingSettled(s, id, date).Success? ==>
              var now, x := SavingSettled(s, id, date).value, s.deposits.mandatory[id];
              && now.deposits == s.deposits.(mandatory := s.deposits.mandatory[id := x.(paid := true)])
              && BringsIn(now.books, s.books, MandatorySaving(id), x.amount, date)
              && now.lending == s.lending && now.categories == s.categories
  {
    if id < |s.deposits.mandatory| {
      EarnedOutcome(s.books, MandatorySaving(id), s.deposits.mandatory[id].amount, date);
    }
  }

  /** A joining deposit settles exactly if it is there, unpaid, and asks for something: the share asked for is
      zero when the funds are below a rupiah a member, and such a deposit can never be settled. */
  lemma DepositOutcome(s: State, user: nat, date: int)
    requires SystemInv(s)
    ensures DepositSettled(s, user, date).Success? <==>
              exists i :: 0 <= i < |s.deposits.principal| && OwesDeposit(s.deposits.principal[i], user)
    ensures DepositSettled(s, user, date) == Failure(NotFound) <==>
              forall i :: 0 <= i < |s.deposits.principal| ==> s.deposits.principal[i].user != user
    ensures DepositSettled(s, user, date) == Failure(AlreadyPaid) <==>
              exists i :: 0 <= i < |s.deposits.principal| && HasPaid(s.deposits.principal[i], user)
    ensures forall i :: 0 <= i < |s.deposits.principal| && OwesDeposit(s.deposits.principal[i], user) ==>
              && DepositSettled(s, user, date).Success?
              && HasPaidDeposit(DepositSettled(s, user, date).value, s, i, date)
  {
    var found := FindDeposit(s.deposits.principal, user, |s.deposits.principal|);
    if found.Some? {
      EarnedOutcome(s.books, PrincipalDeposit(user), s.deposits.principal[found.value].amount, date);
    }
  }

  /** Deposit `i` is paid, its amount is in capital, and nothing else has changed. */
  ghost predicate HasPaidDeposit(now: State, was: State, i: nat, date: int)
    requires i < |was.deposits.principal|
  {
    var x := was.deposits.principal[i];
    && now.deposits == was.deposits.(principal := was.deposits.principal[i := x.(paid := true)])
    && BringsIn(now.books, was.books, PrincipalDeposit(x.user), x.amount, date)
    && now.lending == was.lending && now.categories == was.categories
  }

  predicate HasPaid(x: PrincipalSaving, user: nat) { x.user == user && x.paid }

  predicate OwesDeposit(x: PrincipalSaving, user: nat) { x.user == user && !x.paid && x.amount > 0 }

  lemma PayDepositKeepsInv(s: State, user: nat, date: int)
    requires SystemInv(s) && DepositSettled(s, user, date).Success?
    ensures SystemInv(DepositSettled(s, user, date).value)
  {
    var id := FindDeposit(s.deposits.principal, user, |s.deposits.principal|).value;
    var deposit := s.deposits.principal[id];
    EarnedOutcome(s.books, PrincipalDeposit(user), deposit.amount, date);
    SumUpdate(s.deposits.principal, id, deposit.(paid := true), PaidDeposit());
    OtherIncomeKeepsPostings(s.books.incomes, Income(PrincipalDeposit(user), deposit.amount, Capital), s.lending);
  }

  lemma AskDepositKeepsInv(s: State, user: nat, activeMembers: nat, minimum: real)
    requires SystemInv(s) && DepositAsked(s, user, activeMembers, minimum).Success?
    ensures SystemInv(DepositAsked(s, user, activeMembers, minimum).value)
  {
    var amount := DepositAmount(s.books.balances.total, activeMembers, minimum);
    SumAppend(s.deposits.principal, PrincipalSaving(user, amount, false), PaidDeposit());
  }

  lemma GenerateKeepsInv(s: State, users: seq<nat>, configured: real, year: int, startMonth: nat)
    requires SystemInv(s)
    ensures SystemInv(Generated(s, users, configured, year, startMonth))
  {
    var amount, table := MandatoryAmount(configured), s.deposits.mandatory;
    var records := Batch(users, amount, year, startMonth);
    BatchCoversTheYear(users, amount, year, startMonth);
    InsertAllOnlyAdds(table, records);
    NewRowsAreUnpaid(table, InsertAll(table, records), records);
  }

  lemma NewRowsAreUnpaid(was: seq<Saving>, now: seq<Saving>, records: seq<Saving>)
    requires was <= now
    requires forall i :: |was| <= i < |now| ==> now[i] in records
    requires forall r :: r in records ==> !r.paid
    ensures Sum(now, PaidSaving()) == Sum(was, PaidSaving())
  {
    SumToPointwise(now, was, PaidSaving(), PaidSaving(), 0, |was|);
    SumTail(now, PaidSaving(), |was|, |now|);
  }

  // ----- expenses

  lemma PostExpenseKeepsInv(s: State, category: nat, amount: int, source: Option<Source>, date: int)
    requires SystemInv(s) && Posted(s.books, s.categories, category, amount, source, date).Success?
    ensures SystemInv(s.(books := Posted(s.books, s.categories, category, amount, source, date).value))
  {
    CreatedKeepsInvariant(s.books, s.categories, category, amount, source, date);
    var now := Posted(s.books, s.categories, category, amount, source, date).value;
    SumAppend(s.books.expenses, now.expenses[|s.books.expenses|], SpentCapital());
    SumAppend(s.books.expenses, now.expenses[|s.books.expenses|], SpentShu());
  }

  lemma EditExpenseKeepsInv(s: State, id: nat, change: ExpenseChange)
    requires SystemInv(s) && Updated(s.books, s.categories, id, change).Success?
    ensures SystemInv(s.(books := Updated(s.books, s.categories, id, change).value))
  {
    UpdatedOutcome(s.books, s.categories, id, change,
                   EffectiveSource(change, s.books.expenses[id].value, s.categories));
    var now := Updated(s.books, s.categories, id, change).value;
    SumUpdate(s.books.expenses, id, now.expenses[id], SpentCapital());
    SumUpdate(s.books.expenses, id, now.expenses[id], SpentShu());
  }

  lemma DropExpenseKeepsInv(s: State, id: nat)
    requires SystemInv(s) && Deleted(s.books, id).Success?
    ensures SystemInv(s.(books := Deleted(s.books, id).value))
  {
    DeletedOutcome(s.books, id);
    SumUpdate(s.books.expenses, id, None, SpentCapital());
    SumUpdate(s.books.expenses, id, None, SpentShu());
  }

  // ----- the loan limit

  lemma {:induction false} CountOpenIsSum(loans: seq<Loan>, user: nat, except: nat, n: nat)
    requires n <= |loans|
    ensures CountOpen(loans, user, except, n) ==
            SumTo(loans, OpenOf(user), n) - (if except < n then OpenOf(user)(loans[except]) else 0)
  {
    if n > 0 {
      CountOpenIsSum(loans, user, except, n - 1);
    }
  }

  /** The limit trigger never stands in the way of a loan that is already open. */
  lemma OpenLoansPassTheLimit(loans: seq<Loan>, l: nat, row: Loan)
    requires WithinLimit(loans) && l < |loans|
    requires loans[l].status.Open() && row.user == loans[l].user
    ensures !LimitRefuses(loans, l, row)
  {
    CountOpenIsSum(loans, row.user, l, |loans|);
  }

  /** A decision goes through exactly for a pending loan, and changes its status alone. */
  lemma DecisionOutcome(s: State, l: nat, verdict: LoanStatus)
    requires LendingInv(s.lending) && (verdict == Approved || verdict == Rejected)
    ensures Decided(s, l, verdict).Success? <==>
            l < |s.lending.loans| && s.lending.loans[l].status == Pending
    ensures Decided(s, l, verdict).Failure? ==>
              Decided(s, l, verdict).error == if l < |s.lending.loans| then WrongStatus else NotFound
    ensures Decided(s, l, verdict).Success? ==>
              var decided := s.lending.loans[l := s.lending.loans[l].(status := verdict)];
              Decided(s, l, verdict).value == s.(lending := s.lending.(loans := decided))
  {
    if l < |s.lending.loans| && s.lending.loans[l].status == Pending {
      OpenLoansPassTheLimit(s.lending.loans, l, s.lending.loans[l].(status := verdict));
    }
  }

  /** The read goes through exactly for an approved loan, and keeps it as it is for the transaction that follows. */
  lemma ReadOutcome(s: State, l: nat)
    ensures ReadForDisbursement(s, l).Success? <==>
            && l < |s.lending.loans| && s.lending.loans[l].status == Approved
            && LOAN_DISBURSEMENT in s.categories
    ensures ReadForDisbursement(s, l) == Failure(NotFound) <==> l >= |s.lending.loans|
    ensures ReadForDisbursement(s, l) == Failure(WrongStatus) <==>
            l < |s.lending.loans| && s.lending.loans[l].status != Approved
    ensures ReadForDisbursement(s, l).Success? ==>
              var readers := s.lending.readers + [(l, s.lending.loans[l])];
              ReadForDisbursement(s, l).value == s.(lending := s.lending.(readers := readers))
  {
  }

  lemma RewritingKeepsLimit(loans: seq<Loan>, l: nat, row: Loan)
    requires WithinLimit(loans) && l < |loans|
    requires row.user == loans[l].user && (row.status.Open() ==> loans[l].status.Open())
    ensures WithinLimit(loans[l := row])
  {
    forall user: nat
      ensures Sum(loans[l := row], OpenOf(user)) <= 3
    {
      SumUpdate(loans, l, row, OpenOf(user));
    }
  }

  lemma AppendingKeepsLimit(loans: seq<Loan>, row: Loan)
    requires WithinLimit(loans) && row.status.Open() && !LimitRefuses(loans, |loans|, row)
    ensures WithinLimit(loans + [row])
  {
    forall user: nat
      ensures Sum(loans + [row], OpenOf(user)) <= 3
    {
      SumAppend(loans, row, OpenOf(user));
      CountOpenIsSum(loans, user, |loans|, |loans|);
    }
  }

  /** The loans and the one just appended for `user`: the member has one open loan more, and nobody else has. */
  ghost predicate OneMoreOpen(now: seq<Loan>, was: seq<Loan>, user: nat) {
    forall other: nat :: Sum(now, OpenOf(other)) == Sum(was, OpenOf(other)) + (if other == user then 1 else 0)
  }

  lemma AppendingOpens(loans: seq<Loan>, row: Loan)
    requires row.status == Pending
    ensures OneMoreOpen(loans + [row], loans, row.user)
  {
    forall other: nat
      ensures Sum(loans + [row], OpenOf(other)) == Sum(loans, OpenOf(other)) + (if other == row.user then 1 else 0)
    {
      SumAppend(loans, row, OpenOf(other));
    }
  }

  /** The state with an application of the member's appended, for the fee and the monthly interest of its amount, and
      no installments yet. */
  ghost predicate HasApplied(now: State, was: State, user: nat, amount: real, period: Period, interest: real,
                             fee: real)
  {
    var loans := now.lending.loans;
    && |loans| == |was.lending.loans| + 1
    && IsApplication(loans[|was.lending.loans|], user, amount, period, interest, fee)
    && loans == was.lending.loans + [loans[|was.lending.loans|]]
    && now == was.(lending := was.lending.(loans := loans, installments := was.lending.installments + [[]]))
    && OneMoreOpen(loans, was.lending.loans, user)
  }

  lemma ApplyingAppends(s: State, loan: Loan, user: nat, amount: real, period: Period, interest: real, fee: real)
    requires IsApplication(loan, user, amount, period, interest, fee)
    ensures HasApplied(s.(lending := s.lending.(loans := s.lending.loans + [loan],
                                                installments := s.lending.installments + [[]])),
                       s, user, amount, period, interest, fee)
  {
    AppendingOpens(s.lending.loans, loan);
  }

  /** A request goes through exactly for a positive amount, a known period, and a member with fewer than three open
      loans; it appends the member's application, and changes nothing else. */
  lemma RequestOutcome(s: State, user: nat, amount: real, period: Option<Period>, feeRate: real)
    ensures Requested(s, user, amount, period, feeRate).Success? <==>
            amount > 0.0 && period.Some? && Sum(s.lending.loans, OpenOf(user)) < 3
    ensures Requested(s, user, amount, period, feeRate) == Failure(InvalidAmount) <==> amount <= 0.0
    ensures Requested(s, user, amount, period, feeRate) == Failure(NotFound) <==> amount > 0.0 && period.None?
    ensures Requested(s, user, amount, period, feeRate) == Failure(TooManyLoans) <==>
            amount > 0.0 && period.Some? && Sum(s.lending.loans, OpenOf(user)) >= 3
    ensures Requested(s, user, amount, period, feeRate).Success? ==>
              HasApplied(Requested(s, user, amount, period, feeRate).value, s, user, amount, period.value,
                         amount * (period.value.rate as real / 10000.0), amount * feeRate)
  {
    CountOpenIsSum(s.lending.loans, user, |s.lending.loans|, |s.lending.loans|);
    if amount > 0.0 && period.Some? {
      var interest, fee := amount * (period.value.rate as real / 10000.0), amount * feeRate;
      NewLoanIsApplication(user, amount, period.value, feeRate, interest, fee);
      ApplyingAppends(s, NewLoan(user, amount, period.value, feeRate), user, amount, period.value, interest, fee);
    }
  }

  // ----- loan steps

  lemma RequestKeepsInv(s: State, user: nat, amount: real, period: Option<Period>, feeRate: real)
    requires SystemInv(s) && Requested(s, user, amount, period, feeRate).Success?
    ensures SystemInv(Requested(s, user, amount, period, feeRate).value)
  {
    NewLoanIsPriced(user, amount, period.value, feeRate);
    NewLoanIsPending(s, NewLoan(user, amount, period.value, feeRate));
  }

  lemma NewLoanIsPending(s: State, loan: Loan)
    requires SystemInv(s) && Priced(loan) && loan.status == Pending && loan.disbursedOn.None?
    requires !LimitRefuses(s.lending.loans, |s.lending.loans|, loan)
    ensures SystemInv(s.(lending := s.lending.(loans := s.lending.loans + [loan],
                                               installments := s.lending.installments + [[]])))
  {
    var b := s.lending;
    var now := b.(loans := b.loans + [loan], installments := b.installments + [[]]);
    AppendingKeepsLimit(b.loans, loan);
    SumAppend(b.loans, loan, ActiveFee());
    SumAppend(b.installments, [], PlanCapital());
    SumAppend(b.installments, [], PlanShu());
    forall k | 0 <= k < |now.readers|
      ensures ReaderSound(now, now.readers[k])
    {
      assert ReaderSound(b, b.readers[k]);
    }
    forall l: nat
      ensures PostedFor(s.books.incomes, now, l)
    {
      assert PostedFor(s.books.incomes, b, l);
      assert PlanAt(now, l) == PlanAt(b, l);
    }
  }

  lemma DecideKeepsInv(s: State, l: nat, verdict: LoanStatus)
    requires SystemInv(s) && Decided(s, l, verdict).Success?
    requires verdict == Approved || verdict == Rejected
    ensures SystemInv(Decided(s, l, verdict).value)
  {
    var b, now := s.lending, Decided(s, l, verdict).value.lending;
    DecisionOutcome(s, l, verdict);
    SumUpdate(b.loans, l, b.loans[l].(status := verdict), ActiveFee());
    DecisionKeepsLending(b, now, l, verdict);
    forall i: nat
      ensures PostedFor(s.books.incomes, now, i)
    {
      assert PostedFor(s.books.incomes, b, i);
    }
  }

  lemma DecisionKeepsLending(b: Lending, now: Lending, l: nat, verdict: LoanStatus)
    requires LendingInv(b) && l < |b.loans| && b.loans[l].status == Pending
    requires verdict == Approved || verdict == Rejected
    requires now == b.(loans := b.loans[l := b.loans[l].(status := verdict)])
    ensures LendingInv(now)
  {
    assert LoanSound(b.loans[l], b.installments[l]);
    RewritingKeepsLimit(b.loans, l, b.loans[l].(status := verdict));
    forall k | 0 <= k < |now.readers|
      ensures ReaderSound(now, now.readers[k])
    {
      assert ReaderSound(b, b.readers[k]);
    }
  }

  lemma ReadKeepsInv(s: State, l: nat)
    requires SystemInv(s) && ReadForDisbursement(s, l).Success?
    ensures SystemInv(ReadForDisbursement(s, l).value)
  {
    var b, now := s.lending, ReadForDisbursement(s, l).value.lending;
    assert LoanSound(b.loans[l], b.installments[l]);
    forall k | 0 <= k < |now.readers|
      ensures ReaderSound(now, now.readers[k])
    {
      assert k < |b.readers| ==> ReaderSound(b, b.readers[k]);
    }
    forall i: nat
      ensures PostedFor(s.books.incomes, now, i)
    {
      assert PostedFor(s.books.incomes, b, i);
    }
  }

  // ----- disbursement

  /** A loan's batch of installments clashes exactly with an earlier batch of the same loan. */
  lemma SecondBatchClashes(s: State, k: nat, today: Date)
    requires LendingInv(s.lending) && k < |s.lending.readers|
    ensures var (l, loan) := s.lending.readers[k];
            HasLoan(s.lending, l) &&
            (Clashes(s.lending.installments[l], Schedule(loan, today)) <==> s.lending.loans[l].status == Active)
  {
    var (l, loan) := s.lending.readers[k];
    assert ReaderSound(s.lending, s.lending.readers[k]);
    assert LoanSound(s.lending.loans[l], s.lending.installments[l]);
    if s.lending.loans[l].status == Active {
      AsGenerated(s.lending.loans[l], s.lending.installments[l], 0);
      assert Schedule(loan, today)[0].number == 1;
    }
  }

  /** A stale check is harmless: whoever read the loan as approved, and whenever, the transaction commits only
      while the loan has not been disbursed, and only if capital and the fee allow it. */
  lemma DisbursementOutcome(s: State, k: nat, today: Day, date: int)
    requires SystemInv(s) && k < |s.lending.readers|
    ensures var (l, loan) := s.lending.readers[k];
            Disbursed(s, k, today, date).Success? <==>
              && s.lending.loans[l].status == Approved
              && LOAN_DISBURSEMENT in s.categories
              && 0 < loan.disbursed <= s.books.balances.capital
              && loan.adminFee > 0
  {
    var (l, loan) := s.lending.readers[k];
    assert ReaderSound(s.lending, s.lending.readers[k]);
    SecondBatchClashes(s, k, today);
    OpenLoansPassTheLimit(s.lending.loans, l, s.lending.loans[l].(status := Active, disbursedOn := Some(today)));
    PaidOutOutcome(s.books, s.categories, l, loan, date);
  }

  /** Whoever comes second is stopped by the unique key. */
  lemma SecondDisbursementClashes(s: State, k: nat, today: Day, date: int)
    requires SystemInv(s) && k < |s.lending.readers|
    requires s.lending.readers[k].0 < |s.lending.loans| && s.lending.loans[s.lending.readers[k].0].status == Active
    ensures Disbursed(s, k, today, date) == Failure(UniqueViolation)
  {
    var l := s.lending.readers[k].0;
    SecondBatchClashes(s, k, today);
    OpenLoansPassTheLimit(s.lending.loans, l, s.lending.loans[l].(status := Active, disbursedOn := Some(today)));
  }

  lemma SpentOutcome(b: Books, categories: map<nat, Source>, amount: int, date: int)
    requires LedgerInv(b)
    ensures var spent := Created(b, categories, LOAN_DISBURSEMENT, amount, Some(FromCapital), date);
            && (spent.Success? <==> LOAN_DISBURSEMENT in categories && 0 < amount <= b.balances.capital)
            && (spent.Success? ==>
                  && LedgerInv(spent.value)
                  && spent.value.incomes == b.incomes
                  && spent.value.expenses == b.expenses + [Some(Expense(LOAN_DISBURSEMENT, Amounts(0, amount),
                                                                        Some(FromCapital), date))]
                  && spent.value.balances == b.balances.Plus(Amounts(0, -amount)))
  {
    if LOAN_DISBURSEMENT in categories && amount > 0 {
      CreatedOutcome(b, categories, LOAN_DISBURSEMENT, amount, Some(FromCapital), date);
    }
    if Created(b, categories, LOAN_DISBURSEMENT, amount, Some(FromCapital), date).Success? {
      CreatedKeepsInvariant(b, categories, LOAN_DISBURSEMENT, amount, Some(FromCapital), date);
    }
  }

  lemma PaidOutOutcome(b: Books, categories: map<nat, Source>, l: nat, loan: Loan, date: int)
    requires LedgerInv(b)
    ensures PaidOut(b, categories, l, loan, date).Success? <==>
              LOAN_DISBURSEMENT in categories && 0 < loan.disbursed <= b.balances.capital && loan.adminFee > 0
    ensures PaidOut(b, categories, l, loan, date).Success? ==>
              var now := PaidOut(b, categories, l, loan, date).value;
              && LedgerInv(now)
              && now.incomes == b.incomes + [Some(Income(AdminFee(l), loan.adminFee, Shu))]
              && now.expenses == b.expenses + [Some(Expense(LOAN_DISBURSEMENT, Amounts(0, loan.disbursed),
                                                           Some(FromCapital), date))]
              && now.balances == b.balances.Plus(Amounts(loan.adminFee, -loan.disbursed))
  {
    var spent := Created(b, categories, LOAN_DISBURSEMENT, loan.disbursed, Some(FromCapital), date);
    SpentOutcome(b, categories, loan.disbursed, date);
    if spent.Success? {
      EarnedOutcome(spent.value, AdminFee(l), loan.adminFee, date);
    }
  }

  /** What a committed disbursement leaves: the loan active with its one schedule, and its two postings. */
  lemma DisbursedShape(s: State, k: nat, today: Day, date: int)
    requires SystemInv(s) && Disbursed(s, k, today, date).Success?
    ensures var (l, loan) := s.lending.readers[k];
            var now := Disbursed(s, k, today, date).value;
            && IsApproved(s.lending, l) && loan == s.lending.loans[l]
            && now.lending == WithSchedule(s.lending, l, today)
            && now.deposits == s.deposits
            && PaidOut(s.books, s.categories, l, loan, date) == Success(now.books)
  {
    var (l, loan) := s.lending.readers[k];
    assert ReaderSound(s.lending, s.lending.readers[k]);
    DisbursementOutcome(s, k, today, date);
    assert LoanSound(s.lending.loans[l], s.lending.installments[l]);
    assert [] + Schedule(loan, today) == Schedule(loan, today);
  }

  predicate IsApproved(b: Lending, l: nat) { HasLoan(b, l) && b.loans[l].status == Approved }

  function WithSchedule(b: Lending, l: nat, today: Date): Lending
    requires HasLoan(b, l)
  {
    b.(loans := b.loans[l := b.loans[l].(status := Active, disbursedOn := Some(today))],
       installments := b.installments[l := Schedule(b.loans[l], today)])
  }

  lemma ScheduleKeepsLending(b: Lending, l: nat, today: Day)
    requires LendingInv(b) && IsApproved(b, l)
    ensures LendingInv(WithSchedule(b, l, today))
  {
    var now := WithSchedule(b, l, today);
    var active := now.loans[l];
    assert LoanSound(b.loans[l], b.installments[l]);
    assert LoanSound(active, now.installments[l]) by {
      SameSchedule(b.loans[l], active, today);
      ScheduleIsSound(active);
    }
    RewritingKeepsLimit(b.loans, l, active);
    forall i | 0 <= i < |now.loans|
      ensures LoanSound(now.loans[i], now.installments[i])
    {
      assert LoanSound(b.loans[i], b.installments[i]);
    }
    forall i | 0 <= i < |now.readers|
      ensures ReaderSound(now, now.readers[i])
    {
      assert ReaderSound(b, b.readers[i]);
    }
  }

  lemma SameSchedule(a: Loan, b: Loan, today: Date)
    requires b == a.(status := b.status, disbursedOn := b.disbursedOn)
    ensures Schedule(a, today) == Schedule(b, today)
  {
  }

  lemma NothingPaidYet(loan: Loan, today: Date)
    ensures SumAmounts(Schedule(loan, today), PaidPart) == ZERO
  {
    var plan := Schedule(loan, today);
    forall i | 0 <= i < |plan|
      ensures PaidPart(plan[i]) == ZERO
    {
      assert plan[i].status == Due;
    }
    SumAmountsAllZero(plan, PaidPart);
  }

  lemma NoPlanNoPart()
    ensures SumAmounts([], PaidPart) == ZERO
  {
  }

  lemma DisburseReconciles(s: State, l: nat, today: Day, books: Books, date: int)
    requires SystemInv(s) && IsApproved(s.lending, l)
    requires PaidOut(s.books, s.categories, l, s.lending.loans[l], date) == Success(books)
    ensures Reconciled(s.(books := books, lending := WithSchedule(s.lending, l, today)))
  {
    var b, loan := s.lending, s.lending.loans[l];
    assert LoanSound(loan, b.installments[l]);
    PaidOutOutcome(s.books, s.categories, l, loan, date);
    NothingPaidYet(loan, today);
    NoPlanNoPart();
    SumUpdate(b.loans, l, WithSchedule(b, l, today).loans[l], ActiveFee());
    SumUpdate(b.installments, l, Schedule(loan, today), PlanCapital());
    SumUpdate(b.installments, l, Schedule(loan, today), PlanShu());
    SumAppend(s.books.expenses, books.expenses[|s.books.expenses|], SpentCapital());
    SumAppend(s.books.expenses, books.expenses[|s.books.expenses|], SpentShu());
  }

  lemma ScheduleKeepsParts(b: Lending, l: nat, today: Date, i: nat)
    requires LendingInv(b) && IsApproved(b, l)
    ensures SumAmounts(PlanAt(WithSchedule(b, l, today), i), PaidPart) == SumAmounts(PlanAt(b, i), PaidPart)
    ensures IsActive(WithSchedule(b, l, today), i) <==> IsActive(b, i) || i == l
  {
    if i == l {
      assert LoanSound(b.loans[l], b.installments[l]);
      NothingPaidYet(b.loans[l], today);
      NoPlanNoPart();
    }
  }

  lemma DisbursePosts(incomes: seq<Option<Income>>, b: Lending, l: nat, today: Day, fee: Income)
    requires AllPosted(incomes, b) && LendingInv(b) && IsApproved(b, l) && fee.origin == AdminFee(l)
    ensures AllPosted(incomes + [Some(fee)], WithSchedule(b, l, today))
  {
    forall i: nat
      ensures IsActive(WithSchedule(b, l, today), i) <==> IsActive(b, i) || i == l
      ensures SumAmounts(PlanAt(WithSchedule(b, l, today), i), PaidPart) == SumAmounts(PlanAt(b, i), PaidPart)
    {
      ScheduleKeepsParts(b, l, today, i);
    }
    DisbursalPostings(incomes, b, WithSchedule(b, l, today), l, fee);
  }

  lemma DisburseKeepsInv(s: State, k: nat, today: Day, date: int)
    requires SystemInv(s) && Disbursed(s, k, today, date).Success?
    ensures SystemInv(Disbursed(s, k, today, date).value)
  {
    var (l, loan) := s.lending.readers[k];
    var now := Disbursed(s, k, today, date).value;
    DisbursedShape(s, k, today, date);
    PaidOutOutcome(s.books, s.categories, l, loan, date);
    ScheduleKeepsLending(s.lending, l, today);
    DisburseReconciles(s, l, today, now.books, date);
    DisbursePosts(s.books.incomes, s.lending, l, today, Income(AdminFee(l), loan.adminFee, Shu));
  }

  lemma DisbursalPostings(incomes: seq<Option<Income>>, was: Lending, now: Lending, l: nat, fee: Income)
    requires AllPosted(incomes, was) && fee.origin == AdminFee(l)
    requires l < |was.loans| && was.loans[l].status != Active
    requires IsActive(now, l) && forall i: nat :: i != l ==> IsActive(now, i) == IsActive(was, i)
    requires forall i: nat :: SumAmounts(PlanAt(now, i), PaidPart) == SumAmounts(PlanAt(was, i), PaidPart)
    ensures AllPosted(incomes + [Some(fee)], now)
  {
    forall i: nat
      ensures PostedFor(incomes + [Some(fee)], now, i)
    {
      assert PostedFor(incomes, was, i);
      SumAppend(incomes, Some(fee), ShuOf(Repayment(i)));
      SumAppend(incomes, Some(fee), CapitalOf(Repayment(i)));
      SumAppend(incomes, Some(fee), FeeCount(i));
    }
  }
}
