/** The tables. A row's id is its index in its table; ids are never reused, so a deleted row leaves `None`. */
module Schema {
  import opened Basics

  // ----- cashbook

  datatype Direction = In | Out {
    function Opposite(): Direction { if In? then Out else In }
  }

  /** The income or expense a cashbook row is linked to through its foreign key. */
  datatype Owner = IncomeOwner(id: nat) | ExpenseOwner(id: nat) {
    /** The direction of the owner's ordinary (non-reversal) rows. */
    function Natural(): Direction { if IncomeOwner? then In else Out }
  }

  function Signed(direction: Direction, parts: Amounts): Amounts {
    if direction.In? then parts else Amounts(-parts.shu, -parts.capital)
  }

  /** A row of `cashbook_transactions`. Rows are kept in `created_at` order. */
  datatype Row = Row(
    txnDate: int,
    direction: Direction,
    parts: Amounts,
    before: Balances,
    after: Balances,
    owner: Option<Owner>,
    isReversal: bool,
    reversalOf: Option<nat>,
    deleted: bool)
  {
    function Effect(): Amounts { Signed(direction, parts) }

    /** The history filter: `deleted_at IS NULL AND is_reversal = false`. */
    predicate Visible() { !deleted && !isReversal }

    predicate ActiveEntryOf(o: Owner) { owner == Some(o) && Visible() }
  }

  // ----- incomes and expenses

  datatype Bucket = Shu | Capital

  function Into(bucket: Bucket, amount: int): Amounts {
    if bucket.Shu? then Amounts(amount, 0) else Amounts(0, amount)
  }

  /** What an income was recorded for: the foreign key and category of an `incomes` row. */
  datatype Origin =
    | PrincipalDeposit(user: nat)
    | MandatorySaving(saving: nat)
    | AdminFee(loan: nat)
    | InstallmentPrincipal(loan: nat, number: nat)
    | InstallmentInterest(loan: nat, number: nat)
    | InstallmentPenalty(loan: nat, number: nat)
  {
    /** The bucket every caller books this kind of income to. */
    function Destination(): Bucket {
      if PrincipalDeposit? || MandatorySaving? || InstallmentPrincipal? then Capital else Shu
    }
  }

  datatype Income = Income(origin: Origin, amount: int, bucket: Bucket) {
    function Parts(): Amounts { Into(bucket, amount) }
  }

  datatype Source = FromAuto | FromTotal | FromCapital | FromShu

  datatype Expense = Expense(category: nat, parts: Amounts, source: Option<Source>, txnDate: int)

  // ----- lending

  /** A calendar date: months counted from year 0, day of the month from 1. */
  datatype Date = Date(month: nat, day: nat) {
    predicate NotAfter(other: Date) { month < other.month || (month == other.month && day <= other.day) }
  }

  datatype LoanStatus = Pending | Approved | Rejected | Active | Completed {
    predicate Open() { Pending? || Approved? || Active? }
  }

  /** A row of `loan_periods`; the rate is in units of 0.0001. */
  datatype LoanPeriod = LoanPeriod(tenor: nat, rate: nat)

  type Period = p: LoanPeriod | p.tenor > 0 witness LoanPeriod(1, 0)

  /** A row of `loans` with its period. `requested` is history: the amount asked for, in rupiah, from which every
      column was computed before `principal` was stored. */
  datatype Loan = Loan(
    user: nat,
    period: Period,
    principal: int,
    adminFee: int,
    disbursed: int,
    interest: int,
    monthlyPayment: int,
    lastMonthPayment: int,
    totalPayable: int,
    disbursedOn: Option<Date>,
    status: LoanStatus,
    requested: real)

  datatype InstallmentStatus = Due | Overdue | Paid | Partial

  /** A row of `installments`. `everOverdue` is history: it records that a monthly run once marked the row. */
  datatype Installment = Installment(
    number: nat,
    dueDate: Date,
    principal: int,
    interest: int,
    penalty: int,
    total: int,
    status: InstallmentStatus,
    everOverdue: bool)

  // ----- savings

  datatype PrincipalSaving = PrincipalSaving(user: nat, amount: int, paid: bool)

  /** A row of `mandatory_savings`; the period is the first day of `month` (0 to 11) of `year`. */
  datatype Saving = Saving(user: nat, year: int, month: nat, amount: int, paid: bool) {
    function Key(): (nat, int, nat) { (user, year, month) }
  }

  // ----- the database

  datatype Books = Books(
    balances: Balances,
    rows: seq<Row>,
    incomes: seq<Option<Income>>,
    expenses: seq<Option<Expense>>)

  /** `installments[l]` holds the rows of loan `l` in `installment_number` order.
      `readers` holds the loans read by disbursements that have not yet started their transaction. */
  datatype Lending = Lending(
    loans: seq<Loan>,
    installments: seq<seq<Installment>>,
    readers: seq<(nat, Loan)>)

  datatype Deposits = Deposits(principal: seq<PrincipalSaving>, mandatory: seq<Saving>)

  /** `categories` maps each expense category to its default source. */
  datatype State = State(books: Books, lending: Lending, deposits: Deposits, categories: map<nat, Source>)

  /** The expense category seeded under the code `loan_disbursement`. */
  const LOAN_DISBURSEMENT: nat := 0

  class Database {
    var balances: Balances
    var rows: seq<Row>
    var incomes: seq<Option<Income>>
    var expenses: seq<Option<Expense>>
    var loans: seq<Loan>
    var installments: seq<seq<Installment>>
    var readers: seq<(nat, Loan)>
    var principal: seq<PrincipalSaving>
    var mandatory: seq<Saving>
    const categories: map<nat, Source>

    constructor (categories: map<nat, Source>)
      ensures View() == EmptyState(categories)
    {
      this.categories := categories;
      balances := OPENING;
      rows, incomes, expenses := [], [], [];
      loans, installments, readers := [], [], [];
      principal, mandatory := [], [];
    }

    function Cashbook(): Books
      reads this
    {
      Books(balances, rows, incomes, expenses)
    }

    function View(): State
      reads this
    {
      State(Cashbook(), Lending(loans, installments, readers), Deposits(principal, mandatory), categories)
    }

    /** ROLLBACK: every table gets back the contents it had when the transaction began. */
    method Rollback(saved: State)
      requires saved.categories == categories
      modifies this
      ensures View() == saved
    {
      balances, rows := saved.books.balances, saved.books.rows;
      incomes, expenses := saved.books.incomes, saved.books.expenses;
      loans, installments, readers := saved.lending.loans, saved.lending.installments, saved.lending.readers;
      principal, mandatory := saved.deposits.principal, saved.deposits.mandatory;
    }
  }

  function EmptyState(categories: map<nat, Source>): State {
    State(Books(OPENING, [], [], []), Lending([], [], []), Deposits([], []), categories)
  }

  /** A step on the books alone, as a step on the whole state. */
  function OnBooks(s: State, books: Result<Books>): Result<State> {
    if books.Success? then Success(s.(books := books.value)) else Failure(books.error)
  }

  /** A step inside a transaction did what `spec` says; after a failure the caller rolls back. */
  ghost predicate Follows<T, S>(r: Result<T>, view: S, spec: Result<S>) {
    match spec
    case Success(s) => r.Success? && view == s
    case Failure(e) => r == Failure(e)
  }

  /** A whole transaction did what `spec` says, or left everything as it was. */
  ghost predicate Commits<T, S>(r: Result<T>, was: S, view: S, spec: Result<S>) {
    match spec
    case Success(s) => r.Success? && view == s
    case Failure(e) => r == Failure(e) && view == was
  }
}
