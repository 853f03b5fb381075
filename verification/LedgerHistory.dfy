/** Whole runs of the ledger: every sequence of creates, updates and deletes, on incomes and expenses. */
module LedgerHistory {
  import opened Basics
  import opened Schema
  import opened CashbookTriggers
  import opened CashbookLedger
  import opened Expenses
  import opened Incomes

  datatype LedgerStep =
    | PostIncome(origin: Origin, amount: int, date: int)
    | EditIncome(id: nat, amount: int, bucket: Bucket, newDate: Option<int>)
    | DropIncome(id: nat)
    | PostExpense(category: nat, amount: int, source: Option<Source>, date: int)
    | EditExpense(id: nat, change: ExpenseChange)
    | DropExpense(id: nat)
  {
    predicate Drops() { DropIncome? || DropExpense? }
  }

  ghost function Take(b: Books, categories: map<nat, Source>, step: LedgerStep): Result<Books> {
    match step
    case PostIncome(origin, amount, date) => Earned(b, origin, amount, date)
    case EditIncome(id, amount, bucket, newDate) => Reearned(b, id, amount, bucket, newDate)
    case DropIncome(id) => Unearned(b, id)
    case PostExpense(category, amount, source, date) => Posted(b, categories, category, amount, source, date)
    case EditExpense(id, change) => Updated(b, categories, id, change)
    case DropExpense(id) => Deleted(b, id)
  }

  /** A refused step is rolled back. */
  ghost function After(b: Books, categories: map<nat, Source>, step: LedgerStep): Books {
    var r := Take(b, categories, step);
    if r.Success? then r.value else b
  }

  ghost function Run(categories: map<nat, Source>, steps: seq<LedgerStep>): Books {
    if steps == [] then EmptyState(categories).books
    else After(Run(categories, steps[..|steps| - 1]), categories, steps[|steps| - 1])
  }

  lemma StepKeepsLedger(b: Books, categories: map<nat, Source>, step: LedgerStep)
    requires LedgerInv(b)
    ensures LedgerInv(After(b, categories, step))
  {
    if Take(b, categories, step).Success? {
      match step
      case PostIncome(origin, amount, date) => EarnedOutcome(b, origin, amount, date);
      case EditIncome(id, amount, bucket, newDate) => ReearnedOutcome(b, id, amount, bucket, newDate);
      case DropIncome(id) => UnearnedOutcome(b, id);
      case PostExpense(category, amount, source, date) =>
        CreatedKeepsInvariant(b, categories, category, amount, source, date);
      case EditExpense(id, change) =>
        UpdatedOutcome(b, categories, id, change, EffectiveSource(change, b.expenses[id].value, categories));
      case DropExpense(id) => DeletedOutcome(b, id);
    }
  }

  /** After every run the balances agree with the linked rows and with the visible rows, every live income
      and expense has exactly one active entry equal to its current amounts, and reversals pair off. */
  lemma {:induction false} EveryRunKeepsLedger(categories: map<nat, Source>, steps: seq<LedgerStep>)
    ensures LedgerInv(Run(categories, steps))
  {
    if steps == [] {
      EmptyLedger(categories);
    } else {
      EveryRunKeepsLedger(categories, steps[..|steps| - 1]);
      StepKeepsLedger(Run(categories, steps[..|steps| - 1]), categories, steps[|steps| - 1]);
    }
  }

  lemma EmptyLedger(categories: map<nat, Source>)
    ensures LedgerInv(EmptyState(categories).books)
  {
  }

  // ----- dates

  /** The expense's active entry has its date. */
  ghost predicate EntryDated(b: Books, e: nat)
    requires IsLive(b, e)
  {
    var k := FindLatestActive(b.rows, ExpenseOwner(e));
    k.Some? && b.rows[k.value].txnDate == b.expenses[e].value.txnDate
  }

  ghost predicate AllDated(b: Books) { forall e: nat :: IsLive(b, e) ==> EntryDated(b, e) }

  /** Steps on one document leave the entries of every other. */
  lemma OtherEntriesStayDated(was: Books, now: Books, o: Owner, e: nat)
    requires AllBooked(was) && AllBooked(now) && TouchesOnly(was.rows, now.rows, o)
    requires o != ExpenseOwner(e) && IsLive(was, e) && IsLive(now, e) && EntryDated(was, e)
    requires now.expenses[e] == was.expenses[e]
    ensures EntryDated(now, e)
  {
    assert Current(was, ExpenseOwner(e)).Some? && Current(now, ExpenseOwner(e)).Some?;
    var k := FindLatestActive(was.rows, ExpenseOwner(e)).value;
    assert now.rows[k].ActiveEntryOf(ExpenseOwner(e));
  }

  lemma AllStayDated(was: Books, now: Books, o: Owner)
    requires AllBooked(was) && AllBooked(now) && TouchesOnly(was.rows, now.rows, o) && AllDated(was)
    requires forall e: nat :: IsLive(now, e) && o != ExpenseOwner(e) ==>
               IsLive(was, e) && now.expenses[e] == was.expenses[e]
    requires forall e: nat :: IsLive(now, e) && o == ExpenseOwner(e) ==> EntryDated(now, e)
    ensures AllDated(now)
  {
    forall e: nat | IsLive(now, e) && o != ExpenseOwner(e)
      ensures EntryDated(now, e)
    {
      OtherEntriesStayDated(was, now, o, e);
    }
  }

  lemma RecordTouches(b: Books, o: Owner, parts: Amounts, date: int)
    requires Record(b, o, parts, date).Success?
    ensures TouchesOnly(b.rows, Record(b, o, parts, date).value.rows, o)
  {
    RecordWritesRow(b, o, parts, date);
  }

  lemma RebookTouches(b: Books, o: Owner, parts: Amounts, date: Option<int>)
    requires Rebook(b, o, parts, date).Success?
    ensures TouchesOnly(b.rows, Rebook(b, o, parts, date).value.rows, o)
  {
    RebookWritesPair(b, o, parts, date);
  }

  lemma CreatedIsDated(b: Books, categories: map<nat, Source>, category: nat, amount: int, source: Option<Source>,
                       date: int)
    requires LedgerInv(b) && AllDated(b) && Created(b, categories, category, amount, source, date).Success?
    ensures AllDated(Created(b, categories, category, amount, source, date).value)
  {
    var e, now := |b.expenses|, Created(b, categories, category, amount, source, date).value;
    CreatedKeepsInvariant(b, categories, category, amount, source, date);
    assert TouchesOnly(b.rows, now.rows, ExpenseOwner(e)) by {
      var effective := if source.Some? then source.value else categories[category];
      var parts := Allocate(amount, effective, Available(b.balances)).value;
      RecordTouches(WithExpense(b, Expense(category, parts, Some(effective), date)), ExpenseOwner(e), parts, date);
    }
    assert Current(now, ExpenseOwner(e)).Some?;
    assert EntryDated(now, e);
    AllStayDated(b, now, ExpenseOwner(e));
  }

  lemma RebookedIsDated(b: Books, e: nat, amended: Expense, date: Option<int>)
    requires AllBooked(b) && AllDated(b) && IsLive(b, e)
    requires amended.txnDate == if date.Some? then date.value else b.expenses[e].value.txnDate
    requires var grown := b.(expenses := b.expenses[e := Some(amended)]);
             && Rebook(grown, ExpenseOwner(e), amended.parts, date).Success?
             && AllBooked(Rebook(grown, ExpenseOwner(e), amended.parts, date).value)
    ensures AllDated(Rebook(b.(expenses := b.expenses[e := Some(amended)]), ExpenseOwner(e), amended.parts, date).value)
  {
    var o, grown := ExpenseOwner(e), b.(expenses := b.expenses[e := Some(amended)]);
    var now := Rebook(grown, o, amended.parts, date).value;
    RebookWritesPair(grown, o, amended.parts, date);
    RebookTouches(grown, o, amended.parts, date);
    assert now.expenses == grown.expenses;
    assert EntryDated(b, e);
    assert now.rows[|b.rows| + 1].ActiveEntryOf(o);
    AllStayDated(b, now, o);
  }

  lemma UpdatedIsDated(b: Books, categories: map<nat, Source>, id: nat, change: ExpenseChange)
    requires LedgerInv(b) && AllDated(b) && Updated(b, categories, id, change).Success?
    ensures AllDated(Updated(b, categories, id, change).value)
  {
    var now := Updated(b, categories, id, change).value;
    var amended := Amended(b.expenses[id].value, NewParts(b, categories, b.expenses[id].value, change).value, change);
    UpdatedOutcome(b, categories, id, change, EffectiveSource(change, b.expenses[id].value, categories));
    if change.amount.Some? || change.txnDate.Some? {
      RebookedIsDated(b, id, amended, change.txnDate);
    } else {
      forall e: nat | IsLive(now, e)
        ensures EntryDated(now, e)
      {
        assert EntryDated(b, e);
      }
    }
  }

  lemma EarnedTouches(b: Books, origin: Origin, amount: int, date: int)
    requires LedgerInv(b) && Earned(b, origin, amount, date).Success?
    ensures var now := Earned(b, origin, amount, date).value;
            TouchesOnly(b.rows, now.rows, IncomeOwner(|b.incomes|)) && now.expenses == b.expenses
  {
    var income := Income(origin, amount, origin.Destination());
    EarnedOutcome(b, origin, amount, date);
    RecordTouches(WithIncome(b, income), IncomeOwner(|b.incomes|), income.Parts(), date);
  }

  lemma ReearnedTouches(b: Books, id: nat, amount: int, bucket: Bucket, date: Option<int>)
    requires LedgerInv(b) && Reearned(b, id, amount, bucket, date).Success?
    ensures var now := Reearned(b, id, amount, bucket, date).value;
            TouchesOnly(b.rows, now.rows, IncomeOwner(id)) && now.expenses == b.expenses
  {
    var income := b.incomes[id].value.(amount := amount, bucket := bucket);
    ReearnedOutcome(b, id, amount, bucket, date);
    RebookTouches(b.(incomes := b.incomes[id := Some(income)]), IncomeOwner(id), income.Parts(), date);
  }

  lemma UnbookTouches(b: Books, o: Owner)
    ensures TouchesOnly(b.rows, WithoutOwner(b.rows, o), o)
  {
  }

  lemma StepKeepsDates(b: Books, categories: map<nat, Source>, step: LedgerStep)
    requires LedgerInv(b) && AllDated(b)
    ensures AllDated(After(b, categories, step))
  {
    StepKeepsLedger(b, categories, step);
    var now := After(b, categories, step);
    if Take(b, categories, step).Success? {
      match step
      case PostIncome(origin, amount, date) =>
        EarnedTouches(b, origin, amount, date);
        AllStayDated(b, now, IncomeOwner(|b.incomes|));
      case EditIncome(id, amount, bucket, newDate) =>
        ReearnedTouches(b, id, amount, bucket, newDate);
        AllStayDated(b, now, IncomeOwner(id));
      case DropIncome(id) =>
        UnbookTouches(b, IncomeOwner(id));
        AllStayDated(b, now, IncomeOwner(id));
      case PostExpense(category, amount, source, date) =>
        CreatedIsDated(b, categories, category, amount, source, date);
      case EditExpense(id, change) => UpdatedIsDated(b, categories, id, change);
      case DropExpense(id) =>
        UnbookTouches(b, ExpenseOwner(id));
        AllStayDated(b, now, ExpenseOwner(id));
    }
  }

  /** After every run each live expense's active entry has the expense's date, however often amounts and dates were
      changed. */
  lemma {:induction false} EveryRunKeepsDates(categories: map<nat, Source>, steps: seq<LedgerStep>)
    ensures AllDated(Run(categories, steps))
  {
    if steps != [] {
      var earlier := steps[..|steps| - 1];
      EveryRunKeepsDates(categories, earlier);
      EveryRunKeepsLedger(categories, earlier);
      StepKeepsDates(Run(categories, earlier), categories, steps[|steps| - 1]);
    }
  }

  // ----- snapshots

  ghost predicate SameEntry(was: Row, now: Row) {
    now == was.(deleted := now.deleted, owner := now.owner)
  }

  /** The balance the row at `i` was inserted on: that of the row before it, or of the start. */
  function BalanceBefore(rows: seq<Row>, start: Balances, from: nat, i: nat): Balances
    requires from <= i <= |rows|
  {
    if i == from then start else rows[i - 1].after
  }

  /** The row's snapshots are `on`, the balances it was inserted on, and what its trigger made of them. */
  ghost predicate Snapshots(row: Row, on: Balances) {
    row.before == on && InsertTrigger(on, row) == Success(row.after)
  }

  ghost predicate StandsOn(rows: seq<Row>, start: Balances, from: nat, i: nat)
    requires from <= i < |rows|
  {
    Snapshots(rows[i], BalanceBefore(rows, start, from, i))
  }

  ghost predicate StandsOnWithGap(rows: seq<Row>, gap: Amounts, i: nat)
    requires i < |rows|
  {
    Snapshots(rows[i], BalanceBefore(rows, OPENING, 0, i).Plus(gap))
  }

  /** The rows a step added were inserted one on top of the other, from the balances it found to those it
      left; what each recorded is what the insert trigger did. Older rows keep their amounts and snapshots. */
  ghost predicate Appends(was: Books, now: Books) {
    && |was.rows| <= |now.rows|
    && (forall i :: 0 <= i < |was.rows| ==> SameEntry(was.rows[i], now.rows[i]))
    && (forall i :: |was.rows| <= i < |now.rows| ==> StandsOn(now.rows, was.balances, |was.rows|, i))
    && now.balances == BalanceBefore(now.rows, was.balances, |was.rows|, |now.rows|)
  }

  lemma RecordAppends(b: Books, o: Owner, parts: Amounts, date: int)
    requires b.balances.Consistent() && parts.NonNegative()
    requires Record(b, o, parts, date).Success?
    ensures Appends(b, Record(b, o, parts, date).value)
  {
  }

  lemma RebookAppends(b: Books, o: Owner, parts: Amounts, date: Option<int>)
    requires b.balances.Consistent() && parts.NonNegative()
    requires forall i :: 0 <= i < |b.rows| && b.rows[i].ActiveEntryOf(o) ==> b.rows[i].parts.NonNegative()
    requires Rebook(b, o, parts, date).Success?
    ensures Appends(b, Rebook(b, o, parts, date).value)
  {
    var k := FindLatestActive(b.rows, o).value;
    RebookedBooks(b, o, k, parts, date);
    var reversal := Reversal(b.balances, o, k, b.rows[k]);
    SoundRowIsExact(b.balances, reversal);
    SoundRowIsExact(reversal.after, Replacement(reversal, o, parts, DateOr(date, b.rows[k].txnDate)));
  }

  lemma SoundEntries(b: Books, o: Owner)
    requires LedgerInv(b)
    ensures forall i :: 0 <= i < |b.rows| && b.rows[i].ActiveEntryOf(o) ==> b.rows[i].parts.NonNegative()
  {
  }

  /** Every step but a deletion appends; a deletion adds no row and moves the balances by what it gives back. */
  lemma StepAppends(b: Books, categories: map<nat, Source>, step: LedgerStep)
    requires LedgerInv(b)
    requires !step.Drops()
    ensures Appends(b, After(b, categories, step))
  {
    if Take(b, categories, step).Success? {
      match step
      case PostIncome(origin, amount, date) =>
        var income := Income(origin, amount, origin.Destination());
        RecordAppends(WithIncome(b, income), IncomeOwner(|b.incomes|), income.Parts(), date);
      case EditIncome(id, amount, bucket, newDate) =>
        SoundEntries(b, IncomeOwner(id));
        var income := b.incomes[id].value.(amount := amount, bucket := bucket);
        ReearnedOutcome(b, id, amount, bucket, newDate);
        RebookAppends(b.(incomes := b.incomes[id := Some(income)]), IncomeOwner(id), income.Parts(), newDate);
      case PostExpense(category, amount, source, date) =>
        var effective := if source.Some? then source.value else categories[category];
        AllocationIsOptimal(amount, effective, Available(b.balances));
        var parts := Allocate(amount, effective, Available(b.balances)).value;
        RecordAppends(WithExpense(b, Expense(category, parts, Some(effective), date)), ExpenseOwner(|b.expenses|),
                      parts, date);
      case EditExpense(id, change) =>
        SoundEntries(b, ExpenseOwner(id));
        NewPartsOutcome(b, categories, id, change);
        var parts := NewParts(b, categories, b.expenses[id].value, change).value;
        if change.amount.Some? || change.txnDate.Some? {
          var amended := Amended(b.expenses[id].value, parts, change);
          RebookAppends(b.(expenses := b.expenses[id := Some(amended)]), ExpenseOwner(id), parts, change.txnDate);
        }
      case _ =>
    }
  }

  lemma DropAddsNoRow(b: Books, categories: map<nat, Source>, step: LedgerStep)
    requires step.Drops()
    ensures |After(b, categories, step).rows| == |b.rows|
    ensures forall i :: 0 <= i < |b.rows| ==> SameEntry(b.rows[i], After(b, categories, step).rows[i])
  {
  }

  /** A run with its delete adjustments written down: `gaps[i]` is what deletions moved between the insertion
      of row `i - 1` and that of row `i`. */
  datatype Audit = Audit(books: Books, gaps: seq<Amounts>)

  ghost function AuditRun(categories: map<nat, Source>, steps: seq<LedgerStep>): Audit {
    if steps == [] then Audit(EmptyState(categories).books, [ZERO])
    else AuditStep(AuditRun(categories, steps[..|steps| - 1]), categories, steps[|steps| - 1])
  }

  ghost function AuditStep(a: Audit, categories: map<nat, Source>, step: LedgerStep): Audit {
    var now := After(a.books, categories, step);
    if step.Drops() && |a.gaps| > 0 then
      var moved := Available(now.balances).Minus(Available(a.books.balances));
      Audit(now, a.gaps[|a.gaps| - 1 := a.gaps[|a.gaps| - 1].Plus(moved)])
    else
      Audit(now, a.gaps + seq(Grown(a.books, now), _ => ZERO))
  }

  function Grown(was: Books, now: Books): nat {
    if |was.rows| <= |now.rows| then |now.rows| - |was.rows| else 0
  }

  /** Consecutive snapshots chain, except for exactly the delete adjustments between them. */
  ghost predicate Chained(a: Audit) {
    && |a.gaps| == |a.books.rows| + 1
    && (forall i :: 0 <= i < |a.books.rows| ==> StandsOnWithGap(a.books.rows, a.gaps[i], i))
    && a.books.balances ==
       BalanceBefore(a.books.rows, OPENING, 0, |a.books.rows|).Plus(a.gaps[|a.books.rows|])
  }

  lemma OlderRowsStayChained(a: Audit, rows: seq<Row>, i: nat)
    requires Chained(a) && i < |a.books.rows| <= |rows|
    requires forall j :: 0 <= j < |a.books.rows| ==> SameEntry(a.books.rows[j], rows[j])
    ensures StandsOnWithGap(rows, a.gaps[i], i)
  {
  }

  lemma SameBalanceBefore(was: seq<Row>, now: seq<Row>, i: nat)
    requires i <= |was| <= |now|
    requires forall j :: 0 <= j < |was| ==> SameEntry(was[j], now[j])
    ensures BalanceBefore(now, OPENING, 0, i) == BalanceBefore(was, OPENING, 0, i)
  {
  }

  lemma NoGap(rows: seq<Row>, i: nat)
    requires 0 < i <= |rows|
    ensures BalanceBefore(rows, OPENING, 0, i).Plus(ZERO) == rows[i - 1].after
  {
  }

  lemma GapIs(rows: seq<Row>, i: nat, gap: Amounts, found: Balances)
    requires i < |rows| && Snapshots(rows[i], found)
    requires BalanceBefore(rows, OPENING, 0, i).Plus(gap) == found
    ensures StandsOnWithGap(rows, gap, i)
  {
  }

  /** The first new row stands on the balances, whose gap was still open; the others on the row before. */
  lemma NewRowIsChained(a: Audit, now: Books, i: nat, gap: Amounts)
    requires Chained(a) && Appends(a.books, now)
    requires |a.books.rows| <= i < |now.rows|
    requires gap == if i == |a.books.rows| then a.gaps[i] else ZERO
    ensures StandsOnWithGap(now.rows, gap, i)
  {
    var n := |a.books.rows|;
    assert StandsOn(now.rows, a.books.balances, n, i);
    if i == n {
      SameBalanceBefore(a.books.rows, now.rows, n);
      GapIs(now.rows, i, gap, a.books.balances);
    } else {
      NoGap(now.rows, i);
      GapIs(now.rows, i, gap, now.rows[i - 1].after);
    }
  }

  lemma BalancesStayChained(a: Audit, now: Books, gap: Amounts)
    requires Chained(a) && Appends(a.books, now)
    requires gap == if |now.rows| == |a.books.rows| then a.gaps[|now.rows|] else ZERO
    ensures now.balances == BalanceBefore(now.rows, OPENING, 0, |now.rows|).Plus(gap)
  {
  }

  lemma AppendKeepsChain(a: Audit, now: Books, gaps: seq<Amounts>)
    requires Chained(a) && Appends(a.books, now)
    requires gaps == a.gaps + seq(Grown(a.books, now), _ => ZERO)
    ensures Chained(Audit(now, gaps))
  {
    forall i | 0 <= i < |now.rows|
      ensures StandsOnWithGap(now.rows, gaps[i], i)
    {
      if i < |a.books.rows| {
        OlderRowsStayChained(a, now.rows, i);
      } else {
        NewRowIsChained(a, now, i, gaps[i]);
      }
    }
    BalancesStayChained(a, now, gaps[|now.rows|]);
  }

  lemma DropKeepsChain(a: Audit, now: Books, moved: Amounts)
    requires Chained(a) && |now.rows| == |a.books.rows|
    requires forall i :: 0 <= i < |now.rows| ==> SameEntry(a.books.rows[i], now.rows[i])
    requires now.balances == a.books.balances.Plus(moved)
    ensures Chained(Audit(now, a.gaps[|a.gaps| - 1 := a.gaps[|a.gaps| - 1].Plus(moved)]))
  {
  }

  lemma AuditStepKeepsChain(a: Audit, categories: map<nat, Source>, step: LedgerStep)
    requires LedgerInv(a.books) && Chained(a)
    ensures Chained(AuditStep(a, categories, step))
  {
    var now := After(a.books, categories, step);
    StepKeepsLedger(a.books, categories, step);
    if step.Drops() {
      DropAddsNoRow(a.books, categories, step);
      DropKeepsChain(a, now, Available(now.balances).Minus(Available(a.books.balances)));
    } else {
      StepAppends(a.books, categories, step);
      AppendKeepsChain(a, now, AuditStep(a, categories, step).gaps);
    }
  }

  /** Over every run, each row's snapshots are the balances just before and just after its trigger, and
      they chain from the opening balances to the current ones. */
  lemma {:induction false} EveryRunChains(categories: map<nat, Source>, steps: seq<LedgerStep>)
    ensures AuditRun(categories, steps).books == Run(categories, steps)
    ensures Chained(AuditRun(categories, steps))
  {
    if steps != [] {
      var earlier := steps[..|steps| - 1];
      EveryRunChains(categories, earlier);
      EveryRunKeepsLedger(categories, earlier);
      AuditStepKeepsChain(AuditRun(categories, earlier), categories, steps[|steps| - 1]);
    }
  }
}
