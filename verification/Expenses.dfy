/** `ExpensesService`: splitting an amount over the two buckets, and the create, update and delete flows. */
module Expenses {
  import opened Basics
  import opened Schema
  import opened CashbookTriggers
  import opened CashbookLedger
  import opened CashbookService

  // ----- allocation

  /** `allocateAmounts` after its locked read; `available` includes what an update restores. */
  function Allocate(amount: int, source: Source, available: Amounts): Result<Amounts> {
    match source
    case FromShu =>
      if available.shu < amount then Failure(InsufficientFunds) else Success(Amounts(amount, 0))
    case FromCapital =>
      if available.capital < amount then Failure(InsufficientFunds) else Success(Amounts(0, amount))
    case FromTotal =>
      if available.shu + available.capital < amount then Failure(InsufficientFunds)
      else if available.capital >= amount then Success(Amounts(0, amount))
      else Success(Amounts(amount - available.capital, available.capital))
    case FromAuto =>
      if available.capital >= amount then Success(Amounts(0, amount))
      else if available.shu + available.capital >= amount then
        var remaining := amount - available.capital;
        Success(Amounts(remaining, available.capital))
      else Failure(InsufficientFunds)
  }

  /** A split of `amount` that the buckets can pay and the source allows. */
  predicate Feasible(amount: int, source: Source, available: Amounts, split: Amounts) {
    && split.NonNegative()
    && split.Adds(amount)
    && split.shu <= available.shu
    && split.capital <= available.capital
    && (source.FromShu? ==> split.capital == 0)
    && (source.FromCapital? ==> split.shu == 0)
  }

  /** What a source can pay in all. */
  function Funds(source: Source, available: Amounts): int {
    match source
    case FromShu => available.shu
    case FromCapital => available.capital
    case _ => available.shu + available.capital
  }

  /** Sound, complete and optimal: it succeeds exactly when some split is feasible, which is exactly when
      the source's funds cover the amount, and no feasible split draws less SHU. */
  lemma AllocationIsOptimal(amount: int, source: Source, available: Amounts)
    requires amount >= 0 && available.NonNegative()
    ensures Allocate(amount, source, available).Success? <==> amount <= Funds(source, available)
    ensures Allocate(amount, source, available).Success? <==>
            exists split :: Feasible(amount, source, available, split)
    ensures Allocate(amount, source, available).Success? ==>
              var chosen := Allocate(amount, source, available).value;
              && Feasible(amount, source, available, chosen)
              && (forall split :: Feasible(amount, source, available, split) ==> chosen.shu <= split.shu)
  {
    var chosen := Allocate(amount, source, available);
    if chosen.Success? {
      assert Feasible(amount, source, available, chosen.value);
    }
  }

  // ----- what the flows amount to

  datatype ExpenseChange =
    ExpenseChange(category: Option<nat>, amount: Option<int>, source: Option<Source>, txnDate: Option<int>)

  function Available(b: Balances): Amounts { Amounts(b.shu, b.capital) }

  function IsLive(b: Books, id: nat): bool { id < |b.expenses| && b.expenses[id].Some? }

  /** `createExpenseInTransaction`. */
  function Created(b: Books, categories: map<nat, Source>, category: nat, amount: int, source: Option<Source>,
                   txnDate: int): Result<Books>
  {
    if category !in categories then Failure(CategoryNotFound)
    else
      var effective := if source.Some? then source.value else categories[category];
      var parts :- Allocate(amount, effective, Available(b.balances));
      var expense := Expense(category, parts, Some(effective), txnDate);
      Record(b.(expenses := b.expenses + [Some(expense)]), ExpenseOwner(|b.expenses|), parts, txnDate)
  }

  /** `createExpense`. */
  function Posted(b: Books, categories: map<nat, Source>, category: nat, amount: int, source: Option<Source>,
                  txnDate: int): Result<Books>
  {
    if amount <= 0 then Failure(InvalidAmount) else Created(b, categories, category, amount, source, txnDate)
  }

  /** The first of the requested source, the stored one and the category's default. A stored category is
      always known, because the foreign key restricts its deletion. */
  function EffectiveSource(change: ExpenseChange, existing: Expense, categories: map<nat, Source>): Source {
    if change.source.Some? then change.source.value
    else if existing.source.Some? then existing.source.value
    else
      var category := if change.category.Some? then change.category.value else existing.category;
      if category in categories then categories[category] else FromAuto
  }

  function NewParts(b: Books, categories: map<nat, Source>, existing: Expense, change: ExpenseChange): Result<Amounts>
  {
    if change.amount.None? then Success(existing.parts)
    else Allocate(change.amount.value, EffectiveSource(change, existing, categories),
                  Available(b.balances).Plus(existing.parts))
  }

  function Amended(existing: Expense, parts: Amounts, change: ExpenseChange): Expense {
    Expense(if change.category.Some? then change.category.value else existing.category, parts,
            existing.source, DateOr(change.txnDate, existing.txnDate))
  }

  /** `updateExpense`: the cashbook is touched only when the amount or the date changes. */
  function Updated(b: Books, categories: map<nat, Source>, id: nat, change: ExpenseChange): Result<Books> {
    if !IsLive(b, id) then Failure(NotFound)
    else if change.amount.Some? && change.amount.value <= 0 then Failure(InvalidAmount)
    else if change.category.Some? && change.category.value !in categories then Failure(CategoryNotFound)
    else
      var existing := b.expenses[id].value;
      var parts :- NewParts(b, categories, existing, change);
      var amended := b.(expenses := b.expenses[id := Some(Amended(existing, parts, change))]);
      if change.amount.Some? || change.txnDate.Some?
      then Rebook(amended, ExpenseOwner(id), parts, change.txnDate)
      else Success(amended)
  }

  /** `deleteExpense`. */
  ghost function Deleted(b: Books, id: nat): Result<Books> {
    if !IsLive(b, id) then Failure(NotFound)
    else
      var unbooked :- Unbook(b, ExpenseOwner(id));
      Success(unbooked.(expenses := unbooked.expenses[id := None]))
  }

  // ----- when the flows go through, and what they keep

  /** Creating is refused only by the checks the service makes itself; the ledger never refuses the row. */
  lemma CreatedOutcome(b: Books, categories: map<nat, Source>, category: nat, amount: int, source: Option<Source>,
                       txnDate: int)
    requires LedgerInv(b) && amount > 0 && category in categories
    ensures var effective := if source.Some? then source.value else categories[category];
            var now := Created(b, categories, category, amount, source, txnDate);
            && (now.Success? <==> amount <= Funds(effective, Available(b.balances)))
            && (now.Success? ==>
                  && LedgerInv(now.value)
                  && IsLive(now.value, |b.expenses|)
                  && now.value.expenses[|b.expenses|].value.parts.Adds(amount))
  {
    var effective := if source.Some? then source.value else categories[category];
    AllocationIsOptimal(amount, effective, Available(b.balances));
    if amount <= Funds(effective, Available(b.balances)) {
      var parts := Allocate(amount, effective, Available(b.balances)).value;
      var expense := Expense(category, parts, Some(effective), txnDate);
      RecordedExpense(b, expense);
    }
  }

  function WithExpense(b: Books, expense: Expense): Books {
    b.(expenses := b.expenses + [Some(expense)])
  }

  lemma RecordedExpense(b: Books, expense: Expense)
    requires LedgerInv(b) && expense.parts.NonNegative() && expense.parts.Positive()
    requires expense.parts.shu <= b.balances.shu && expense.parts.capital <= b.balances.capital
    ensures var now := Record(WithExpense(b, expense), ExpenseOwner(|b.expenses|), expense.parts, expense.txnDate);
            && now.Success?
            && LedgerInv(now.value)
            && now.value.balances == b.balances.Plus(Signed(Out, expense.parts))
            && now.value.expenses == b.expenses + [Some(expense)] && now.value.incomes == b.incomes
            && |now.value.rows| == |b.rows| + 1 && AddsDated(b, now.value, expense.txnDate)
  {
    var o := ExpenseOwner(|b.expenses|);
    var grown := WithExpense(b, expense);
    assert forall other :: other != o ==> Current(grown, other) == Current(b, other);
    SoundRowIsExact(b.balances, NewRow(b.balances, expense.txnDate, Out, expense.parts, o, None));
    RecordKeepsInvariant(b, grown, o, expense.parts, expense.txnDate);
  }

  /** A negative or zero amount that slips past the allocation is stopped by the amounts CHECK, so every
      successful creation keeps the ledger sound. */
  lemma CreatedKeepsInvariant(b: Books, categories: map<nat, Source>, category: nat, amount: int,
                              source: Option<Source>, txnDate: int)
    requires LedgerInv(b) && Created(b, categories, category, amount, source, txnDate).Success?
    ensures amount > 0
    ensures var now := Created(b, categories, category, amount, source, txnDate).value;
            && LedgerInv(now)
            && |now.expenses| == |b.expenses| + 1 && now.expenses[|b.expenses|].Some?
            && now.expenses == b.expenses + [now.expenses[|b.expenses|]]
            && now.incomes == b.incomes
            && var effective := if source.Some? then source.value else categories[category];
               var expense := now.expenses[|b.expenses|].value;
            && Allocate(amount, effective, Available(b.balances)) == Success(expense.parts)
            && expense == Expense(category, expense.parts, Some(effective), txnDate)
            && |now.rows| == |b.rows| + 1 && AddsDated(b, now, txnDate)
            && now.balances == b.balances.Plus(Signed(Out, now.expenses[|b.expenses|].value.parts))
  {
    var effective := if source.Some? then source.value else categories[category];
    if amount > 0 {
      AllocationIsOptimal(amount, effective, Available(b.balances));
      var parts := Allocate(amount, effective, Available(b.balances)).value;
      RecordedExpense(b, Expense(category, parts, Some(effective), txnDate));
    }
  }

  /** The source an update must draw on: the one asked for; without one, the one stored; without either, the
      default of the category asked for or else of the stored one. */
  ghost predicate DrawsOn(source: Source, change: ExpenseChange, existing: Expense, categories: map<nat, Source>) {
    && (change.source.Some? ==> source == change.source.value)
    && (change.source.None? && existing.source.Some? ==> source == existing.source.value)
    && (change.source.None? && existing.source.None? ==>
          var category := if change.category.Some? then change.category.value else existing.category;
          source == if category in categories then categories[category] else FromAuto)
  }

  /** The split of the new amount is the one the allocation chooses from that source, and no split that the source
      allows draws less SHU. */
  ghost predicate IsBestSplit(parts: Amounts, amount: int, source: Source, available: Amounts) {
    && Allocate(amount, source, available) == Success(parts)
    && Feasible(amount, source, available, parts)
    && forall split :: Feasible(amount, source, available, split) ==> parts.shu <= split.shu
  }

  /** The expense after an update: new amounts only for a new amount, from the source with the old amounts back;
      a new category or date only if given; and the source it was stored with. */
  ghost predicate IsAmended(now: Expense, was: Expense, change: ExpenseChange, source: Source, restored: Amounts) {
    && (change.amount.Some? ==> IsBestSplit(now.parts, change.amount.value, source, restored))
    && (change.amount.None? ==> now.parts == was.parts)
    && now.category == (if change.category.Some? then change.category.value else was.category)
    && now.txnDate == (if change.txnDate.Some? then change.txnDate.value else was.txnDate)
    && now.source == was.source
  }

  /** Predicting with the restored amounts is exact: an update that passes the service's own checks is
      never refused by the trigger guard or a CHECK, on the reversal or on the new entry. It draws on the source
      it must, and writes to the cashbook exactly if there is a new amount or date. */
  lemma UpdatedOutcome(b: Books, categories: map<nat, Source>, id: nat, change: ExpenseChange, source: Source)
    requires LedgerInv(b) && IsLive(b, id) && DrawsOn(source, change, b.expenses[id].value, categories)
    ensures var restored := Available(b.balances).Plus(b.expenses[id].value.parts);
            Updated(b, categories, id, change).Success? <==>
              && (change.amount.Some? ==> 0 < change.amount.value <= Funds(source, restored))
              && (change.category.Some? ==> change.category.value in categories)
    ensures Updated(b, categories, id, change).Success? ==>
              var now, was := Updated(b, categories, id, change).value, b.expenses[id].value;
              && LedgerInv(now)
              && IsLive(now, id)
              && now.incomes == b.incomes
              && now.expenses == b.expenses[id := now.expenses[id]]
              && IsAmended(now.expenses[id].value, was, change, source, Available(b.balances).Plus(was.parts))
              && now.balances == b.balances.Plus(was.parts).Plus(Signed(Out, now.expenses[id].value.parts))
              && (if change.amount.None? && change.txnDate.None? then now.rows == b.rows
                  else |now.rows| == |b.rows| + 2)
  {
    assert source == EffectiveSource(change, b.expenses[id].value, categories);
    var valid := (change.amount.Some? ==> change.amount.value > 0) &&
                 (change.category.Some? ==> change.category.value in categories);
    if valid {
      NewPartsOutcome(b, categories, id, change);
      if NewParts(b, categories, b.expenses[id].value, change).Success? {
        UpdatedApplies(b, categories, id, change);
      }
    }
  }

  lemma NewPartsOutcome(b: Books, categories: map<nat, Source>, id: nat, change: ExpenseChange)
    requires LedgerInv(b) && IsLive(b, id)
    requires change.amount.Some? ==> change.amount.value > 0
    ensures var existing := b.expenses[id].value;
            var restored := Available(b.balances).Plus(existing.parts);
            var parts := NewParts(b, categories, existing, change);
            && (parts.Success? <==>
                  change.amount.Some? ==>
                    change.amount.value <= Funds(EffectiveSource(change, existing, categories), restored))
            && (parts.Success? ==>
                  && parts.value.NonNegative()
                  && parts.value.shu <= restored.shu && parts.value.capital <= restored.capital
                  && (change.amount.Some? ==>
                        IsBestSplit(parts.value, change.amount.value, EffectiveSource(change, existing, categories),
                                    restored))
                  && (change.amount.None? ==> parts.value == existing.parts)
                  && parts.value.Positive())
  {
    var existing := b.expenses[id].value;
    assert Current(b, ExpenseOwner(id)) == Some(existing.parts);
    CurrentIsSound(b, ExpenseOwner(id));
    if change.amount.Some? {
      AllocationIsOptimal(change.amount.value, EffectiveSource(change, existing, categories),
                          Available(b.balances).Plus(existing.parts));
    }
  }

  lemma UpdatedApplies(b: Books, categories: map<nat, Source>, id: nat, change: ExpenseChange)
    requires LedgerInv(b) && IsLive(b, id)
    requires change.amount.Some? ==> change.amount.value > 0
    requires change.category.Some? ==> change.category.value in categories
    requires NewParts(b, categories, b.expenses[id].value, change).Success?
    ensures Updated(b, categories, id, change).Success?
    ensures var now := Updated(b, categories, id, change).value;
            var amended := Amended(b.expenses[id].value,
                                   NewParts(b, categories, b.expenses[id].value, change).value, change);
            && LedgerInv(now)
            && now.incomes == b.incomes
            && now.expenses == b.expenses[id := Some(amended)]
            && now.balances == b.balances.Plus(b.expenses[id].value.parts).Plus(Signed(Out, amended.parts))
            && (if change.amount.None? && change.txnDate.None? then now.rows == b.rows
                else |now.rows| == |b.rows| + 2)
  {
    NewPartsOutcome(b, categories, id, change);
    var existing := b.expenses[id].value;
    var parts := NewParts(b, categories, existing, change).value;
    RebookedExpense(b, id, Amended(existing, parts, change), change.txnDate);
  }

  lemma CurrentIsSound(b: Books, o: Owner)
    requires LedgerInv(b) && Current(b, o).Some?
    ensures Current(b, o).value.NonNegative() && Current(b, o).value.Positive()
  {
  }

  /** Whatever the buckets can pay once the old amounts are back is accepted; with equal amounts
      nothing need be posted at all. */
  lemma RebookedExpense(b: Books, id: nat, amended: Expense, txnDate: Option<int>)
    requires LedgerInv(b) && IsLive(b, id)
    requires amended.parts.NonNegative() && amended.parts.Positive()
    requires amended.parts.shu <= b.balances.shu + b.expenses[id].value.parts.shu
    requires amended.parts.capital <= b.balances.capital + b.expenses[id].value.parts.capital
    ensures var grown := b.(expenses := b.expenses[id := Some(amended)]);
            var now := Rebook(grown, ExpenseOwner(id), amended.parts, txnDate);
            && now.Success?
            && LedgerInv(now.value)
            && now.value.balances == b.balances.Plus(b.expenses[id].value.parts).Plus(Signed(Out, amended.parts))
            && now.value.expenses == grown.expenses && now.value.incomes == b.incomes
            && |now.value.rows| == |b.rows| + 2
    ensures amended.parts == b.expenses[id].value.parts ==>
              LedgerInv(b.(expenses := b.expenses[id := Some(amended)]))
  {
    var o := ExpenseOwner(id);
    var grown := b.(expenses := b.expenses[id := Some(amended)]);
    assert forall other :: other != o ==> Current(grown, other) == Current(b, other);
    assert Rebook(b, o, amended.parts, txnDate).Success? by {
      CurrentIsSound(b, o);
      RebookOutcome(b, o, amended.parts, txnDate);
    }
    assert Rebook(grown, o, amended.parts, txnDate).Success?;
    RebookKeepsInvariant(b, grown, o, amended.parts, txnDate);
    if amended.parts == b.expenses[id].value.parts {
      SameAmountsKeepInvariant(b, grown);
    }
  }

  lemma SameAmountsKeepInvariant(b: Books, now: Books)
    requires LedgerInv(b)
    requires now.balances == b.balances && now.rows == b.rows
    requires forall o :: Current(now, o) == Current(b, o)
    ensures LedgerInv(now)
  {
  }

  /** Why an update is refused: for an expense that is not there, an amount that is not positive, an unknown category,
      or too little in the source; checked in that order, and for no other reason. */
  lemma UpdateRefusals(b: Books, categories: map<nat, Source>, id: nat, change: ExpenseChange)
    requires LedgerInv(b)
    ensures var r := Updated(b, categories, id, change);
            && (r == Failure(NotFound) <==> !IsLive(b, id))
            && (r == Failure(InvalidAmount) <==>
                  IsLive(b, id) && change.amount.Some? && change.amount.value <= 0)
            && (r == Failure(CategoryNotFound) <==>
                  && IsLive(b, id) && (change.amount.Some? ==> change.amount.value > 0)
                  && change.category.Some? && change.category.value !in categories)
            && (r.Failure? ==> r.error in {NotFound, InvalidAmount, CategoryNotFound, InsufficientFunds})
  {
    if IsLive(b, id) && (change.amount.Some? ==> change.amount.value > 0) &&
       (change.category.Some? ==> change.category.value in categories) {
      NewPartsOutcome(b, categories, id, change);
      if NewParts(b, categories, b.expenses[id].value, change).Success? {
        UpdatedApplies(b, categories, id, change);
      }
    }
  }

  /** And why a creation is. */
  lemma PostRefusals(b: Books, categories: map<nat, Source>, category: nat, amount: int, source: Option<Source>,
                     txnDate: int)
    requires LedgerInv(b)
    ensures var r := Posted(b, categories, category, amount, source, txnDate);
            && (r == Failure(InvalidAmount) <==> amount <= 0)
            && (r == Failure(CategoryNotFound) <==> amount > 0 && category !in categories)
            && (r.Failure? ==> r.error in {InvalidAmount, CategoryNotFound, InsufficientFunds})
  {
    if amount > 0 && category in categories {
      CreatedOutcome(b, categories, category, amount, source, txnDate);
    }
  }

  /** Deleting a live expense always succeeds, after any number of updates, and gives back exactly its
      current amounts. */
  lemma DeletedOutcome(b: Books, id: nat)
    requires LedgerInv(b) && IsLive(b, id)
    ensures Deleted(b, id).Success?
    ensures var now := Deleted(b, id).value;
            && LedgerInv(now)
            && !IsLive(now, id)
            && now.balances == b.balances.Plus(b.expenses[id].value.parts)
            && now.expenses == b.expenses[id := None] && now.incomes == b.incomes
  {
    var o := ExpenseOwner(id);
    UnbookOutcome(b, o);
    CurrentIsSound(b, o);
    var now := Deleted(b, id).value;
    assert forall other :: other != o ==> Current(now, other) == Current(b, other);
    UnbookKeepsInvariant(b, now, o);
  }

  // ----- the service

  /** INSERT INTO expenses, with its own amounts CHECK. */
  method InsertExpense(trx: Database, expense: Expense) returns (r: Result<nat>)
    modifies trx`expenses
    ensures r.Success? <==> expense.parts.Positive()
    ensures r.Success? ==> r.value == |old(trx.expenses)| && trx.expenses == old(trx.expenses) + [Some(expense)]
    ensures r.Failure? ==> r.error == AmountsNotPositive
  {
    if !expense.parts.Positive() {
      return Failure(AmountsNotPositive);
    }
    trx.expenses := trx.expenses + [Some(expense)];
    r := Success(|trx.expenses| - 1);
  }

  method CreateExpenseInTransaction(trx: Database, category: nat, amount: int, source: Option<Source>, txnDate: int)
    returns (r: Result<nat>)
    modifies trx`balances, trx`rows, trx`expenses
    ensures Follows(r, trx.Cashbook(),
                    Created(old(trx.Cashbook()), trx.categories, category, amount, source, txnDate))
  {
    if category !in trx.categories {
      return Failure(CategoryNotFound);
    }
    var effectiveSource := if source.Some? then source.value else trx.categories[category];
    var parts :- Allocate(amount, effectiveSource, Available(trx.balances));
    var id :- InsertExpense(trx, Expense(category, parts, Some(effectiveSource), txnDate));
    var _ :- CreateExpenseTransaction(trx, id, parts.shu, parts.capital, txnDate);
    r := Success(id);
  }

  method CreateExpense(db: Database, category: nat, amount: int, source: Option<Source>, txnDate: int)
    returns (r: Result<nat>)
    modifies db
    ensures Commits(r, old(db.View()), db.View(), OnBooks(old(db.View()),
                    Posted(old(db.Cashbook()), db.categories, category, amount, source, txnDate)))
  {
    if amount <= 0 {
      return Failure(InvalidAmount);
    }
    var saved := db.View();
    r := CreateExpenseInTransaction(db, category, amount, source, txnDate);
    if r.Failure? {
      db.Rollback(saved);
    }
  }

  method UpdateExpense(db: Database, id: nat, change: ExpenseChange) returns (r: Result<()>)
    modifies db
    ensures Commits(r, old(db.View()), db.View(), OnBooks(old(db.View()),
                    Updated(old(db.Cashbook()), db.categories, id, change)))
  {
    if id >= |db.expenses| || db.expenses[id].None? {
      return Failure(NotFound);
    }
    if change.amount.Some? && change.amount.value <= 0 {
      return Failure(InvalidAmount);
    }
    if change.category.Some? && change.category.value !in db.categories {
      return Failure(CategoryNotFound);
    }
    var saved := db.View();
    r := UpdateExpenseInTransaction(db, id, db.expenses[id].value, change);
    if r.Failure? {
      db.Rollback(saved);
    }
  }

  method UpdateExpenseInTransaction(trx: Database, id: nat, existing: Expense, change: ExpenseChange)
    returns (r: Result<()>)
    requires id < |trx.expenses| && trx.expenses[id] == Some(existing)
    requires change.amount.Some? ==> change.amount.value > 0
    requires change.category.Some? ==> change.category.value in trx.categories
    modifies trx`balances, trx`rows, trx`expenses
    ensures Follows(r, trx.Cashbook(), Updated(old(trx.Cashbook()), trx.categories, id, change))
  {
    var parts := existing.parts;
    if change.amount.Some? {
      var restored := Available(trx.balances).Plus(existing.parts);
      parts :- Allocate(change.amount.value, EffectiveSource(change, existing, trx.categories), restored);
    }
    trx.expenses := trx.expenses[id := Some(Amended(existing, parts, change))];
    if change.amount.Some? || change.txnDate.Some? {
      r := UpdateExpenseTransaction(trx, id, parts.shu, parts.capital, change.txnDate);
    } else {
      r := Success(());
    }
  }

  method DeleteExpense(db: Database, id: nat) returns (r: Result<()>)
    modifies db
    ensures Commits(r, old(db.View()), db.View(), OnBooks(old(db.View()),
                    Deleted(old(db.Cashbook()), id)))
  {
    if id >= |db.expenses| || db.expenses[id].None? {
      return Failure(NotFound);
    }
    var saved := db.View();
    r := DeleteExpenseInTransaction(db, id);
    if r.Failure? {
      db.Rollback(saved);
    }
  }

  /** The DELETE of the expense comes last; its foreign key unlinks the cashbook rows. */
  method DeleteExpenseInTransaction(trx: Database, id: nat) returns (r: Result<()>)
    requires id < |trx.expenses| && trx.expenses[id].Some?
    modifies trx`balances, trx`rows, trx`expenses
    ensures Follows(r, trx.Cashbook(), Deleted(old(trx.Cashbook()), id))
  {
    ghost var unbooked := Unbook(trx.Cashbook(), ExpenseOwner(id));
    var _ :- DeleteAndUnlink(trx, ExpenseOwner(id));
    trx.expenses := trx.expenses[id := None];
    assert trx.Cashbook() == unbooked.value.(expenses := trx.expenses);
    r := Success(());
  }
}
