/** The immutable ledger against the forms it replaced: an in-place UPDATE through the update trigger,
    and DELETEs of every linked row through the delete trigger. */
module LedgerRefinement {
  import opened Basics
  import opened Schema
  import opened CashbookTriggers
  import opened CashbookLedger
  import opened Expenses
  import opened Incomes
  import opened LedgerHistory

  // ----- updating

  /** The balances after an in-place UPDATE of the entry's amounts. */
  function InPlace(b: Books, o: Owner, parts: Amounts): Result<Balances> {
    match FindLatestActive(b.rows, o)
    case None => Failure(MissingCashbookRow)
    case Some(k) => UpdateTrigger(b.balances, b.rows[k], b.rows[k].(parts := parts))
  }

  /** Reversal and new entry leave the balances an in-place UPDATE would leave, and go through exactly when
      it would, with one exception: an income rebooked at its own amounts is refused once it has been spent,
      where the old trigger would have stayed idle. */
  lemma RebookRefinesInPlace(b: Books, o: Owner, parts: Amounts, date: Option<int>)
    requires LedgerInv(b) && Current(b, o).Some?
    requires parts.NonNegative() && parts.Positive()
    ensures var old_ := Current(b, o).value;
            Rebook(b, o, parts, date).Success? <==>
              && InPlace(b, o, parts).Success?
              && (o.IncomeOwner? && parts == old_ ==> Covers(b.balances, old_))
    ensures Rebook(b, o, parts, date).Success? ==>
              Rebook(b, o, parts, date).value.balances == InPlace(b, o, parts).value
  {
    var old_ := Current(b, o).value;
    assert Booked(b.rows, o, old_);
    var k := FindLatestActive(b.rows, o).value;
    CurrentIsSound(b, o);
    RebookOutcome(b, o, parts, date);
    BumpIsExact(b.balances, o.Natural().Opposite(), old_);
    if Bump(b.balances, o.Natural().Opposite(), old_).Success? {
      BumpIsExact(Bump(b.balances, o.Natural().Opposite(), old_).value, o.Natural(), parts);
    }
  }

  lemma BumpIsExact(b: Balances, direction: Direction, parts: Amounts)
    requires b.Consistent() && parts.NonNegative()
    ensures Bump(b, direction, parts).Success? <==> direction.In? || Covers(b, parts)
    ensures Bump(b, direction, parts).Success? ==>
              && Bump(b, direction, parts).value == b.Plus(Signed(direction, parts))
              && Bump(b, direction, parts).value.Consistent()
  {
  }

  /** The exception is reachable from every ledger without SHU, the opening one among them, and for every
      amount: earn it, spend it in full, and then rebook the income as it is. */
  lemma SpentIncomeCannotBeRebooked(b: Books, categories: map<nat, Source>, category: nat, loan: nat, amount: int)
    requires LedgerInv(b) && b.balances.shu == 0
    requires category in categories && amount > 0
    ensures var earned := Earned(b, AdminFee(loan), amount, 0);
            && earned.Success?
            && var spent := Posted(earned.value, categories, category, amount, Some(FromShu), 0);
            && spent.Success?
            && Reearned(spent.value, |b.incomes|, amount, Shu, None).Failure?
            && InPlace(spent.value, IncomeOwner(|b.incomes|), Amounts(amount, 0)).Success?
  {
    EarnedOutcome(b, AdminFee(loan), amount, 0);
    var earned := Earned(b, AdminFee(loan), amount, 0).value;
    SpendingIsRecording(earned, categories, category, amount);
    RecordedExpense(earned, Expense(category, Amounts(amount, 0), Some(FromShu), 0));
    SpentIncome(Posted(earned, categories, category, amount, Some(FromShu), 0).value, |b.incomes|, amount);
  }

  lemma SpendingIsRecording(b: Books, categories: map<nat, Source>, category: nat, amount: int)
    requires category in categories && b.balances.shu == amount && amount > 0
    ensures Posted(b, categories, category, amount, Some(FromShu), 0) ==
            Record(WithExpense(b, Expense(category, Amounts(amount, 0), Some(FromShu), 0)), ExpenseOwner(|b.expenses|),
                   Amounts(amount, 0), 0)
  {
  }

  lemma SpentIncome(b: Books, id: nat, amount: int)
    requires LedgerInv(b) && b.balances.shu == 0 && amount > 0
    requires id < |b.incomes| && b.incomes[id].Some? && b.incomes[id].value.Parts() == Amounts(amount, 0)
    ensures Reearned(b, id, amount, Shu, None).Failure?
    ensures InPlace(b, IncomeOwner(id), Amounts(amount, 0)).Success?
  {
    ReearnedOutcome(b, id, amount, Shu, None);
    assert Current(b, IncomeOwner(id)) == Some(Amounts(amount, 0));
    assert Booked(b.rows, IncomeOwner(id), Amounts(amount, 0));
  }

  // ----- deleting

  /** The balances after deleting, one by one in id order, the rows of `o` among the first `n`. */
  function DeleteEach(b: Balances, rows: seq<Row>, o: Owner, n: nat): Result<Balances>
    requires n <= |rows|
  {
    if n == 0 then Success(b)
    else
      var before :- DeleteEach(b, rows, o, n - 1);
      if rows[n - 1].owner == Some(o) then DeleteTrigger(before, rows[n - 1]) else Success(before)
  }

  ghost function NetTo(rows: seq<Row>, o: Owner, n: nat): Amounts
    requires n <= |rows|
  {
    Amounts(SumTo(rows, ShuOf(NetOf(o)), n), SumTo(rows, CapitalOf(NetOf(o)), n))
  }

  /** The buckets cover what every prefix of the rows of `o` nets to. */
  ghost predicate PrefixesCovered(b: Balances, rows: seq<Row>, o: Owner, n: nat)
    requires n <= |rows|
  {
    forall m :: 0 <= m <= n ==> Covers(b, NetTo(rows, o, m))
  }

  lemma OnePrefixMore(b: Balances, rows: seq<Row>, o: Owner, n: nat)
    requires 0 < n <= |rows|
    ensures PrefixesCovered(b, rows, o, n) <==> PrefixesCovered(b, rows, o, n - 1) && Covers(b, NetTo(rows, o, n))
    ensures NetTo(rows, o, n) == NetTo(rows, o, n - 1).Plus(NetOf(o)(rows[n - 1]))
  {
  }

  /** `after` is what is left once `net` has been taken out. */
  ghost predicate Nets(start: Balances, after: Balances, net: Amounts) {
    after.Consistent() && after.shu == start.shu - net.shu && after.capital == start.capital - net.capital
  }

  lemma DeleteOneNets(start: Balances, before: Balances, row: Row, o: Owner, net: Amounts)
    requires Nets(start, before, net) && row.parts.NonNegative()
    ensures var after := if row.owner == Some(o) then DeleteTrigger(before, row) else Success(before);
            && (after.Success? <==> Covers(start, net.Plus(NetOf(o)(row))))
            && (after.Success? ==> Nets(start, after.value, net.Plus(NetOf(o)(row))))
  {
    BumpIsExact(before, row.direction.Opposite(), row.parts);
  }

  /** Deleting row by row nets the rows, and goes through if and only if no prefix nets to more than the buckets
      hold. */
  lemma {:induction false} DeleteEachNets(b: Books, o: Owner, n: nat)
    requires b.balances.Consistent() && AllSound(b) && n <= |b.rows|
    ensures DeleteEach(b.balances, b.rows, o, n).Success? <==> PrefixesCovered(b.balances, b.rows, o, n)
    ensures DeleteEach(b.balances, b.rows, o, n).Success? ==>
              Nets(b.balances, DeleteEach(b.balances, b.rows, o, n).value, NetTo(b.rows, o, n))
  {
    if n > 0 {
      DeleteEachNets(b, o, n - 1);
      OnePrefixMore(b.balances, b.rows, o, n);
      assert RowSound(b, b.rows[n - 1]);
      var before := DeleteEach(b.balances, b.rows, o, n - 1);
      if before.Success? {
        DeleteOneNets(b.balances, before.value, b.rows[n - 1], o, NetTo(b.rows, o, n - 1));
      }
    }
  }

  /** Wherever the old per-row deletion goes through, the netting loop does too, with the same balances. */
  lemma {:induction false} NettingRefinesDeleteEach(b: Books, o: Owner)
    requires LedgerInv(b) && Current(b, o).Some?
    requires DeleteEach(b.balances, b.rows, o, |b.rows|).Success?
    ensures Unbook(b, o).Success?
    ensures Unbook(b, o).value.balances == DeleteEach(b.balances, b.rows, o, |b.rows|).value
  {
    DeleteEachNets(b, o, |b.rows|);
    UnbookOutcome(b, o);
    assert Booked(b.rows, o, Current(b, o).value);
  }

  lemma NetToSame(was: seq<Row>, now: seq<Row>, o: Owner, n: nat)
    requires n <= |was| && n <= |now|
    requires forall i :: 0 <= i < n ==>
               SameEntry(was[i], now[i]) && (was[i].owner == Some(o) <==> now[i].owner == Some(o))
    ensures NetTo(now, o, n) == NetTo(was, o, n)
  {
    SumToPointwise(now, was, ShuOf(NetOf(o)), ShuOf(NetOf(o)), 0, n);
    SumToPointwise(now, was, CapitalOf(NetOf(o)), CapitalOf(NetOf(o)), 0, n);
  }

  /** Netting accepts more: an income that was earned and then lowered can be removed, where deleting its rows one
      by one stops at the first, which the bucket no longer covers. */
  lemma LoweredIncomeNeedsNetting(b: Books, loan: nat, amount: int, lowered: int)
    requires LedgerInv(b) && b.balances.shu == 0 && 0 < lowered < amount
    ensures var earned := Earned(b, AdminFee(loan), amount, 0);
            && earned.Success?
            && var cut := Reearned(earned.value, |b.incomes|, lowered, Shu, None);
            && cut.Success?
            && Unearned(cut.value, |b.incomes|).Success?
            && DeleteEach(cut.value.balances, cut.value.rows, IncomeOwner(|b.incomes|), |cut.value.rows|).Failure?
  {
    var id := |b.incomes|;
    EarnedOutcome(b, AdminFee(loan), amount, 0);
    var earned := Earned(b, AdminFee(loan), amount, 0).value;
    ReearnedOutcome(earned, id, lowered, Shu, None);
    LoweredIncomeFirstRows(earned, id, amount, lowered);
    var cut := Reearned(earned, id, lowered, Shu, None).value;
    DeleteEachNets(cut, IncomeOwner(id), |cut.rows|);
    UnearnedOutcome(cut, id);
  }

  lemma LoweredIncomeFirstRows(earned: Books, id: nat, amount: int, lowered: int)
    requires LedgerInv(earned) && id < |earned.incomes| && Current(earned, IncomeOwner(id)) == Some(Amounts(amount, 0))
    requires Reearned(earned, id, lowered, Shu, None).Success?
    ensures var cut := Reearned(earned, id, lowered, Shu, None).value;
            && id < |cut.incomes| && cut.incomes[id].Some? && cut.incomes[id].value.Parts() == Amounts(lowered, 0)
            && |earned.rows| <= |cut.rows|
            && NetTo(cut.rows, IncomeOwner(id), |earned.rows|) == Amounts(amount, 0)
  {
    var o := IncomeOwner(id);
    var income := earned.incomes[id].value.(amount := lowered, bucket := Shu);
    RebookWritesPair(earned.(incomes := earned.incomes[id := Some(income)]), o, income.Parts(), None);
    var cut := Reearned(earned, id, lowered, Shu, None).value;
    NetToSame(earned.rows, cut.rows, o, |earned.rows|);
    assert Booked(earned.rows, o, Amounts(amount, 0));
  }

  /** No prefix of an expense's rows nets to an inflow. */
  ghost predicate NeverAhead(rows: seq<Row>) {
    forall e: nat, n: nat :: n <= |rows| ==> Covers(Balances(0, 0, 0), NetTo(rows, ExpenseOwner(e), n))
  }

  lemma AppendNeverAhead(rows: seq<Row>, row: Row)
    requires NeverAhead(rows)
    requires forall e: nat :: row.owner == Some(ExpenseOwner(e)) ==>
               Covers(Balances(0, 0, 0), NetTo(rows, ExpenseOwner(e), |rows|).Plus(row.Effect()))
    ensures NeverAhead(rows + [row])
  {
    var now := rows + [row];
    forall e: nat, n: nat | n <= |now|
      ensures Covers(Balances(0, 0, 0), NetTo(now, ExpenseOwner(e), n))
    {
      NetToSame(rows, now, ExpenseOwner(e), if n <= |rows| then n else |rows|);
      assert Covers(Balances(0, 0, 0), NetTo(rows, ExpenseOwner(e), if n <= |rows| then n else |rows|));
    }
  }

  lemma FlagsNeverAhead(was: seq<Row>, now: seq<Row>)
    requires NeverAhead(was) && |now| == |was|
    requires forall i :: 0 <= i < |was| ==> SameEntry(was[i], now[i])
    requires forall i :: 0 <= i < |was| ==> now[i].owner == was[i].owner
    ensures NeverAhead(now)
  {
    forall e: nat, n: nat | n <= |now|
      ensures Covers(Balances(0, 0, 0), NetTo(now, ExpenseOwner(e), n))
    {
      NetToSame(was, now, ExpenseOwner(e), n);
    }
  }

  lemma UnlinkNeverAhead(rows: seq<Row>, o: Owner)
    requires NeverAhead(rows)
    ensures NeverAhead(WithoutOwner(rows, o))
  {
    var now := WithoutOwner(rows, o);
    forall e: nat, n: nat | n <= |now|
      ensures Covers(Balances(0, 0, 0), NetTo(now, ExpenseOwner(e), n))
    {
      if o == ExpenseOwner(e) {
        SumBounds(now, ShuOf(NetOf(o)), 0, 0, n);
        SumBounds(now, CapitalOf(NetOf(o)), 0, 0, n);
      } else {
        NetToSame(rows, now, ExpenseOwner(e), n);
      }
    }
  }

  lemma RecordNeverAhead(b: Books, o: Owner, parts: Amounts, date: int)
    requires NeverAhead(b.rows) && parts.NonNegative() && Record(b, o, parts, date).Success?
    ensures NeverAhead(Record(b, o, parts, date).value.rows)
  {
    forall e: nat | o == ExpenseOwner(e)
      ensures Covers(Balances(0, 0, 0), NetTo(b.rows, o, |b.rows|))
    {
    }
    AppendNeverAhead(b.rows, NewRow(b.balances, date, o.Natural(), parts, o, None));
  }

  lemma RebookNeverAhead(b: Books, o: Owner, parts: Amounts, date: Option<int>, was: Amounts)
    requires NeverAhead(b.rows) && Booked(b.rows, o, was) && parts.NonNegative() && was.NonNegative()
    requires Rebook(b, o, parts, date).Success?
    ensures NeverAhead(Rebook(b, o, parts, date).value.rows)
  {
    var k := FindLatestActive(b.rows, o).value;
    var reversal := Reversal(b.balances, o, k, b.rows[k]);
    var entry := Replacement(reversal, o, parts, DateOr(date, b.rows[k].txnDate));
    var hidden := SoftDelete(b.rows, k);
    FlagsNeverAhead(b.rows, hidden);
    NetToSame(b.rows, hidden, o, |hidden|);
    AppendNeverAhead(hidden, reversal);
    SumAmountsAppend(hidden, reversal, NetOf(o));
    AppendNeverAhead(hidden + [reversal], entry);
    assert Rebook(b, o, parts, date).value.rows == hidden + [reversal] + [entry];
  }

  lemma StepNeverAhead(b: Books, categories: map<nat, Source>, step: LedgerStep)
    requires LedgerInv(b) && NeverAhead(b.rows)
    ensures NeverAhead(After(b, categories, step).rows)
  {
    if Take(b, categories, step).Success? {
      match step
      case PostIncome(origin, amount, date) =>
        var income := Income(origin, amount, origin.Destination());
        EarnedOutcome(b, origin, amount, date);
        RecordNeverAhead(WithIncome(b, income), IncomeOwner(|b.incomes|), income.Parts(), date);
      case EditIncome(id, amount, bucket, newDate) =>
        var income := b.incomes[id].value.(amount := amount, bucket := bucket);
        ReearnedOutcome(b, id, amount, bucket, newDate);
        CurrentIsSound(b, IncomeOwner(id));
        RebookNeverAhead(b.(incomes := b.incomes[id := Some(income)]), IncomeOwner(id), income.Parts(), newDate,
                         b.incomes[id].value.Parts());
      case DropIncome(id) => UnlinkNeverAhead(b.rows, IncomeOwner(id));
      case PostExpense(category, amount, source, date) =>
        var effective := if source.Some? then source.value else categories[category];
        AllocationIsOptimal(amount, effective, Available(b.balances));
        var parts := Allocate(amount, effective, Available(b.balances)).value;
        RecordNeverAhead(WithExpense(b, Expense(category, parts, Some(effective), date)), ExpenseOwner(|b.expenses|),
                         parts, date);
      case EditExpense(id, change) => EditNeverAhead(b, categories, id, change);
      case DropExpense(id) => UnlinkNeverAhead(b.rows, ExpenseOwner(id));
    }
  }

  lemma EditNeverAhead(b: Books, categories: map<nat, Source>, id: nat, change: ExpenseChange)
    requires LedgerInv(b) && NeverAhead(b.rows) && Updated(b, categories, id, change).Success?
    ensures NeverAhead(Updated(b, categories, id, change).value.rows)
  {
    NewPartsOutcome(b, categories, id, change);
    var parts := NewParts(b, categories, b.expenses[id].value, change).value;
    if change.amount.Some? || change.txnDate.Some? {
      var amended := Amended(b.expenses[id].value, parts, change);
      CurrentIsSound(b, ExpenseOwner(id));
      assert Current(b, ExpenseOwner(id)) == Some(b.expenses[id].value.parts);
      RebookNeverAhead(b.(expenses := b.expenses[id := Some(amended)]), ExpenseOwner(id), parts, change.txnDate,
                       b.expenses[id].value.parts);
    }
  }

  lemma {:induction false} EveryRunNeverAhead(categories: map<nat, Source>, steps: seq<LedgerStep>)
    ensures NeverAhead(Run(categories, steps).rows)
  {
    if steps != [] {
      var earlier := steps[..|steps| - 1];
      EveryRunNeverAhead(categories, earlier);
      EveryRunKeepsLedger(categories, earlier);
      StepNeverAhead(Run(categories, earlier), categories, steps[|steps| - 1]);
    }
  }

  /** For an expense the two forms agree outright, in every reachable state. */
  lemma {:induction false} DeletingAnExpenseRefinesDeleteEach(categories: map<nat, Source>, steps: seq<LedgerStep>,
                                                              id: nat)
    requires IsLive(Run(categories, steps), id)
    ensures var b := Run(categories, steps);
            var each := DeleteEach(b.balances, b.rows, ExpenseOwner(id), |b.rows|);
            each.Success? && Deleted(b, id).Success? && Deleted(b, id).value.balances == each.value
  {
    var b, o := Run(categories, steps), ExpenseOwner(id);
    EveryRunKeepsLedger(categories, steps);
    EveryRunNeverAhead(categories, steps);
    DeleteEachNets(b, o, |b.rows|);
    forall m: nat | m <= |b.rows|
      ensures Covers(b.balances, NetTo(b.rows, o, m))
    {
      assert Covers(Balances(0, 0, 0), NetTo(b.rows, o, m));
    }
    NettingRefinesDeleteEach(b, o);
  }
}
