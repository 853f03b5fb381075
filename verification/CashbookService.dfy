/** `CashbookTransactionService`: reads the balances, computes the snapshots, and writes the rows.
    Every method runs inside the caller's transaction, which is rolled back on failure. */
module CashbookService {
  import opened Basics
  import opened Schema
  import opened CashbookTriggers
  import opened CashbookLedger

  method CreateIncomeTransaction(trx: Database, incomeId: nat, amount: int, destination: Bucket, txnDate: int)
    returns (r: Result<nat>)
    modifies trx`balances, trx`rows
    ensures Follows(r, trx.Cashbook(),
                    Record(old(trx.Cashbook()), IncomeOwner(incomeId), Into(destination, amount), txnDate))
  {
    var shuBefore, capitalBefore, totalBefore := trx.balances.shu, trx.balances.capital, trx.balances.total;
    var shuAmount := if destination.Shu? then amount else 0;
    var capitalAmount := if destination.Capital? then amount else 0;
    var shuAfter := shuBefore + shuAmount;
    var capitalAfter := capitalBefore + capitalAmount;
    var totalAfter := totalBefore + amount;
    r := CreateTransaction(trx, Row(
      txnDate, In, Amounts(shuAmount, capitalAmount),
      Balances(shuBefore, capitalBefore, totalBefore), Balances(shuAfter, capitalAfter, totalAfter),
      Some(IncomeOwner(incomeId)), false, None, false));
  }

  method CreateExpenseTransaction(trx: Database, expenseId: nat, shuAmount: int, capitalAmount: int, txnDate: int)
    returns (r: Result<nat>)
    modifies trx`balances, trx`rows
    ensures Follows(r, trx.Cashbook(),
                    Record(old(trx.Cashbook()), ExpenseOwner(expenseId), Amounts(shuAmount, capitalAmount), txnDate))
  {
    var totalAmount := shuAmount + capitalAmount;
    var shuBefore, capitalBefore, totalBefore := trx.balances.shu, trx.balances.capital, trx.balances.total;
    var shuAfter := shuBefore - shuAmount;
    var capitalAfter := capitalBefore - capitalAmount;
    var totalAfter := totalBefore - totalAmount;
    r := CreateTransaction(trx, Row(
      txnDate, Out, Amounts(shuAmount, capitalAmount),
      Balances(shuBefore, capitalBefore, totalBefore), Balances(shuAfter, capitalAfter, totalAfter),
      Some(ExpenseOwner(expenseId)), false, None, false));
  }

  method UpdateExpenseTransaction(trx: Database, expenseId: nat, newShu: int, newCapital: int, txnDate: Option<int>)
    returns (r: Result<()>)
    modifies trx`balances, trx`rows
    ensures Follows(r, trx.Cashbook(),
                    Rebook(old(trx.Cashbook()), ExpenseOwner(expenseId), Amounts(newShu, newCapital), txnDate))
  {
    var o := ExpenseOwner(expenseId);
    var found := FindLatestActive(trx.rows, o);
    if found.None? {
      return Failure(MissingCashbookRow);
    }
    var k := found.value;
    var original := trx.rows[k];
    var oldShu, oldCapital := original.parts.shu, original.parts.capital;
    var current := trx.balances;
    // the old amounts are added back, then the new ones deducted
    var reversed := Balances(
      current.shu + oldShu, current.capital + oldCapital, current.total + (oldShu + oldCapital));
    var renewed := Balances(
      reversed.shu - newShu, reversed.capital - newCapital, reversed.total - (newShu + newCapital));
    UpdateRow(trx, k, original.(deleted := true));
    r := InsertPair(trx,
      Row(original.txnDate, In, Amounts(oldShu, oldCapital), current, reversed, Some(o), true, Some(k), false),
      Row(DateOr(txnDate, original.txnDate), Out, Amounts(newShu, newCapital), reversed, renewed, Some(o),
          false, None, false));
  }

  method UpdateIncomeTransaction(trx: Database, incomeId: nat, amount: int, destination: Bucket, txnDate: Option<int>)
    returns (r: Result<()>)
    modifies trx`balances, trx`rows
    ensures Follows(r, trx.Cashbook(),
                    Rebook(old(trx.Cashbook()), IncomeOwner(incomeId), Into(destination, amount), txnDate))
  {
    var o := IncomeOwner(incomeId);
    var found := FindLatestActive(trx.rows, o);
    if found.None? {
      return Failure(MissingCashbookRow);
    }
    var k := found.value;
    var original := trx.rows[k];
    var oldShu, oldCapital := original.parts.shu, original.parts.capital;
    var current := trx.balances;
    // the old amounts are deducted, then the new amount added
    var reversed := Balances(
      current.shu - oldShu, current.capital - oldCapital, current.total - (oldShu + oldCapital));
    var newShu := if destination.Shu? then amount else 0;
    var newCapital := if destination.Capital? then amount else 0;
    var renewed := Balances(reversed.shu + newShu, reversed.capital + newCapital, reversed.total + amount);
    UpdateRow(trx, k, original.(deleted := true));
    r := InsertPair(trx,
      Row(original.txnDate, Out, Amounts(oldShu, oldCapital), current, reversed, Some(o), true, Some(k), false),
      Row(DateOr(txnDate, original.txnDate), In, Amounts(newShu, newCapital), reversed, renewed, Some(o),
          false, None, false));
  }

  method InsertPair(trx: Database, reversal: Row, entry: Row) returns (r: Result<()>)
    modifies trx`balances, trx`rows
    ensures var reversed := InsertRow(old(trx.Cashbook()), reversal);
            Follows(r, trx.Cashbook(), if reversed.Success? then InsertRow(reversed.value, entry) else reversed)
  {
    var _ :- CreateTransaction(trx, reversal);
    var _ :- CreateTransaction(trx, entry);
    r := Success(());
  }

  ghost predicate AllHidden(was: seq<Row>, now: seq<Row>, o: Owner) {
    |now| == |was| && forall j :: 0 <= j < |now| ==> now[j] == HiddenRow(was[j], o)
  }

  ghost predicate AllUnlinked(was: seq<Row>, now: seq<Row>, o: Owner) {
    |now| == |was| && forall j :: 0 <= j < |now| ==> now[j] == UnlinkedRow(was[j], o)
  }

  /** `deleteExpenseTransaction` and `deleteIncomeTransaction`: net all linked rows, hidden ones included,
      take the net back out of the balances, and hide the rows. */
  method DeleteTransaction(trx: Database, o: Owner) returns (r: Result<()>)
    modifies trx`balances, trx`rows
    ensures var spec := Unbook(old(trx.Cashbook()), o);
            && (r.Success? <==> spec.Success?)
            && (r.Success? ==> trx.balances == spec.value.balances)
            && (r.Success? ==> AllHidden(old(trx.rows), trx.rows, o))
            && (r.Failure? ==> r.error == spec.error)
  {
    var netShu, netCapital := NetLinkedRows(trx, o);
    var _ :- TakeBackNet(trx, netShu, netCapital);
    HideLinkedRows(trx, o);
    r := Success(());
  }

  method TakeBackNet(trx: Database, netShu: int, netCapital: int) returns (r: Result<()>)
    modifies trx`balances
    ensures Follows(r, trx.balances, TakeBack(old(trx.balances), Amounts(netShu, netCapital)))
  {
    var _ :- AdjustUnlessZero(trx, ShuBalance, -netShu);
    var _ :- AdjustUnlessZero(trx, CapitalBalance, -netCapital);
    var netTotal := netShu + netCapital;
    r := AdjustUnlessZero(trx, TotalBalance, -netTotal);
  }

  method AdjustUnlessZero(trx: Database, kind: BalanceType, delta: int) returns (r: Result<()>)
    modifies trx`balances
    ensures r.Success? <==> delta == 0 || BalanceAt(old(trx.balances), kind) + delta >= 0
    ensures r.Success? ==> trx.balances == Adjusted(old(trx.balances), kind, delta)
    ensures r.Failure? ==> r.error == NegativeBalance
  {
    if delta != 0 {
      r := AdjustBalance(trx, kind, delta);
    } else {
      r := Success(());
    }
  }

  method NetLinkedRows(trx: Database, o: Owner) returns (netShu: int, netCapital: int)
    ensures Amounts(netShu, netCapital) == SumAmounts(trx.rows, NetOf(o))
  {
    netShu, netCapital := 0, 0;
    for i := 0 to |trx.rows|
      invariant netShu == SumTo(trx.rows, ShuOf(NetOf(o)), i)
      invariant netCapital == SumTo(trx.rows, CapitalOf(NetOf(o)), i)
    {
      var row := trx.rows[i];
      if row.owner == Some(o) {
        var sign := if row.direction.Out? then -1 else 1;
        netShu := netShu + sign * row.parts.shu;
        netCapital := netCapital + sign * row.parts.capital;
      }
    }
  }

  /** UPDATE ... SET deleted_at WHERE the row is linked to `o` AND deleted_at IS NULL. */
  method HideLinkedRows(trx: Database, o: Owner)
    modifies trx`balances, trx`rows
    ensures trx.balances == old(trx.balances) && AllHidden(old(trx.rows), trx.rows, o)
  {
    for i := 0 to |trx.rows|
      invariant trx.balances == old(trx.balances)
      invariant |trx.rows| == |old(trx.rows)|
      invariant forall j :: 0 <= j < i ==> trx.rows[j] == HiddenRow(old(trx.rows)[j], o)
      invariant forall j :: i <= j < |trx.rows| ==> trx.rows[j] == old(trx.rows)[j]
    {
      if trx.rows[i].owner == Some(o) && !trx.rows[i].deleted {
        UpdateRow(trx, i, trx.rows[i].(deleted := true));
      }
    }
  }

  /** The foreign key's ON DELETE SET NULL. Unlinking is an UPDATE too, so the update trigger fires. */
  method UnlinkRows(trx: Database, o: Owner)
    modifies trx`balances, trx`rows
    ensures trx.Cashbook() == old(trx.Cashbook()).(rows := trx.rows) && AllUnlinked(old(trx.rows), trx.rows, o)
  {
    for i := 0 to |trx.rows|
      invariant trx.balances == old(trx.balances)
      invariant |trx.rows| == |old(trx.rows)|
      invariant forall j :: 0 <= j < i ==> trx.rows[j] == UnlinkedRow(old(trx.rows)[j], o)
      invariant forall j :: i <= j < |trx.rows| ==> trx.rows[j] == old(trx.rows)[j]
    {
      if trx.rows[i].owner == Some(o) {
        UpdateRow(trx, i, trx.rows[i].(owner := None));
      }
    }
  }

  /** The service's deletion followed by the foreign key's: together they unbook the owner. */
  method DeleteAndUnlink(trx: Database, o: Owner) returns (r: Result<()>)
    modifies trx`balances, trx`rows
    ensures Follows(r, trx.Cashbook(), Unbook(old(trx.Cashbook()), o))
  {
    ghost var rows := trx.rows;
    r := DeleteTransaction(trx, o);
    if r.Success? {
      UnlinkRows(trx, o);
      assert trx.rows == WithoutOwner(rows, o);
    }
  }
}
