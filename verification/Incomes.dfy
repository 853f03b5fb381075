/** `IncomesService` together with the cashbook entry every caller makes right after it. */
module Incomes {
  import opened Basics
  import opened Schema
  import opened CashbookTriggers
  import opened CashbookLedger
  import opened CashbookService

  /** An `incomes` row and its cashbook row. */
  function Earned(b: Books, origin: Origin, amount: int, txnDate: int): Result<Books> {
    var income := Income(origin, amount, origin.Destination());
    Record(WithIncome(b, income), IncomeOwner(|b.incomes|), income.Parts(), txnDate)
  }

  function WithIncome(b: Books, income: Income): Books {
    b.(incomes := b.incomes + [Some(income)])
  }

  /** An income's amount and bucket changed, as `updateIncomeTransaction` books it. */
  function Reearned(b: Books, id: nat, amount: int, bucket: Bucket, txnDate: Option<int>): Result<Books> {
    if id >= |b.incomes| || b.incomes[id].None? then Failure(NotFound)
    else
      var income := b.incomes[id].value.(amount := amount, bucket := bucket);
      Rebook(b.(incomes := b.incomes[id := Some(income)]), IncomeOwner(id), income.Parts(), txnDate)
  }

  /** An income removed, as `deleteIncomeTransaction` and the foreign key book it. */
  ghost function Unearned(b: Books, id: nat): Result<Books> {
    if id >= |b.incomes| || b.incomes[id].None? then Failure(NotFound)
    else
      var unbooked :- Unbook(b, IncomeOwner(id));
      Success(unbooked.(incomes := unbooked.incomes[id := None]))
  }

  predicate Covers(b: Balances, parts: Amounts) { parts.shu <= b.shu && parts.capital <= b.capital }

  /** Only the amounts CHECK can refuse an income. */
  lemma EarnedOutcome(b: Books, origin: Origin, amount: int, txnDate: int)
    requires LedgerInv(b)
    ensures Earned(b, origin, amount, txnDate).Success? <==> amount > 0
    ensures amount > 0 ==>
              var now := Earned(b, origin, amount, txnDate).value;
              && LedgerInv(now)
              && now.balances == b.balances.Plus(Into(origin.Destination(), amount))
              && now.incomes == b.incomes + [Some(Income(origin, amount, origin.Destination()))]
              && now.expenses == b.expenses
              && |now.rows| == |b.rows| + 1 && AddsDated(b, now, txnDate)
  {
    var o := IncomeOwner(|b.incomes|);
    var income := Income(origin, amount, origin.Destination());
    var grown := WithIncome(b, income);
    if amount > 0 {
      assert forall other :: other != o ==> Current(grown, other) == Current(b, other);
      SoundRowIsExact(b.balances, NewRow(b.balances, txnDate, In, income.Parts(), o, None));
      RecordKeepsInvariant(b, grown, o, income.Parts(), txnDate);
    }
  }

  /** Changing an income goes through exactly when its OLD amount is still there to be reversed, however
      large the new amount is. */
  lemma ReearnedOutcome(b: Books, id: nat, amount: int, bucket: Bucket, txnDate: Option<int>)
    requires LedgerInv(b) && id < |b.incomes| && b.incomes[id].Some?
    ensures var was := b.incomes[id].value.Parts();
            Reearned(b, id, amount, bucket, txnDate).Success? <==> amount > 0 && Covers(b.balances, was)
    ensures Reearned(b, id, amount, bucket, txnDate).Success? ==>
              var now := Reearned(b, id, amount, bucket, txnDate).value;
              && LedgerInv(now)
              && now.balances == b.balances.Plus(Signed(Out, b.incomes[id].value.Parts())).Plus(Into(bucket, amount))
              && now.incomes == b.incomes[id := Some(Income(b.incomes[id].value.origin, amount, bucket))]
              && now.expenses == b.expenses
  {
    var o := IncomeOwner(id);
    var income := b.incomes[id].value.(amount := amount, bucket := bucket);
    var grown := b.(incomes := b.incomes[id := Some(income)]);
    assert Current(b, o) == Some(b.incomes[id].value.Parts());
    assert forall other :: other != o ==> Current(grown, other) == Current(b, other);
    assert Rebook(grown, o, income.Parts(), txnDate).Success? <==> Rebook(b, o, income.Parts(), txnDate).Success?;
    if amount > 0 {
      RebookOutcome(b, o, income.Parts(), txnDate);
      if Covers(b.balances, b.incomes[id].value.Parts()) {
        RebookKeepsInvariant(b, grown, o, income.Parts(), txnDate);
      }
    } else {
      RebookNeedsPositive(b, o, income.Parts(), txnDate);
    }
  }

  /** Its new entry has the date given, or else that of the entry it replaces. */
  lemma ReearnedIsDated(b: Books, id: nat, amount: int, bucket: Bucket, txnDate: Option<int>)
    requires Reearned(b, id, amount, bucket, txnDate).Success?
    ensures var k, now := FindLatestActive(b.rows, IncomeOwner(id)), Reearned(b, id, amount, bucket, txnDate).value;
            && k.Some? && |now.rows| == |b.rows| + 2
            && now.rows[|b.rows| + 1].txnDate == (if txnDate.Some? then txnDate.value else b.rows[k.value].txnDate)
  {
    var income := b.incomes[id].value.(amount := amount, bucket := bucket);
    RebookWritesPair(b.(incomes := b.incomes[id := Some(income)]), IncomeOwner(id), income.Parts(), txnDate);
  }

  lemma RebookNeedsPositive(b: Books, o: Owner, parts: Amounts, txnDate: Option<int>)
    requires !parts.Positive()
    ensures Rebook(b, o, parts, txnDate).Failure?
  {
  }

  /** Removing an income goes through exactly when its amount has not been spent. */
  lemma UnearnedOutcome(b: Books, id: nat)
    requires LedgerInv(b) && id < |b.incomes| && b.incomes[id].Some?
    ensures Unearned(b, id).Success? <==> Covers(b.balances, b.incomes[id].value.Parts())
    ensures Unearned(b, id).Success? ==>
              var now := Unearned(b, id).value;
              && LedgerInv(now)
              && now.balances == b.balances.Plus(Signed(Out, b.incomes[id].value.Parts()))
              && now.incomes == b.incomes[id := None] && now.expenses == b.expenses
  {
    var o := IncomeOwner(id);
    assert Current(b, o) == Some(b.incomes[id].value.Parts());
    UnbookOutcome(b, o);
    if Covers(b.balances, b.incomes[id].value.Parts()) {
      var now := Unearned(b, id).value;
      assert forall other :: other != o ==> Current(now, other) == Current(b, other);
      UnbookKeepsInvariant(b, now, o);
    }
  }

  /** INSERT INTO incomes, then `createIncomeTransaction`. */
  method RecordIncome(trx: Database, origin: Origin, amount: int, txnDate: int) returns (r: Result<()>)
    modifies trx`balances, trx`rows, trx`incomes
    ensures Follows(r, trx.Cashbook(), Earned(old(trx.Cashbook()), origin, amount, txnDate))
  {
    var id := |trx.incomes|;
    trx.incomes := trx.incomes + [Some(Income(origin, amount, origin.Destination()))];
    var _ :- CreateIncomeTransaction(trx, id, amount, origin.Destination(), txnDate);
    r := Success(());
  }
}
