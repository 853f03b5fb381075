/** The triggers on `cashbook_transactions` and the CHECKs they meet.
    Each trigger body is a method; the function beside it says what the body amounts to. */
module CashbookTriggers {
  import opened Basics
  import opened Schema

  // ----- what the triggers amount to

  /** One signed movement: a part that is not positive is skipped in its own bucket but not in the total. */
  function Bump(b: Balances, direction: Direction, parts: Amounts): Result<Balances> {
    var signed := Signed(direction, parts);
    var shu := if parts.shu > 0 then b.shu + signed.shu else b.shu;
    var capital := if parts.capital > 0 then b.capital + signed.capital else b.capital;
    var total := b.total + (signed.shu + signed.capital);
    if (parts.shu > 0 && shu < 0) || (parts.capital > 0 && capital < 0) || total < 0
    then Failure(NegativeBalance)
    else Success(Balances(shu, capital, total))
  }

  function InsertTrigger(b: Balances, row: Row): Result<Balances> {
    if row.direction.Out? && row.parts.shu > 0 && b.shu < row.parts.shu then Failure(InsufficientShu)
    else if row.direction.Out? && row.parts.capital > 0 && b.capital < row.parts.capital then
      Failure(InsufficientCapital)
    else Bump(b, row.direction, row.parts)
  }

  function UpdateTrigger(b: Balances, was: Row, now: Row): Result<Balances> {
    if was.parts == now.parts && was.direction == now.direction then Success(b)
    else
      var undone :- Bump(b, was.direction.Opposite(), was.parts);
      Bump(undone, now.direction, now.parts)
  }

  function DeleteTrigger(b: Balances, was: Row): Result<Balances> {
    Bump(b, was.direction.Opposite(), was.parts)
  }

  /** INSERT: the amounts CHECK, then the trigger. The row's index is its id. */
  function InsertRow(books: Books, row: Row): Result<Books> {
    if !row.parts.Positive() then Failure(AmountsNotPositive)
    else
      var after :- InsertTrigger(books.balances, row);
      Success(books.(balances := after, rows := books.rows + [row]))
  }

  lemma SoundRowIsExact(b: Balances, row: Row)
    requires b.Consistent() && row.parts.NonNegative()
    ensures InsertTrigger(b, row).Success? <==>
            row.direction.In? || (row.parts.shu <= b.shu && row.parts.capital <= b.capital)
    ensures InsertTrigger(b, row).Success? ==>
              InsertTrigger(b, row).value == b.Plus(row.Effect()) && InsertTrigger(b, row).value.Consistent()
  {
  }

  /** On parts that are not negative the trigger refuses exactly what a bucket cannot pay, and moves all three
      balances exactly. And on no others: any row it accepts keeps the total equal to its buckets if and only
      if neither part is negative. */
  lemma InsertTriggerIsExact(b: Balances, row: Row)
    requires b.Consistent()
    ensures row.parts.NonNegative() ==>
              (InsertTrigger(b, row).Success? <==>
               row.direction.In? || (row.parts.shu <= b.shu && row.parts.capital <= b.capital))
    ensures row.parts.NonNegative() && InsertTrigger(b, row).Failure? ==>
              InsertTrigger(b, row).error == if row.parts.shu > b.shu then InsufficientShu else InsufficientCapital
    ensures InsertTrigger(b, row).Success? ==>
              (InsertTrigger(b, row).value == b.Plus(row.Effect()) <==> row.parts.NonNegative())
    ensures InsertTrigger(b, row).Success? ==>
              (InsertTrigger(b, row).value.Consistent() <==> row.parts.NonNegative())
  {
  }

  /** The amounts CHECK does not exclude the failing case: a row with one negative part is accepted, and the
      total falls short of its buckets. */
  lemma NegativePartBreaksTheTotal()
    ensures var row := Row(0, In, Amounts(10, -4), OPENING, OPENING, None, false, None, false);
            InsertRow(Books(OPENING, [], [], []), row).Success? &&
            !InsertRow(Books(OPENING, [], [], []), row).value.balances.Consistent()
  {
    InsertTriggerIsExact(OPENING, Row(0, In, Amounts(10, -4), OPENING, OPENING, None, false, None, false));
  }

  // ----- the trigger bodies

  datatype BalanceType = ShuBalance | CapitalBalance | TotalBalance

  /** UPDATE cashbook_balances SET balance = balance + delta WHERE type = kind, under its CHECK.
      Also `CashbookBalanceRepository.adjustBalance`. */
  method AdjustBalance(db: Database, kind: BalanceType, delta: int) returns (r: Result<()>)
    modifies db`balances
    ensures r.Success? ==> db.balances == Adjusted(old(db.balances), kind, delta)
    ensures r.Success? <==> BalanceAt(old(db.balances), kind) + delta >= 0
    ensures r.Failure? ==> r.error == NegativeBalance && db.balances == old(db.balances)
  {
    if BalanceAt(db.balances, kind) + delta < 0 {
      return Failure(NegativeBalance);
    }
    db.balances := Adjusted(db.balances, kind, delta);
    return Success(());
  }

  function BalanceAt(b: Balances, kind: BalanceType): int {
    match kind
    case ShuBalance => b.shu
    case CapitalBalance => b.capital
    case TotalBalance => b.total
  }

  function Adjusted(b: Balances, kind: BalanceType, delta: int): Balances {
    match kind
    case ShuBalance => b.(shu := b.shu + delta)
    case CapitalBalance => b.(capital := b.capital + delta)
    case TotalBalance => b.(total := b.total + delta)
  }

  /** The three UPDATEs every trigger branch performs, adding (`In`) or deducting (`Out`). */
  method MoveBalances(db: Database, direction: Direction, parts: Amounts) returns (r: Result<()>)
    modifies db`balances
    ensures Follows(r, db.balances, Bump(old(db.balances), direction, parts))
  {
    var signed := Signed(direction, parts);
    if parts.shu > 0 {
      var shu := AdjustBalance(db, ShuBalance, signed.shu);
      if shu.Failure? {
        return shu;
      }
    }
    if parts.capital > 0 {
      var capital := AdjustBalance(db, CapitalBalance, signed.capital);
      if capital.Failure? {
        return capital;
      }
    }
    r := AdjustBalance(db, TotalBalance, signed.shu + signed.capital);
  }

  /** `cashbook_insert_balance`, with the guard added by the balance-guard migration. */
  method FireInsert(db: Database, new_: Row) returns (r: Result<()>)
    modifies db`balances
    ensures Follows(r, db.balances, InsertTrigger(old(db.balances), new_))
  {
    if new_.direction.In? {
      r := MoveBalances(db, In, new_.parts);
    } else {
      if new_.parts.shu > 0 {
        var currentShu := db.balances.shu;
        if currentShu < new_.parts.shu {
          return Failure(InsufficientShu);
        }
      }
      if new_.parts.capital > 0 {
        var currentCapital := db.balances.capital;
        if currentCapital < new_.parts.capital {
          return Failure(InsufficientCapital);
        }
      }
      r := MoveBalances(db, Out, new_.parts);
    }
  }

  /** `cashbook_update_balance`. */
  method FireUpdate(db: Database, was: Row, now: Row) returns (r: Result<()>)
    modifies db`balances
    ensures Follows(r, db.balances, UpdateTrigger(old(db.balances), was, now))
  {
    if was.parts.shu != now.parts.shu || was.parts.capital != now.parts.capital || was.direction != now.direction {
      if was.direction.In? {
        var _ :- MoveBalances(db, Out, was.parts);
      } else {
        var _ :- MoveBalances(db, In, was.parts);
      }
      r := MoveBalances(db, now.direction, now.parts);
    } else {
      r := Success(());
    }
  }

  /** `cashbook_delete_balance`. */
  method FireDelete(db: Database, was: Row) returns (r: Result<()>)
    modifies db`balances
    ensures Follows(r, db.balances, DeleteTrigger(old(db.balances), was))
  {
    if was.direction.In? {
      r := MoveBalances(db, Out, was.parts);
    } else {
      r := MoveBalances(db, In, was.parts);
    }
  }

  /** `CashbookTransactionRepository.createTransaction`; returns the new row's id. */
  method CreateTransaction(trx: Database, row: Row) returns (r: Result<nat>)
    modifies trx`balances, trx`rows
    ensures Follows(r, trx.Cashbook(), InsertRow(old(trx.Cashbook()), row))
    ensures r.Success? ==> r.value == |old(trx.rows)|
  {
    if !row.parts.Positive() {
      return Failure(AmountsNotPositive);
    }
    var id := |trx.rows|;
    trx.rows := trx.rows + [row];
    var _ :- FireInsert(trx, row);
    r := Success(id);
  }

  /** UPDATE of one cashbook row. Fires the update trigger, which is idle when amounts and direction stay. */
  method UpdateRow(trx: Database, id: nat, now: Row)
    requires id < |trx.rows|
    requires now.parts == trx.rows[id].parts && now.direction == trx.rows[id].direction
    modifies trx`balances, trx`rows
    ensures trx.balances == old(trx.balances) && trx.rows == old(trx.rows)[id := now]
  {
    var was := trx.rows[id];
    trx.rows := trx.rows[id := now];
    var fired := FireUpdate(trx, was, now);
    assert fired.Success?;
  }
}
