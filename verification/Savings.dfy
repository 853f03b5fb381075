/** Members' savings: generating the mandatory rows of a year, the joining deposit, and settling either. */
module Savings {
  import opened Basics
  import opened Schema
  import opened Incomes

  // ----- generation

  function DueSaving(user: nat, amount: int, year: int, month: nat): Saving {
    Saving(user, year, month, amount, false)
  }

  /** INSERT ... ON CONFLICT (user_id, period_date) DO NOTHING, for one row. */
  function InsertOrIgnore(table: seq<Saving>, record: Saving): seq<Saving> {
    if HasKey(table, record.Key()) then table else table + [record]
  }

  predicate HasKey(table: seq<Saving>, key: (nat, int, nat)) {
    exists i :: 0 <= i < |table| && table[i].Key() == key
  }

  function InsertAll(table: seq<Saving>, records: seq<Saving>): seq<Saving> {
    if records == [] then table
    else InsertOrIgnore(InsertAll(table, records[..|records| - 1]), records[|records| - 1])
  }

  /** An unpaid row of one of the users, for a month of the year from `startMonth` on. */
  predicate IsDueOf(r: Saving, users: seq<nat>, amount: int, year: int, startMonth: nat) {
    && r.user in users
    && r.year == year && startMonth <= r.month < 12
    && r.amount == amount && !r.paid
  }

  /** The batch: one due row for each user and each month from `startMonth` to December. */
  ghost predicate IsBatch(records: seq<Saving>, users: seq<nat>, amount: int, year: int, startMonth: nat) {
    && (forall r :: r in records ==> IsDueOf(r, users, amount, year, startMonth))
    && (forall user: nat, month: nat :: user in users && startMonth <= month < 12 ==>
          Saving(user, year, month, amount, false) in records)
  }

  /** No two rows for one user and month. */
  ghost predicate UniqueKeys(table: seq<Saving>) {
    forall i, j :: 0 <= i < |table| && 0 <= j < |table| && table[i].Key() == table[j].Key() ==> i == j
  }

  /** However often and in whatever order it runs, generation only adds: rows already there stay as they
      are, paid or not, a key is there afterwards exactly if it was before or is in the batch, and no key
      is there twice. */
  lemma {:induction false} InsertAllOnlyAdds(table: seq<Saving>, records: seq<Saving>)
    requires UniqueKeys(table)
    ensures UniqueKeys(InsertAll(table, records))
    ensures table <= InsertAll(table, records)
    ensures forall key :: HasKey(InsertAll(table, records), key) <==> HasKey(table, key) || HasKey(records, key)
    ensures forall i :: |table| <= i < |InsertAll(table, records)| ==> InsertAll(table, records)[i] in records
  {
    if records != [] {
      var earlier, last := records[..|records| - 1], records[|records| - 1];
      InsertAllOnlyAdds(table, earlier);
      var so := InsertAll(table, earlier);
      InsertOneAdds(so, last);
      assert records == earlier + [last];
      forall key
        ensures HasKey(records, key) <==> HasKey(earlier, key) || key == last.Key()
      {
        AppendedKey(earlier, last, key);
      }
    }
  }

  lemma AppendedKey(table: seq<Saving>, record: Saving, key: (nat, int, nat))
    ensures HasKey(table + [record], key) <==> HasKey(table, key) || key == record.Key()
  {
    if HasKey(table, key) {
      var i :| 0 <= i < |table| && table[i].Key() == key;
      assert (table + [record])[i].Key() == key;
    }
    assert (table + [record])[|table|] == record;
  }

  lemma InsertOneAdds(table: seq<Saving>, record: Saving)
    requires UniqueKeys(table)
    ensures UniqueKeys(InsertOrIgnore(table, record))
    ensures table <= InsertOrIgnore(table, record)
    ensures forall key :: HasKey(InsertOrIgnore(table, record), key) <==> HasKey(table, key) || key == record.Key()
  {
    forall key
      ensures HasKey(InsertOrIgnore(table, record), key) <==> HasKey(table, key) || key == record.Key()
    {
      AppendedKey(table, record, key);
    }
  }

  /** Inserting only known keys changes nothing. */
  lemma {:induction false} InsertKnown(table: seq<Saving>, records: seq<Saving>)
    requires forall r :: r in records ==> HasKey(table, r.Key())
    ensures InsertAll(table, records) == table
  {
    if records != [] {
      InsertKnown(table, records[..|records| - 1]);
      assert records[|records| - 1] in records;
    }
  }

  /** Running the same generation again is idle. */
  lemma {:induction false} GenerationIsIdempotent(table: seq<Saving>, records: seq<Saving>)
    requires UniqueKeys(table)
    ensures InsertAll(InsertAll(table, records), records) == InsertAll(table, records)
  {
    InsertAllOnlyAdds(table, records);
    forall r | r in records
      ensures HasKey(InsertAll(table, records), r.Key())
    {
      var i :| 0 <= i < |records| && records[i] == r;
      assert HasKey(records, r.Key());
    }
    InsertKnown(InsertAll(table, records), records);
  }

  /** Two generations in either order leave rows for the same users and months. */
  lemma {:induction false} GenerationsCommute(table: seq<Saving>, a: seq<Saving>, b: seq<Saving>, key: (nat, int, nat))
    requires UniqueKeys(table)
    ensures HasKey(InsertAll(InsertAll(table, a), b), key) <==> HasKey(InsertAll(InsertAll(table, b), a), key)
  {
    InsertAllOnlyAdds(table, a);
    InsertAllOnlyAdds(table, b);
    InsertAllOnlyAdds(InsertAll(table, a), b);
    InsertAllOnlyAdds(InsertAll(table, b), a);
  }

  /** The rows of `generateRemainingYearSavings`, and with month 0 of `createYearlyMandatorySavingsForUsers`. */
  function Batch(users: seq<nat>, amount: int, year: int, startMonth: nat): seq<Saving>
    decreases 12 - startMonth
  {
    if startMonth >= 12 then []
    else MonthOf(users, amount, year, startMonth) + Batch(users, amount, year, startMonth + 1)
  }

  function MonthOf(users: seq<nat>, amount: int, year: int, month: nat): seq<Saving> {
    seq(|users|, i requires 0 <= i < |users| => DueSaving(users[i], amount, year, month))
  }

  lemma {:induction false} BatchCoversTheYear(users: seq<nat>, amount: int, year: int, startMonth: nat)
    ensures IsBatch(Batch(users, amount, year, startMonth), users, amount, year, startMonth)
    decreases 12 - startMonth
  {
    if startMonth < 12 {
      BatchCoversTheYear(users, amount, year, startMonth + 1);
      var first, rest := MonthOf(users, amount, year, startMonth), Batch(users, amount, year, startMonth + 1);
      forall user: nat, month: nat | user in users && startMonth <= month < 12
        ensures Saving(user, year, month, amount, false) in first + rest
      {
        if month == startMonth {
          var i :| 0 <= i < |users| && users[i] == user;
          assert first[i] == Saving(user, year, month, amount, false);
        }
      }
    }
  }

  lemma AddMonth(before: seq<Saving>, records: seq<Saving>, users: seq<nat>, amount: int, year: int, month: nat)
    requires month < 12 && records == before + MonthOf(users, amount, year, month)[..|users|]
    ensures records + Batch(users, amount, year, month + 1) == before + Batch(users, amount, year, month)
  {
  }

  /** The configured amount as its column holds it, or 500,000 rupiah when it is not positive. */
  function MandatoryAmount(configured: real): int {
    if configured <= 0.0 then 500_000 * RUPIAH else ToColumn(configured)
  }

  /** A positive configuration is asked for to the nearest unit, any other as 500,000 rupiah; so rows ask for
      something unless the configuration is positive but below half a unit. */
  lemma MandatoryAmountIsPositive(configured: real)
    ensures configured > 0.0 ==> IsNearest(MandatoryAmount(configured), configured)
    ensures configured <= 0.0 ==> IsNearest(MandatoryAmount(configured), 500_000.0)
    ensures MandatoryAmount(configured) > 0 <==> !(0.0 < configured < 0.00005)
  {
    ToColumnIsNearest(configured);
  }

  /** Returns the number of rows attempted, ignored ones included. */
  method GenerateRemainingYearSavings(db: Database, users: seq<nat>, configured: real, year: int, startMonth: nat)
    returns (attempted: nat)
    modifies db`mandatory
    ensures db.View() == Generated(old(db.View()), users, configured, year, startMonth)
    ensures attempted == |Batch(users, MandatoryAmount(configured), year, startMonth)|
  {
    var amount := MandatoryAmount(configured);
    var records: seq<Saving> := [];
    var month: nat := startMonth;
    while month < 12
      invariant db.mandatory == old(db.mandatory)
      invariant records + Batch(users, amount, year, month) == Batch(users, amount, year, startMonth)
      decreases 12 - month
    {
      ghost var monthsBefore := records;
      for i := 0 to |users|
        invariant db.mandatory == old(db.mandatory)
        invariant records == monthsBefore + MonthOf(users, amount, year, month)[..i]
      {
        records := records + [DueSaving(users[i], amount, year, month)];
      }
      AddMonth(monthsBefore, records, users, amount, year, month);
      month := month + 1;
    }
    assert records == records + Batch(users, amount, year, month) == Batch(users, amount, year, startMonth);
    db.mandatory := InsertAll(db.mandatory, records);
    attempted := |records|;
  }

  // ----- settling

  function Generated(s: State, users: seq<nat>, configured: real, year: int, startMonth: nat): State {
    s.(deposits := s.deposits.(mandatory :=
      InsertAll(s.deposits.mandatory, Batch(users, MandatoryAmount(configured), year, startMonth))))
  }

  predicate HasRow(table: seq<Saving>, user: nat, year: int, month: nat) {
    exists i :: 0 <= i < |table| && table[i].user == user && table[i].year == year && table[i].month == month
  }

  /** The table was there before and has more: rows due from the users, for months that had none. Afterwards a user
      has a row for a month if there was one before or the generation was for that user and month. */
  ghost predicate IsGenerated(now: seq<Saving>, was: seq<Saving>, users: seq<nat>, amount: int, year: int,
                              startMonth: nat)
  {
    && was <= now
    && (forall i :: |was| <= i < |now| ==>
          IsDueOf(now[i], users, amount, year, startMonth) && !HasRow(was, now[i].user, now[i].year, now[i].month))
    && (forall user: nat, y: int, month: nat :: HasRow(now, user, y, month) <==>
          HasRow(was, user, y, month) || (user in users && y == year && startMonth <= month < 12))
  }

  lemma KeyIsRow(table: seq<Saving>, user: nat, year: int, month: nat)
    ensures HasRow(table, user, year, month) <==> HasKey(table, (user, year, month))
  {
  }

  lemma BatchKeys(records: seq<Saving>, users: seq<nat>, amount: int, year: int, startMonth: nat, user: nat, y: int,
                  month: nat)
    requires IsBatch(records, users, amount, year, startMonth)
    ensures HasRow(records, user, y, month) <==> user in users && y == year && startMonth <= month < 12
  {
    if user in users && y == year && startMonth <= month < 12 {
      var i :| 0 <= i < |records| && records[i] == Saving(user, year, month, amount, false);
      assert records[i].user == user;
    }
    if HasRow(records, user, y, month) {
      var i :| 0 <= i < |records| && records[i].user == user && records[i].year == y && records[i].month == month;
      assert IsDueOf(records[i], users, amount, year, startMonth);
    }
  }

  lemma {:induction false} NewKeysWereMissing(table: seq<Saving>, records: seq<Saving>, i: nat)
    requires UniqueKeys(table) && |table| <= i < |InsertAll(table, records)|
    ensures InsertAll(table, records)[i] in records
    ensures !HasKey(table, InsertAll(table, records)[i].Key())
  {
    InsertAllOnlyAdds(table, records);
  }

  /** What a generation does to the tables. */
  lemma GeneratedOutcome(s: State, users: seq<nat>, configured: real, year: int, startMonth: nat)
    requires UniqueKeys(s.deposits.mandatory)
    ensures var was, now := s.deposits.mandatory, Generated(s, users, configured, year, startMonth).deposits.mandatory;
            && Generated(s, users, configured, year, startMonth) == s.(deposits := s.deposits.(mandatory := now))
            && IsGenerated(now, was, users, MandatoryAmount(configured), year, startMonth)
  {
    var was, amount := s.deposits.mandatory, MandatoryAmount(configured);
    var records := Batch(users, amount, year, startMonth);
    var now := InsertAll(was, records);
    BatchCoversTheYear(users, amount, year, startMonth);
    InsertAllOnlyAdds(was, records);
    forall i | |was| <= i < |now|
      ensures IsDueOf(now[i], users, amount, year, startMonth)
      ensures !HasRow(was, now[i].user, now[i].year, now[i].month)
    {
      NewKeysWereMissing(was, records, i);
      KeyIsRow(was, now[i].user, now[i].year, now[i].month);
    }
    forall user: nat, y: int, month: nat
      ensures HasRow(now, user, y, month) <==>
              HasRow(was, user, y, month) || (user in users && y == year && startMonth <= month < 12)
    {
      KeyIsRow(was, user, y, month);
      KeyIsRow(now, user, y, month);
      KeyIsRow(records, user, y, month);
      BatchKeys(records, users, amount, year, startMonth, user, y, month);
    }
  }

  /** `settleMandatorySavings`. */
  function SavingSettled(s: State, id: nat, txnDate: int): Result<State> {
    if id >= |s.deposits.mandatory| then Failure(NotFound)
    else
      var saving := s.deposits.mandatory[id];
      if saving.paid then Failure(AlreadyPaid)
      else
        var books :- Earned(s.books, MandatorySaving(id), saving.amount, txnDate);
        Success(s.(deposits := s.deposits.(mandatory := s.deposits.mandatory[id := saving.(paid := true)]),
                   books := books))
  }

  /** The deposit asked of a new member: an equal share of the total balance in whole rupiah, or a minimum
      when there are no members yet. */
  function DepositAmount(total: int, activeMembers: nat, minimum: real): int {
    if activeMembers == 0 then ToColumn(minimum) else RUPIAH * (total / (RUPIAH * activeMembers))
  }

  /** Nobody is asked for more than an equal share, and for less by under a rupiah; the first member for the
      minimum, to the nearest unit. */
  lemma DepositIsAnEqualShare(total: int, activeMembers: nat, minimum: real)
    ensures var amount := DepositAmount(total, activeMembers, minimum);
            if activeMembers == 0 then IsNearest(amount, minimum)
            else amount * activeMembers <= total < (amount + RUPIAH) * activeMembers && amount % RUPIAH == 0
  {
    ToColumnIsNearest(minimum);
  }

  /** The share is nothing exactly when the funds are below a rupiah a member. */
  lemma DepositIsPositive(total: int, activeMembers: nat, minimum: real)
    requires total >= 0
    ensures DepositAmount(total, activeMembers, minimum) > 0 <==> AsksForSomething(total, activeMembers, minimum)
  {
    DepositIsAnEqualShare(total, activeMembers, minimum);
  }

  /** What a joining member's request does: nothing if the member has a deposit, and otherwise it adds one, unpaid, for
      an equal share of the total balance or, with no members yet, for the minimum. */
  lemma AskedOutcome(s: State, user: nat, activeMembers: nat, minimum: real)
    ensures DepositAsked(s, user, activeMembers, minimum).Success? <==>
            forall i :: 0 <= i < |s.deposits.principal| ==> s.deposits.principal[i].user != user
    ensures DepositAsked(s, user, activeMembers, minimum).Failure? ==>
              DepositAsked(s, user, activeMembers, minimum) == Failure(UniqueViolation)
    ensures var asked := DepositAsked(s, user, activeMembers, minimum);
            asked.Success? ==>
              var was, now, total := s.deposits.principal, asked.value.deposits.principal, s.books.balances.total;
              && |now| == |was| + 1
              && asked.value == s.(deposits := s.deposits.(principal := now))
              && var amount := now[|was|].amount;
              && now == was + [PrincipalSaving(user, amount, false)]
              && (if activeMembers == 0 then IsNearest(amount, minimum)
                  else amount * activeMembers <= total < (amount + RUPIAH) * activeMembers && amount % RUPIAH == 0)
  {
    DepositIsAnEqualShare(s.books.balances.total, activeMembers, minimum);
  }

  predicate AsksForSomething(total: int, activeMembers: nat, minimum: real) {
    if activeMembers == 0 then minimum >= 0.00005 else total >= RUPIAH * activeMembers
  }

  predicate HasDeposit(table: seq<PrincipalSaving>, user: nat) {
    exists i :: 0 <= i < |table| && table[i].user == user
  }

  /** `createPrincipalSavings`, under the unique index on user_id. */
  function DepositAsked(s: State, user: nat, activeMembers: nat, minimum: real): Result<State> {
    if HasDeposit(s.deposits.principal, user) then Failure(UniqueViolation)
    else
      var amount := DepositAmount(s.books.balances.total, activeMembers, minimum);
      Success(s.(deposits := s.deposits.(principal := s.deposits.principal + [PrincipalSaving(user, amount, false)])))
  }

  function FindDeposit(table: seq<PrincipalSaving>, user: nat, n: nat): (r: Option<nat>)
    requires n <= |table|
    ensures r.Some? ==> r.value < n && table[r.value].user == user
    ensures r.None? ==> forall i :: 0 <= i < n ==> table[i].user != user
  {
    if n == 0 then None else if table[n - 1].user == user then Some(n - 1) else FindDeposit(table, user, n - 1)
  }

  /** `settlePrincipalSavings`. */
  function DepositSettled(s: State, user: nat, txnDate: int): Result<State> {
    match FindDeposit(s.deposits.principal, user, |s.deposits.principal|)
    case None => Failure(NotFound)
    case Some(id) =>
      var deposit := s.deposits.principal[id];
      if deposit.paid then Failure(AlreadyPaid)
      else
        var books :- Earned(s.books, PrincipalDeposit(user), deposit.amount, txnDate);
        Success(s.(deposits := s.deposits.(principal := s.deposits.principal[id := deposit.(paid := true)]),
                   books := books))
  }

  method SettleMandatorySavings(db: Database, id: nat, txnDate: int) returns (r: Result<()>)
    modifies db
    ensures Commits(r, old(db.View()), db.View(), SavingSettled(old(db.View()), id, txnDate))
  {
    if id >= |db.mandatory| {
      return Failure(NotFound);
    }
    var saving := db.mandatory[id];
    if saving.paid {
      return Failure(AlreadyPaid);
    }
    var saved := db.View();
    db.mandatory := db.mandatory[id := saving.(paid := true)];
    r := RecordIncome(db, MandatorySaving(id), saving.amount, txnDate);
    if r.Failure? {
      db.Rollback(saved);
    }
  }

  method CreatePrincipalSavings(db: Database, user: nat, activeMembers: nat, minimum: real) returns (r: Result<()>)
    modifies db
    ensures Commits(r, old(db.View()), db.View(), DepositAsked(old(db.View()), user, activeMembers, minimum))
  {
    var totalBalance := db.balances.total;
    var amount := if activeMembers == 0 then ToColumn(minimum) else RUPIAH * (totalBalance / (RUPIAH * activeMembers));
    if HasDeposit(db.principal, user) {
      return Failure(UniqueViolation);
    }
    db.principal := db.principal + [PrincipalSaving(user, amount, false)];
    r := Success(());
  }

  method SettlePrincipalSavings(db: Database, user: nat, txnDate: int) returns (r: Result<()>)
    modifies db
    ensures Commits(r, old(db.View()), db.View(), DepositSettled(old(db.View()), user, txnDate))
  {
    var found := FindDeposit(db.principal, user, |db.principal|);
    if found.None? {
      return Failure(NotFound);
    }
    var deposit := db.principal[found.value];
    if deposit.paid {
      return Failure(AlreadyPaid);
    }
    var saved := db.View();
    db.principal := db.principal[found.value := deposit.(paid := true)];
    r := RecordIncome(db, PrincipalDeposit(user), deposit.amount, txnDate);
    if r.Failure? {
      db.Rollback(saved);
    }
  }
}
