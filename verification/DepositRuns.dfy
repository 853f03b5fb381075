/** Joining deposits over whole runs: what a request asks for decides whether it can ever be settled. */
module DepositRuns {
  import opened Basics
  import opened Schema
  import opened CashbookLedger
  import opened Expenses
  import opened Incomes
  import opened Savings
  import opened Cooperative
  import opened CooperativeRuns

  /** A deposit just asked for can be settled exactly when the request asked for something: when the funds were
      at least a rupiah for each active member or, with no members yet, the configured minimum is at least half a
      unit. */
  lemma AskedDepositOutcome(s: State, user: nat, activeMembers: nat, minimum: real, date: int)
    requires SystemInv(s) && DepositAsked(s, user, activeMembers, minimum).Success?
    ensures DepositSettled(DepositAsked(s, user, activeMembers, minimum).value, user, date).Success? <==>
            AsksForSomething(s.books.balances.total, activeMembers, minimum)
  {
    var now := DepositAsked(s, user, activeMembers, minimum).value;
    AskDepositKeepsInv(s, user, activeMembers, minimum);
    DepositIsPositive(s.books.balances.total, activeMembers, minimum);
    OneOwesDeposit(now, |s.deposits.principal|, date);
  }

  /** With one deposit a user, settling is about that one. */
  lemma OneOwesDeposit(s: State, i: nat, date: int)
    requires SystemInv(s) && i < |s.deposits.principal|
    ensures var x := s.deposits.principal[i];
            DepositSettled(s, x.user, date).Success? <==> !x.paid && x.amount > 0
  {
    DepositOutcome(s, s.deposits.principal[i].user, date);
  }

  // ----- later on

  /** Deposits are only ever appended, and a row changes only by being paid, which takes a positive amount. */
  ghost predicate DepositsLater(was: seq<PrincipalSaving>, now: seq<PrincipalSaving>) {
    && |was| <= |now|
    && forall i :: 0 <= i < |was| ==>
         && now[i] == was[i].(paid := now[i].paid)
         && (was[i].paid ==> now[i].paid)
         && (now[i].paid ==> was[i].paid || was[i].amount > 0)
  }

  lemma StepKeepsDeposits(s: State, c: Command)
    requires SystemInv(s)
    ensures DepositsLater(s.deposits.principal, After(s, c).deposits.principal)
  {
    if c.PayDeposit? {
      PaidDepositsWereOwed(s, c.user, c.date);
    } else {
      OthersPayNoDeposit(s, c);
    }
  }

  lemma PaidDepositsWereOwed(s: State, user: nat, date: int)
    requires SystemInv(s)
    ensures DepositSettled(s, user, date).Success? ==>
              DepositsLater(s.deposits.principal, DepositSettled(s, user, date).value.deposits.principal)
  {
    var found := FindDeposit(s.deposits.principal, user, |s.deposits.principal|);
    if found.Some? {
      EarnedOutcome(s.books, PrincipalDeposit(user), s.deposits.principal[found.value].amount, date);
    }
  }

  lemma OthersPayNoDeposit(s: State, c: Command)
    requires !c.PayDeposit?
    ensures s.deposits.principal <= After(s, c).deposits.principal
  {
  }

  lemma {:induction false} RunKeepsDeposits(categories: map<nat, Source>, commands: seq<Command>, m: nat)
    requires m <= |commands|
    ensures DepositsLater(Run(categories, commands[..m]).deposits.principal,
                          Run(categories, commands).deposits.principal)
  {
    if m == |commands| {
      assert commands[..m] == commands;
    } else {
      var earlier := commands[..|commands| - 1];
      assert earlier[..m] == commands[..m];
      RunKeepsDeposits(categories, earlier, m);
      EveryRunKeepsInv(categories, earlier);
      StepKeepsDeposits(Run(categories, earlier), commands[|commands| - 1]);
    }
  }

  /** The deposit a successful request adds, in the state that the request found. */
  ghost predicate Asks(s: State, user: nat, activeMembers: nat, minimum: real) {
    DepositAsked(s, user, activeMembers, minimum).Success?
  }

  lemma AskingAppends(s: State, user: nat, activeMembers: nat, minimum: real)
    requires Asks(s, user, activeMembers, minimum)
    ensures After(s, AskDeposit(user, activeMembers, minimum)).deposits.principal == s.deposits.principal +
            [PrincipalSaving(user, DepositAmount(s.books.balances.total, activeMembers, minimum), false)]
  {
  }

  /** At any later point of any run, the deposit asked for by request `m` settles if and only if it is unpaid and
      the request asked for something; and it is not paid unless the request did. */
  lemma {:induction false} EveryRunSettlesDeposits(categories: map<nat, Source>, commands: seq<Command>, m: nat,
                                                   user: nat, activeMembers: nat, minimum: real, date: int)
    requires m < |commands| && commands[m] == AskDeposit(user, activeMembers, minimum)
    requires Asks(Run(categories, commands[..m]), user, activeMembers, minimum)
    ensures var asked, s := Run(categories, commands[..m]), Run(categories, commands);
            var i := |asked.deposits.principal|;
            && i < |s.deposits.principal| && s.deposits.principal[i].user == user
            && (DepositSettled(s, user, date).Success? <==>
                  && !s.deposits.principal[i].paid
                  && AsksForSomething(asked.books.balances.total, activeMembers, minimum))
            && (s.deposits.principal[i].paid ==>
                  AsksForSomething(asked.books.balances.total, activeMembers, minimum))
  {
    var asked := Run(categories, commands[..m]);
    EveryRunKeepsInv(categories, commands[..m]);
    DepositIsPositive(asked.books.balances.total, activeMembers, minimum);
    AskingAppends(asked, user, activeMembers, minimum);
    assert commands[..m + 1] == commands[..m] + [commands[m]];
    RunAppend(categories, commands[..m], commands[m]);
    RunKeepsDeposits(categories, commands, m + 1);
    EveryRunKeepsInv(categories, commands);
    OneOwesDeposit(Run(categories, commands), |asked.deposits.principal|, date);
  }

  // ----- the failing requests are reachable

  lemma SpendingCapitalEmpties(b: Books, categories: map<nat, Source>, category: nat, amount: int, date: int)
    requires LedgerInv(b) && category in categories
    requires b.balances.shu == 0 && b.balances.capital == amount > 0
    ensures var spent := Posted(b, categories, category, amount, Some(FromCapital), date);
            spent.Success? && spent.value.balances.total == 0
  {
    assert Created(b, categories, category, amount, Some(FromCapital), date).Success? by {
      CreatedOutcome(b, categories, category, amount, Some(FromCapital), date);
    }
    CreatedKeepsInvariant(b, categories, category, amount, Some(FromCapital), date);
  }

  lemma {:induction false} FirstRequest(categories: map<nat, Source>, c: Command)
    ensures Run(categories, [c]) == After(EmptyState(categories), c)
  {
    assert [] + [c] == [c];
    RunAppend(categories, [], c);
  }

  lemma PostingChangesBooks(s: State, category: nat, amount: int, source: Option<Source>, date: int)
    requires Posted(s.books, s.categories, category, amount, source, date).Success?
    ensures After(s, PostExpense(category, amount, source, date)) ==
            s.(books := Posted(s.books, s.categories, category, amount, source, date).value)
  {
  }

  /** Spending the whole opening capital leaves no funds to share. */
  lemma {:induction false} OpeningCapitalCanBeSpent(categories: map<nat, Source>, category: nat, amount: int, date: int)
    requires category in categories && amount == OPENING.capital
    ensures var s := Run(categories, [PostExpense(category, amount, Some(FromCapital), date)]);
            s.books.balances.total == 0 && s.deposits.principal == []
  {
    var s := EmptyState(categories);
    EmptyKeepsInv(categories);
    SpendingCapitalEmpties(s.books, categories, category, amount, date);
    PostingChangesBooks(s, category, amount, Some(FromCapital), date);
    FirstRequest(categories, PostExpense(category, amount, Some(FromCapital), date));
  }

  /** A member who joins then is asked for nothing, and whatever comes after cannot settle that. */
  lemma {:induction false} EmptyShareIsNeverSettled(categories: map<nat, Source>, category: nat, user: nat,
                                                    activeMembers: nat, minimum: real, more: seq<Command>, date: int)
    requires category in categories && activeMembers > 0
    ensures var spend := PostExpense(category, OPENING.capital, Some(FromCapital), date);
            var s := Run(categories, [spend, AskDeposit(user, activeMembers, minimum)] + more);
            HasDeposit(s.deposits.principal, user) && DepositSettled(s, user, date).Failure?
  {
    var spend := PostExpense(category, OPENING.capital, Some(FromCapital), date);
    var commands := [spend, AskDeposit(user, activeMembers, minimum)] + more;
    assert commands[..1] == [spend];
    OpeningCapitalCanBeSpent(categories, category, OPENING.capital, date);
    EveryRunSettlesDeposits(categories, commands, 1, user, activeMembers, minimum, date);
  }

  /** Nor can the first member's deposit be settled when the configured minimum is below half a unit. */
  lemma {:induction false} EmptyMinimumIsNeverSettled(categories: map<nat, Source>, user: nat, minimum: real,
                                                      more: seq<Command>, date: int)
    requires minimum < 0.00005
    ensures var s := Run(categories, [AskDeposit(user, 0, minimum)] + more);
            HasDeposit(s.deposits.principal, user) && DepositSettled(s, user, date).Failure?
  {
    var commands := [AskDeposit(user, 0, minimum)] + more;
    assert commands[..0] == [];
    EveryRunSettlesDeposits(categories, commands, 0, user, 0, minimum, date);
  }
}
