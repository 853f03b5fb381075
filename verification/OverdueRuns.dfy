/** `processOverdueInstallments`: fetch every overdue installment, group the rows by loan, and process each
    loan in its own transaction. */
module OverdueRuns {
  import opened Basics
  import opened Schema
  import opened LoanSchedule
  import opened LoanPenalties
  import opened Loans

  // ----- the fetch

  predicate Before(a: (nat, nat), b: (nat, nat)) { a.0 < b.0 || (a.0 == b.0 && a.1 < b.1) }

  predicate IsOverdue(installments: seq<seq<Installment>>, cutoff: Date, key: (nat, nat)) {
    && key.0 < |installments|
    && key.1 < |installments[key.0]|
    && IsDueBy(installments[key.0][key.1], cutoff)
  }

  /** The rows with status due and due_date <= cutoff, ordered by loan and installment number. */
  ghost predicate IsFetch(installments: seq<seq<Installment>>, cutoff: Date, found: seq<(nat, nat)>) {
    && (forall key :: key in found <==> IsOverdue(installments, cutoff, key))
    && (forall m, n :: 0 <= m < n < |found| ==> Before(found[m], found[n]))
  }

  method FindOverdueInstallments(installments: seq<seq<Installment>>, cutoff: Date) returns (found: seq<(nat, nat)>)
    ensures IsFetch(installments, cutoff, found)
  {
    found := [];
    for l := 0 to |installments|
      invariant forall key :: key in found <==> key.0 < l && IsOverdue(installments, cutoff, key)
      invariant forall m, n :: 0 <= m < n < |found| ==> Before(found[m], found[n])
    {
      for i := 0 to |installments[l]|
        invariant forall key :: key in found <==>
                    (key.0 < l || (key.0 == l && key.1 < i)) && IsOverdue(installments, cutoff, key)
        invariant forall m, n :: 0 <= m < n < |found| ==> Before(found[m], found[n])
      {
        if Eligible(cutoff)(installments[l][i]) {
          assert forall m :: 0 <= m < |found| ==> found[m] in found && Before(found[m], (l, i));
          found := found + [(l, i)];
        }
      }
    }
  }

  // ----- the grouping

  /** `groups` holds, for each loan that `found` mentions, a list that starts with the loan's first mention;
      `order` lists those loans once each. */
  ghost predicate IsGrouping(found: seq<(nat, nat)>, groups: map<nat, seq<nat>>, order: seq<nat>) {
    && (forall l :: l in groups <==> exists n :: 0 <= n < |found| && found[n].0 == l)
    && (forall l :: l in groups ==> groups[l] != [] && IsFirstMention(found, l, groups[l][0]))
    && (forall l :: l in order <==> l in groups)
    && (forall m, n :: 0 <= m < n < |order| ==> order[m] != order[n])
  }

  ghost predicate IsFirstMention(found: seq<(nat, nat)>, l: nat, i: nat) {
    exists n :: 0 <= n < |found| && found[n] == (l, i) && forall m :: 0 <= m < n ==> found[m].0 != l
  }

  lemma MentionsSurvive(found: seq<(nat, nat)>, key: (nat, nat), l: nat, i: nat)
    requires IsFirstMention(found, l, i)
    ensures IsFirstMention(found + [key], l, i)
  {
    var n :| 0 <= n < |found| && found[n] == (l, i) && forall m :: 0 <= m < n ==> found[m].0 != l;
    assert (found + [key])[n] == (l, i);
  }

  method GroupByLoan(found: seq<(nat, nat)>) returns (groups: map<nat, seq<nat>>, order: seq<nat>)
    ensures IsGrouping(found, groups, order)
  {
    groups, order := map[], [];
    for n := 0 to |found|
      invariant IsGrouping(found[..n], groups, order)
    {
      var (l, i) := found[n];
      ghost var before, groupsBefore := found[..n], groups;
      assert found[..n + 1] == before + [(l, i)];
      if l !in groups {
        groups := groups[l := []];
        order := order + [l];
      }
      groups := groups[l := groups[l] + [i]];
      ExtendGrouping(before, (l, i), groupsBefore, groups);
    }
    assert found[..|found|] == found;
  }

  lemma ExtendGrouping(before: seq<(nat, nat)>, key: (nat, nat), was: map<nat, seq<nat>>, now: map<nat, seq<nat>>)
    requires forall l :: l in was <==> exists n :: 0 <= n < |before| && before[n].0 == l
    requires forall l :: l in was ==> was[l] != [] && IsFirstMention(before, l, was[l][0])
    requires now == was[key.0 := (if key.0 in was then was[key.0] else []) + [key.1]]
    ensures forall l :: l in now <==> exists n :: 0 <= n < |before + [key]| && (before + [key])[n].0 == l
    ensures forall l :: l in now ==> now[l] != [] && IsFirstMention(before + [key], l, now[l][0])
  {
    var after := before + [key];
    assert after[|before|] == key;
    forall l
      ensures l in now <==> exists n :: 0 <= n < |after| && after[n].0 == l
    {
      if l in was {
        var n :| 0 <= n < |before| && before[n].0 == l;
        assert after[n].0 == l;
      }
    }
    forall l | l in now
      ensures now[l] != [] && IsFirstMention(after, l, now[l][0])
    {
      if l in was {
        MentionsSurvive(before, key, l, was[l][0]);
      }
    }
  }

  /** The first row of a group is the loan's oldest installment due by the cutoff. */
  lemma FirstMentionIsFirst(installments: seq<seq<Installment>>, cutoff: Date, found: seq<(nat, nat)>, l: nat, i: nat)
    requires IsFetch(installments, cutoff, found) && IsFirstMention(found, l, i)
    ensures l < |installments| && IsOldestDue(installments[l], cutoff, i)
  {
    var n :| 0 <= n < |found| && found[n] == (l, i) && forall m :: 0 <= m < n ==> found[m].0 != l;
    assert found[n] in found;
    var plan := installments[l];
    forall k: nat | k < |plan| && IsDueBy(plan[k], cutoff)
      ensures i <= k
    {
      assert IsOverdue(installments, cutoff, (l, k));
      assert (l, k) in found;
      var m :| 0 <= m < |found| && found[m] == (l, k);
      assert n <= m;
    }
  }

  lemma MentionedIfAny(installments: seq<seq<Installment>>, cutoff: Date, found: seq<(nat, nat)>,
                       groups: map<nat, seq<nat>>, order: seq<nat>, l: nat)
    requires IsFetch(installments, cutoff, found) && IsGrouping(found, groups, order)
    requires l < |installments|
    ensures First(installments[l], Eligible(cutoff)).Some? ==> l in groups
  {
    var first := First(installments[l], Eligible(cutoff));
    FirstIsOldestDue(installments[l], cutoff);
    if first.Some? {
      assert IsOverdue(installments, cutoff, (l, first.value));
      assert (l, first.value) in found;
    }
  }

  // ----- one loan

  /** The stored amounts are decimals that are not negative, as every generated row's are. */
  ghost predicate InRange(loans: seq<Loan>, installments: seq<seq<Installment>>) {
    && (forall l :: 0 <= l < |loans| ==> loans[l].principal >= 0)
    && (forall l, i :: 0 <= l < |installments| && 0 <= i < |installments[l]| ==>
          installments[l][i].penalty >= 0 && installments[l][i].total >= 0)
  }

  /** `addPenaltyToInstallment`: the sums are stored rounded to four decimals. */
  method AddPenalty(x: Installment, penaltyAmount: real, ghost loan: Loan) returns (now: Installment)
    requires x.penalty >= 0 && x.total >= 0 && loan.principal >= 0
    requires penaltyAmount == loan.principal as real / 10000.0 * (loan.period.rate as real / 10000.0)
    ensures now == Charged(x, PenaltyOf(loan))
  {
    var newPenalty := x.penalty as real / 10000.0 + penaltyAmount;
    var newTotal := x.total as real / 10000.0 + penaltyAmount;
    ExactPenalty(loan.principal, loan.period.rate);
    ColumnOfSum(x.penalty, penaltyAmount, loan.principal * loan.period.rate);
    ColumnOfSum(x.total, penaltyAmount, loan.principal * loan.period.rate);
    now := x.(penalty := ToColumn(newPenalty), total := ToColumn(newTotal));
  }

  /** `processLoanOverdueInstallments` on a group fetched earlier; only the group's first row is used. */
  method ProcessLoanOverdueInstallments(db: Database, l: nat, group: seq<nat>)
    requires l < |db.loans| && l < |db.installments|
    requires group != [] && group[0] < |db.installments[l]|
    requires InRange(db.loans, db.installments)
    modifies db`installments
    ensures db.installments == old(db.installments)[l :=
              AfterMarking(old(db.installments)[l], group[0], PenaltyOf(db.loans[l]))]
    ensures InRange(db.loans, db.installments)
  {
    var loan, plan := db.loans[l], db.installments[l];
    var penaltyAmount := loan.principal as real / 10000.0 * (loan.period.rate as real / 10000.0);
    var previouslyOverdueCount := CountOverdue(plan);
    var i := group[0];
    plan := plan[i := Marked(plan[i])];
    var totalOverdueCount := previouslyOverdueCount + 1;
    if totalOverdueCount >= 2 {
      var oldestUnpenalised := First(plan, Unpenalised());
      if oldestUnpenalised.Some? {
        var j := oldestUnpenalised.value;
        var charged := AddPenalty(plan[j], penaltyAmount, loan);
        plan := plan[j := charged];
        PenaltyIsInRange(loan);
      }
    }
    db.installments := db.installments[l := plan];
  }

  lemma PenaltyIsInRange(loan: Loan)
    requires loan.principal >= 0
    ensures PenaltyOf(loan) >= 0
  {
  }

  // ----- the whole run

  method ProcessOverdueInstallments(db: Database, cutoff: Date)
    requires |db.installments| == |db.loans| && InRange(db.loans, db.installments)
    modifies db`installments
    ensures db.View() == OverdueRun(old(db.View()), cutoff)
  {
    ghost var fetched := db.installments;
    var found := FindOverdueInstallments(db.installments, cutoff);
    var groups, order := GroupByLoan(found);
    for n := 0 to |order|
      invariant |db.installments| == |db.loans| && InRange(db.loans, db.installments)
      invariant forall l :: 0 <= l < |db.loans| ==>
                  db.installments[l] == if l in order[..n] then AfterRun(fetched[l], PenaltyOf(db.loans[l]), cutoff)
                                        else fetched[l]
    {
      var l := order[n];
      assert order[..n + 1] == order[..n] + [l];
      FirstMentionIsFirst(fetched, cutoff, found, l, groups[l][0]);
      FirstIsOldestDue(fetched[l], cutoff);
      ProcessLoanOverdueInstallments(db, l, groups[l]);
    }
    assert order[..|order|] == order;
    forall l | 0 <= l < |db.loans|
      ensures db.installments[l] == AfterRun(fetched[l], PenaltyOf(db.loans[l]), cutoff)
    {
      MentionedIfAny(fetched, cutoff, found, groups, order, l);
    }
    assert db.installments == AfterRuns(db.loans, fetched, cutoff);
  }
}
