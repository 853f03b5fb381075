/** The mandatory-savings report: paging loops, the member-by-month grid, and its totals. */
module Reports {
  import opened Basics
  import opened Schema
  import opened Savings

  // ----- paging

  datatype PageInfo = PageInfo(totalPage: nat, next: bool, prev: bool)

  /** `createPaginationMetadata`. */
  function CreatePaginationMetadata(page: nat, limit: nat, totalData: nat): PageInfo
    requires limit > 0
  {
    var totalPage := (totalData + limit - 1) / limit;
    PageInfo(totalPage, page < totalPage, page > 1)
  }

  function AtMost(n: nat, bound: nat): nat { if n <= bound then n else bound }

  /** LIMIT `limit` OFFSET `(page - 1) * limit`. */
  function PageOf<T>(rows: seq<T>, page: nat, limit: nat): seq<T>
    requires page > 0
  {
    rows[AtMost((page - 1) * limit, |rows|)..AtMost(page * limit, |rows|)]
  }

  /** How many rows the pages before `page` hold. */
  function Skipped(page: nat, limit: nat, totalData: nat): nat
    requires page > 0
  {
    AtMost((page - 1) * limit, totalData)
  }

  /** Each page begins where the one before it ended; `next` holds exactly while rows remain. */
  lemma PagesAreConsecutive<T>(rows: seq<T>, page: nat, limit: nat)
    requires page > 0 && limit > 0
    ensures var done, data := Skipped(page, limit, |rows|), PageOf(rows, page, limit);
            && done + |data| == Skipped(page + 1, limit, |rows|) <= |rows|
            && data == rows[done..done + |data|]
    ensures CreatePaginationMetadata(page, limit, |rows|).next <==> Skipped(page + 1, limit, |rows|) < |rows|
    ensures Skipped(page + 1, limit, |rows|) < |rows| ==>
              Skipped(page, limit, |rows|) < Skipped(page + 1, limit, |rows|)
  {
    CeilingOfQuotient(page, limit, |rows|);
    assert page * limit == (page - 1) * limit + limit;
    NotNegative(page - 1, limit);
  }

  /** The number of pages is the least that holds all rows, and `prev` holds exactly if rows were skipped. */
  lemma PagesAreCounted(page: nat, limit: nat, totalData: nat)
    requires page > 0 && limit > 0 && totalData > 0
    ensures var info := CreatePaginationMetadata(page, limit, totalData);
            && (info.totalPage <= page <==> Skipped(page + 1, limit, totalData) == totalData)
            && (info.prev <==> Skipped(page, limit, totalData) > 0)
  {
    CeilingOfQuotient(page, limit, totalData);
    if page > 1 {
      assert (page - 1) * limit == (page - 2) * limit + limit;
      NotNegative(page - 2, limit);
    }
  }

  lemma CeilingOfQuotient(page: nat, limit: nat, total: nat)
    requires limit > 0
    ensures page < (total + limit - 1) / limit <==> page * limit < total
  {
    var x := total + limit - 1;
    var q := x / limit;
    DivisionBounds(x, limit);
    var whole, below := q * limit, page * limit;
    if page < q {
      assert (q - 1 - page) * limit == whole - limit - below;
      NotNegative(q - 1 - page, limit);
    } else {
      assert (page - q) * limit == below - whole;
      NotNegative(page - q, limit);
    }
  }

  lemma DivisionBounds(x: nat, limit: nat)
    requires limit > 0
    ensures x / limit * limit <= x < x / limit * limit + limit
  {
  }

  lemma NotNegative(a: int, b: int)
    requires a >= 0 && b >= 0
    ensures a * b >= 0
  {
  }

  // ----- what the grid holds

  datatype Member = Member(id: nat, fullname: string)

  datatype MemberRow = MemberRow(userId: nat, fullname: string, cells: seq<Option<int>>, total: int)

  datatype Report = Report(rows: seq<MemberRow>, monthlyTotals: seq<int>, total: int)

  const BATCH_SIZE: nat := 100

  /** The amount of the last of the first `n` records for a user and month. */
  function LastAmount(paid: seq<Saving>, user: nat, month: nat, n: nat): Option<int>
    requires n <= |paid|
  {
    if n == 0 then None
    else if paid[n - 1].user == user && paid[n - 1].month == month then Some(paid[n - 1].amount)
    else LastAmount(paid, user, month, n - 1)
  }

  function OfUser(user: nat): Saving -> int { (x: Saving) => if x.user == user then x.amount else 0 }

  function OfUsers(users: set<nat>): Saving -> int { (x: Saving) => if x.user in users then x.amount else 0 }

  function Amount(cell: Option<int>): int { if cell.Some? then cell.value else 0 }

  function CellAt(month: nat): MemberRow -> int {
    (row: MemberRow) => if month < |row.cells| then Amount(row.cells[month]) else 0
  }

  function RowTotal(): MemberRow -> int { (row: MemberRow) => row.total }

  /** The row of a member after the first `n` records. */
  ghost predicate IsRowOf(row: MemberRow, member: Member, paid: seq<Saving>, n: nat)
    requires n <= |paid|
  {
    && row.userId == member.id && row.fullname == member.fullname
    && |row.cells| == 12
    && (forall m :: 0 <= m < 12 ==> row.cells[m] == LastAmount(paid, member.id, m, n))
    && row.total == SumTo(paid, OfUser(member.id), n)
  }

  ghost predicate DistinctIds(members: seq<Member>) {
    forall i, j :: 0 <= i < |members| && 0 <= j < |members| && members[i].id == members[j].id ==> i == j
  }

  ghost predicate HasMember(members: seq<Member>, id: nat) {
    exists k :: 0 <= k < |members| && members[k].id == id
  }

  /** The map of member rows, listed in insertion order by `order`. */
  ghost predicate IsGrid(grid: map<nat, MemberRow>, members: seq<Member>, paid: seq<Saving>, n: nat)
    requires n <= |paid|
  {
    && (forall id :: id in grid <==> HasMember(members, id))
    && (forall k :: 0 <= k < |members| ==>
          members[k].id in grid && IsRowOf(grid[members[k].id], members[k], paid, n))
  }

  // ----- the report

  function EmptyRow(member: Member): MemberRow {
    MemberRow(member.id, member.fullname, seq(12, _ => None), 0)
  }

  lemma AddMemberKeepsGrid(grid: map<nat, MemberRow>, members: seq<Member>, paid: seq<Saving>, k: nat)
    requires k < |members| && DistinctIds(members) && IsGrid(grid, members[..k], paid, 0)
    ensures IsGrid(grid[members[k].id := EmptyRow(members[k])], members[..k + 1], paid, 0)
  {
  }

  /** One page of members; `done` of them were there before. */
  method AddMembers(start: map<nat, MemberRow>, startOrder: seq<nat>, data: seq<Member>, ghost members: seq<Member>,
                    ghost paid: seq<Saving>, ghost done: nat)
    returns (grid: map<nat, MemberRow>, order: seq<nat>)
    requires done + |data| <= |members| && data == members[done..done + |data|] && DistinctIds(members)
    requires IsGrid(start, members[..done], paid, 0)
    requires |startOrder| == done && forall k :: 0 <= k < done ==> startOrder[k] == members[k].id
    ensures IsGrid(grid, members[..done + |data|], paid, 0)
    ensures |order| == done + |data| && forall k :: 0 <= k < |order| ==> order[k] == members[k].id
  {
    grid, order := start, startOrder;
    for i := 0 to |data|
      invariant IsGrid(grid, members[..done + i], paid, 0)
      invariant |order| == done + i && forall k :: 0 <= k < |order| ==> order[k] == members[k].id
    {
      var member := data[i];
      assert member == members[done + i];
      AddMemberKeepsGrid(grid, members, paid, done + i);
      grid := grid[member.id := EmptyRow(member)];
      order := order + [member.id];
    }
  }

  method CollectMembers(members: seq<Member>, paid: seq<Saving>) returns (grid: map<nat, MemberRow>, order: seq<nat>)
    requires DistinctIds(members)
    ensures IsGrid(grid, members, paid, 0)
    ensures |order| == |members| && forall k :: 0 <= k < |members| ==> order[k] == members[k].id
  {
    grid, order := map[], [];
    var memberPage: nat := 1;
    var hasNextMembers := true;
    ghost var done := 0;
    while hasNextMembers
      invariant memberPage > 0 && done == Skipped(memberPage, BATCH_SIZE, |members|) <= |members|
      invariant !hasNextMembers ==> done == |members|
      invariant IsGrid(grid, members[..done], paid, 0)
      invariant |order| == done && forall k :: 0 <= k < done ==> order[k] == members[k].id
      decreases hasNextMembers, |members| - done
    {
      var data := PageOf(members, memberPage, BATCH_SIZE);
      PagesAreConsecutive(members, memberPage, BATCH_SIZE);
      grid, order := AddMembers(grid, order, data, members, paid, done);
      done := done + |data|;
      hasNextMembers := CreatePaginationMetadata(memberPage, BATCH_SIZE, |members|).next;
      memberPage := memberPage + 1;
    }
    assert members[..done] == members;
  }

  function Absorb(grid: map<nat, MemberRow>, saving: Saving): map<nat, MemberRow> {
    if saving.user in grid && saving.month < |grid[saving.user].cells| then
      var row := grid[saving.user];
      grid[saving.user := row.(cells := row.cells[saving.month := Some(saving.amount)],
                               total := row.total + saving.amount)]
    else grid
  }

  lemma AbsorbKeepsGrid(grid: map<nat, MemberRow>, members: seq<Member>, paid: seq<Saving>, n: nat)
    requires n < |paid| && paid[n].month < 12
    requires IsGrid(grid, members, paid, n) && DistinctIds(members)
    ensures IsGrid(Absorb(grid, paid[n]), members, paid, n + 1)
  {
  }

  function Absorbed(start: map<nat, MemberRow>, data: seq<Saving>, n: nat): map<nat, MemberRow>
    requires n <= |data|
  {
    if n == 0 then start else Absorb(Absorbed(start, data, n - 1), data[n - 1])
  }

  /** The page holds the payments from `done` on. */
  ghost predicate IsPage(data: seq<Saving>, paid: seq<Saving>, done: nat) {
    done + |data| <= |paid| && forall i: nat :: i < |data| ==> data[i] == paid[done + i]
  }

  lemma {:induction false} AbsorbedKeepsGrid(start: map<nat, MemberRow>, data: seq<Saving>, n: nat,
                                             members: seq<Member>, paid: seq<Saving>, done: nat)
    requires n <= |data| && IsPage(data, paid, done) && DistinctIds(members)
    requires forall i :: 0 <= i < |paid| ==> paid[i].month < 12
    requires IsGrid(start, members, paid, done)
    ensures IsGrid(Absorbed(start, data, n), members, paid, done + n)
  {
    if n > 0 {
      AbsorbedKeepsGrid(start, data, n - 1, members, paid, done);
      var grid, i := Absorbed(start, data, n - 1), done + n - 1;
      assert Absorbed(start, data, n) == Absorb(grid, paid[i]);
      AbsorbKeepsGrid(grid, members, paid, i);
    }
  }

  /** One page of payments; `done` of them were absorbed before. */
  method AddSavings(start: map<nat, MemberRow>, data: seq<Saving>, ghost members: seq<Member>,
                    ghost paid: seq<Saving>, ghost done: nat)
    returns (grid: map<nat, MemberRow>)
    requires done + |data| <= |paid| && data == paid[done..done + |data|] && DistinctIds(members)
    requires forall i :: 0 <= i < |paid| ==> paid[i].month < 12
    requires IsGrid(start, members, paid, done)
    ensures IsGrid(grid, members, paid, done + |data|)
  {
    grid := start;
    for i := 0 to |data|
      invariant grid == Absorbed(start, data, i)
    {
      grid := Absorb(grid, data[i]);
    }
    AbsorbedKeepsGrid(start, data, |data|, members, paid, done);
  }

  method CollectSavings(start: map<nat, MemberRow>, members: seq<Member>, paid: seq<Saving>)
    returns (grid: map<nat, MemberRow>)
    requires DistinctIds(members) && IsGrid(start, members, paid, 0)
    requires forall i :: 0 <= i < |paid| ==> paid[i].month < 12
    ensures IsGrid(grid, members, paid, |paid|)
  {
    grid := start;
    var savingsPage: nat := 1;
    var hasNextSavings := true;
    ghost var done := 0;
    while hasNextSavings
      invariant savingsPage > 0 && done == Skipped(savingsPage, BATCH_SIZE, |paid|) <= |paid|
      invariant !hasNextSavings ==> done == |paid|
      invariant IsGrid(grid, members, paid, done)
      decreases hasNextSavings, |paid| - done
    {
      var data := PageOf(paid, savingsPage, BATCH_SIZE);
      PagesAreConsecutive(paid, savingsPage, BATCH_SIZE);
      grid := AddSavings(grid, data, members, paid, done);
      done := done + |data|;
      hasNextSavings := CreatePaginationMetadata(savingsPage, BATCH_SIZE, |paid|).next;
      savingsPage := savingsPage + 1;
    }
  }

  method TotalByMonth(rows: seq<MemberRow>) returns (monthlyTotals: array<int>, total: int)
    requires forall k :: 0 <= k < |rows| ==> |rows[k].cells| == 12
    ensures fresh(monthlyTotals) && monthlyTotals.Length == 12
    ensures forall m :: 0 <= m < 12 ==> monthlyTotals[m] == Sum(rows, CellAt(m))
    ensures total == Sum(rows, RowTotal())
  {
    monthlyTotals := new int[12](_ => 0);
    total := 0;
    for k := 0 to |rows|
      invariant forall m :: 0 <= m < 12 ==> monthlyTotals[m] == SumTo(rows, CellAt(m), k)
      invariant total == SumTo(rows, RowTotal(), k)
    {
      for m := 0 to 12
        invariant forall j :: 0 <= j < m ==> monthlyTotals[j] == SumTo(rows, CellAt(j), k + 1)
        invariant forall j :: m <= j < 12 ==> monthlyTotals[j] == SumTo(rows, CellAt(j), k)
      {
        var amount := rows[k].cells[m];
        if amount.Some? {
          monthlyTotals[m] := monthlyTotals[m] + amount.value;
        }
        assert CellAt(m)(rows[k]) == Amount(amount);
      }
      total := total + rows[k].total;
    }
  }

  /** `members` and `paid` are what the two paged queries return in all: active members, and paid rows of
      the year. */
  method GenerateMandatorySavingsReport(members: seq<Member>, paid: seq<Saving>) returns (report: Report)
    requires DistinctIds(members)
    requires forall i :: 0 <= i < |paid| ==> paid[i].month < 12
    ensures IsReport(report, members, paid)
  {
    var grid, order := CollectMembers(members, paid);
    grid := CollectSavings(grid, members, paid);
    assert forall k :: 0 <= k < |order| ==> order[k] == members[k].id && order[k] in grid;
    var rows := seq(|order|, k requires 0 <= k < |order| && order[k] in grid => grid[order[k]]);
    var monthlyTotals, total := TotalByMonth(rows);
    report := Report(rows, monthlyTotals[..], total);
  }

  ghost predicate IsReport(report: Report, members: seq<Member>, paid: seq<Saving>) {
    && |report.rows| == |members|
    && (forall k :: 0 <= k < |members| ==> IsRowOf(report.rows[k], members[k], paid, |paid|))
    && |report.monthlyTotals| == 12
    && (forall m :: 0 <= m < 12 ==> report.monthlyTotals[m] == Sum(report.rows, CellAt(m)))
    && report.total == Sum(report.rows, RowTotal())
  }

  // ----- when the totals agree

  /** The sum of a user's twelve cells, months below `m`. */
  function CellSum(paid: seq<Saving>, user: nat, n: nat, m: nat): int
    requires n <= |paid|
  {
    if m == 0 then 0 else CellSum(paid, user, n, m - 1) + Amount(LastAmount(paid, user, m - 1, n))
  }

  /** The amounts a later record of the same month pushed out of their cell. */
  function Overwritten(paid: seq<Saving>, user: nat, n: nat): int
    requires n <= |paid|
  {
    if n == 0 then 0
    else Overwritten(paid, user, n - 1) +
         (if paid[n - 1].user == user then Amount(LastAmount(paid, user, paid[n - 1].month, n - 1)) else 0)
  }

  lemma {:induction false} CellSumStep(paid: seq<Saving>, user: nat, n: nat, m: nat)
    requires 0 < n <= |paid|
    ensures CellSum(paid, user, n, m) == CellSum(paid, user, n - 1, m) +
              (if paid[n - 1].user == user && paid[n - 1].month < m
               then paid[n - 1].amount - Amount(LastAmount(paid, user, paid[n - 1].month, n - 1)) else 0)
  {
    if m > 0 {
      CellSumStep(paid, user, n, m - 1);
    }
  }

  lemma {:induction false} NoCells(paid: seq<Saving>, user: nat, m: nat)
    ensures CellSum(paid, user, 0, m) == 0
  {
    if m > 0 {
      NoCells(paid, user, m - 1);
    }
  }

  /** A member's total is the sum of the twelve cells and of everything overwritten. */
  lemma {:induction false} RowBalances(paid: seq<Saving>, user: nat, n: nat)
    requires n <= |paid| && forall i :: 0 <= i < n ==> paid[i].month < 12
    ensures SumTo(paid, OfUser(user), n) == CellSum(paid, user, n, 12) + Overwritten(paid, user, n)
  {
    if n == 0 {
      NoCells(paid, user, 12);
    } else {
      RowBalances(paid, user, n - 1);
      CellSumStep(paid, user, n, 12);
    }
  }

  ghost predicate OnePerMonth(paid: seq<Saving>, user: nat, n: nat)
    requires n <= |paid|
  {
    forall i, j :: 0 <= i < j < n && paid[i].user == user && paid[j].user == user ==> paid[i].month != paid[j].month
  }

  lemma {:induction false} LastAmountFound(paid: seq<Saving>, user: nat, month: nat, n: nat)
    requires n <= |paid| && forall i :: 0 <= i < n ==> paid[i].amount > 0
    ensures Amount(LastAmount(paid, user, month, n)) >= 0
    ensures Amount(LastAmount(paid, user, month, n)) == 0 <==>
            forall i :: 0 <= i < n ==> !(paid[i].user == user && paid[i].month == month)
  {
    if n > 0 {
      LastAmountFound(paid, user, month, n - 1);
    }
  }

  lemma {:induction false} OverwrittenIsExact(paid: seq<Saving>, user: nat, n: nat)
    requires n <= |paid| && forall i :: 0 <= i < n ==> paid[i].amount > 0
    ensures Overwritten(paid, user, n) >= 0
    ensures Overwritten(paid, user, n) == 0 <==> OnePerMonth(paid, user, n)
  {
    if n > 0 {
      OverwrittenIsExact(paid, user, n - 1);
      LastAmountFound(paid, user, paid[n - 1].month, n - 1);
    }
  }

  /** With positive amounts, a member's JUMLAH equals the sum of the member's twelve cells if and only if
      no month of that member was paid twice. */
  lemma {:induction false} RowTotalIsCellSum(paid: seq<Saving>, user: nat)
    requires forall i :: 0 <= i < |paid| ==> paid[i].month < 12 && paid[i].amount > 0
    ensures Sum(paid, OfUser(user)) == CellSum(paid, user, |paid|, 12) <==> OnePerMonth(paid, user, |paid|)
  {
    RowBalances(paid, user, |paid|);
    OverwrittenIsExact(paid, user, |paid|);
  }

  // ----- rows, columns and payments

  function RowCells(row: MemberRow, m: nat): int
    requires m <= |row.cells|
  {
    if m == 0 then 0 else RowCells(row, m - 1) + Amount(row.cells[m - 1])
  }

  function ColumnsTo(totals: seq<int>, m: nat): int
    requires m <= |totals|
  {
    if m == 0 then 0 else ColumnsTo(totals, m - 1) + totals[m - 1]
  }

  function CellsBelow(m: nat): MemberRow -> int {
    (row: MemberRow) => if m <= |row.cells| then RowCells(row, m) else 0
  }

  lemma {:induction false} ColumnsAreRows(report: Report, m: nat)
    requires m <= 12 && |report.monthlyTotals| == 12
    requires forall k :: 0 <= k < |report.rows| ==> |report.rows[k].cells| == 12
    requires forall j :: 0 <= j < 12 ==> report.monthlyTotals[j] == Sum(report.rows, CellAt(j))
    ensures ColumnsTo(report.monthlyTotals, m) == Sum(report.rows, CellsBelow(m))
  {
    if m == 0 {
      SumBounds(report.rows, CellsBelow(0), 0, 0, |report.rows|);
    } else {
      ColumnsAreRows(report, m - 1);
      SumSplitTo(report.rows, CellsBelow(m), CellsBelow(m - 1), CellAt(m - 1), |report.rows|);
    }
  }

  lemma {:induction false} RowCellsAreCellSum(row: MemberRow, member: Member, paid: seq<Saving>, m: nat)
    requires IsRowOf(row, member, paid, |paid|) && m <= 12
    ensures RowCells(row, m) == CellSum(paid, member.id, |paid|, m)
  {
    if m > 0 {
      RowCellsAreCellSum(row, member, paid, m - 1);
    }
  }

  function Ids(members: seq<Member>, n: nat): set<nat>
    requires n <= |members|
  {
    set k | 0 <= k < n :: members[k].id
  }

  lemma {:induction false} RowTotalsArePayments(rows: seq<MemberRow>, members: seq<Member>, paid: seq<Saving>, n: nat)
    requires |rows| == |members| && n <= |members| && DistinctIds(members)
    requires forall k :: 0 <= k < |members| ==> IsRowOf(rows[k], members[k], paid, |paid|)
    ensures SumTo(rows, RowTotal(), n) == Sum(paid, OfUsers(Ids(members, n)))
  {
    if n == 0 {
      SumBounds(paid, OfUsers(Ids(members, 0)), 0, 0, |paid|);
    } else {
      RowTotalsArePayments(rows, members, paid, n - 1);
      assert IsRowOf(rows[n - 1], members[n - 1], paid, |paid|);
      assert Ids(members, n) == Ids(members, n - 1) + {members[n - 1].id};
      assert members[n - 1].id !in Ids(members, n - 1);
      SumSplitTo(paid, OfUsers(Ids(members, n)), OfUsers(Ids(members, n - 1)), OfUser(members[n - 1].id), |paid|);
    }
  }

  /** The grand total is always what the active members paid. The monthly totals add up to it as well exactly
      when no active member's month was paid twice. */
  lemma TotalsAgree(report: Report, members: seq<Member>, paid: seq<Saving>)
    requires IsReport(report, members, paid) && DistinctIds(members)
    requires forall i :: 0 <= i < |paid| ==> paid[i].month < 12 && paid[i].amount > 0
    ensures report.total == Sum(paid, OfUsers(Ids(members, |members|)))
    ensures ColumnsTo(report.monthlyTotals, 12) == report.total <==>
            forall k :: 0 <= k < |members| ==> OnePerMonth(paid, members[k].id, |paid|)
  {
    RowTotalsArePayments(report.rows, members, paid, |members|);
    assert forall k :: 0 <= k < |members| ==> |report.rows[k].cells| == 12 by {
      forall k | 0 <= k < |members|
        ensures |report.rows[k].cells| == 12
      {
        assert IsRowOf(report.rows[k], members[k], paid, |paid|);
      }
    }
    ColumnsAreRows(report, 12);
    RowsExceedCells(report.rows, members, paid, |members|);
  }

  lemma {:induction false} RowsExceedCells(rows: seq<MemberRow>, members: seq<Member>, paid: seq<Saving>, n: nat)
    requires |rows| == |members| && n <= |members|
    requires forall k :: 0 <= k < |members| ==> IsRowOf(rows[k], members[k], paid, |paid|)
    requires forall i :: 0 <= i < |paid| ==> paid[i].month < 12 && paid[i].amount > 0
    ensures SumTo(rows, CellsBelow(12), n) <= SumTo(rows, RowTotal(), n)
    ensures SumTo(rows, CellsBelow(12), n) == SumTo(rows, RowTotal(), n) <==>
            forall k :: 0 <= k < n ==> OnePerMonth(paid, members[k].id, |paid|)
  {
    if n > 0 {
      RowsExceedCells(rows, members, paid, n - 1);
      assert IsRowOf(rows[n - 1], members[n - 1], paid, |paid|);
      RowCellsAreCellSum(rows[n - 1], members[n - 1], paid, 12);
      RowBalances(paid, members[n - 1].id, |paid|);
      OverwrittenIsExact(paid, members[n - 1].id, |paid|);
    }
  }

  /** `findPaidMandatorySavingsByYear` in table order. */
  function PaidOfYear(table: seq<Saving>, year: int, n: nat): seq<Saving>
    requires n <= |table|
  {
    if n == 0 then []
    else if table[n - 1].paid && table[n - 1].year == year then PaidOfYear(table, year, n - 1) + [table[n - 1]]
    else PaidOfYear(table, year, n - 1)
  }

  lemma {:induction false} PaidRowsComeFromTable(table: seq<Saving>, year: int, n: nat)
    requires n <= |table|
    ensures forall k :: 0 <= k < |PaidOfYear(table, year, n)| ==>
              IsPaidRowBelow(table, year, n, PaidOfYear(table, year, n)[k])
  {
    if n > 0 {
      PaidRowsComeFromTable(table, year, n - 1);
      var earlier := PaidOfYear(table, year, n - 1);
      forall k | 0 <= k < |earlier|
        ensures IsPaidRowBelow(table, year, n, earlier[k])
      {
        var i :| 0 <= i < n - 1 && table[i] == earlier[k] && table[i].paid && table[i].year == year;
      }
    }
  }

  ghost predicate IsPaidRowBelow(table: seq<Saving>, year: int, n: nat, x: Saving)
    requires n <= |table|
  {
    exists i :: 0 <= i < n && table[i] == x && table[i].paid && table[i].year == year
  }

  /** And all of them do: the query lists a row as often as it is in the table if it is paid and of the year, and not
      at all otherwise. */
  lemma {:induction false} EveryPaidRowIsListed(table: seq<Saving>, year: int, n: nat, x: Saving)
    requires n <= |table|
    ensures multiset(PaidOfYear(table, year, n))[x] == if x.paid && x.year == year then multiset(table[..n])[x] else 0
  {
    if n > 0 {
      EveryPaidRowIsListed(table, year, n - 1, x);
      assert table[..n] == table[..n - 1] + [table[n - 1]];
    }
  }

  ghost predicate MonthIsNew(paid: seq<Saving>, x: Saving) {
    forall k :: 0 <= k < |paid| && paid[k].user == x.user ==> paid[k].month != x.month
  }

  lemma NewRowIsUnpaidMonth(table: seq<Saving>, year: int, n: nat)
    requires 0 < n <= |table| && UniqueKeys(table) && table[n - 1].year == year
    ensures MonthIsNew(PaidOfYear(table, year, n - 1), table[n - 1])
  {
    var earlier := PaidOfYear(table, year, n - 1);
    PaidRowsComeFromTable(table, year, n - 1);
    forall k | 0 <= k < |earlier| && earlier[k].user == table[n - 1].user
      ensures earlier[k].month != table[n - 1].month
    {
      assert IsPaidRowBelow(table, year, n - 1, earlier[k]);
      var i :| 0 <= i < n - 1 && table[i] == earlier[k] && table[i].paid && table[i].year == year;
      assert table[i].Key() != table[n - 1].Key();
    }
  }

  lemma {:induction false} PaidRowsAreDistinct(table: seq<Saving>, year: int, n: nat, x: Saving)
    requires n <= |table| && UniqueKeys(table)
    ensures multiset(PaidOfYear(table, year, n))[x] <= 1
  {
    if n > 0 {
      PaidRowsAreDistinct(table, year, n - 1, x);
      if table[n - 1].paid && table[n - 1].year == year {
        NewRowIsUnpaidMonth(table, year, n);
        assert table[n - 1] !in PaidOfYear(table, year, n - 1);
      }
    }
  }

  /** In whatever order the query lists them: it sorts by name, which need not be unique. */
  ghost predicate ListsPaid(paid: seq<Saving>, table: seq<Saving>, year: int) {
    multiset(paid) == multiset(PaidOfYear(table, year, |table|))
  }

  lemma ListedRowIsPaidRow(paid: seq<Saving>, table: seq<Saving>, year: int, i: nat)
    requires ListsPaid(paid, table, year) && i < |paid|
    ensures IsPaidRowBelow(table, year, |table|, paid[i])
  {
    assert paid[i] in multiset(paid);
    assert paid[i] in PaidOfYear(table, year, |table|);
    PaidRowsComeFromTable(table, year, |table|);
  }

  lemma TwiceListed<T>(s: seq<T>, i: nat, j: nat)
    requires i < j < |s| && s[i] == s[j]
    ensures multiset(s)[s[i]] >= 2
  {
    assert s == s[..j] + [s[j]] + s[j + 1..];
    assert s[i] in s[..j];
  }

  /** What generation leaves, unique rows for a user and month, is what the report needs. */
  lemma UniqueRowsArePaidOnce(paid: seq<Saving>, table: seq<Saving>, year: int, user: nat)
    requires ListsPaid(paid, table, year) && UniqueKeys(table)
    ensures OnePerMonth(paid, user, |paid|)
  {
    forall i, j | 0 <= i < j < |paid| && paid[i].user == user && paid[j].user == user
      ensures paid[i].month != paid[j].month
    {
      if paid[i].month == paid[j].month {
        ListedRowIsPaidRow(paid, table, year, i);
        ListedRowIsPaidRow(paid, table, year, j);
        PaidRowsAreDistinct(table, year, |table|, paid[i]);
        var a :| 0 <= a < |table| && table[a] == paid[i] && table[a].paid && table[a].year == year;
        var b :| 0 <= b < |table| && table[b] == paid[j] && table[b].paid && table[b].year == year;
        assert table[a].Key() == table[b].Key();
        TwiceListed(paid, i, j);
        assert false;
      }
    }
  }
}
