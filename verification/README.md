# Verified model of the savings-and-loan cooperative backend

This project models the money of the cooperative and proves what every request keeps. It covers three parts that
share one database:

* **The immutable cashbook.** Three cached balances (SHU, capital, total) are moved only by the triggers on
  `cashbook_transactions` and, on a deletion, by hand. An update hides a row, inserts a reversal and a new entry; a
  deletion nets every linked row; the foreign key then unlinks them. `CashbookTriggers.dfy`, `CashbookService.dfy`,
  `Incomes.dfy` and `Expenses.dfy` hold the code; `CashbookLedger.dfy`, `LedgerHistory.dfy` and
  `LedgerRefinement.dfy` hold what it keeps.
* **The loan engine.** Pricing and the installment schedule (`LoanSchedule.dfy`), the monthly penalty run
  (`LoanPenalties.dfy`, `OverdueRuns.dfy`), and request, decision, disbursement and settlement (`Loans.dfy`,
  `Repayments.dfy`).
* **Savings and the yearly report.** `Savings.dfy` and `Reports.dfy`.

`Cooperative.dfy` puts the three together as one state with fourteen kinds of request, `CooperativeRuns.dfy` proves
the results about whole runs, `LoanLifecycle.dfy` the two state machines over runs, `LoanProgress.dfy`,
`Grants.dfy` and `UnpayableLoans.dfy` which loans can and cannot be paid off, `LateLoans.dfy` what a loan can cost,
`DepositRuns.dfy` which joining deposits can be settled, and `CooperativeLedger.dfy` that every run of the system is a
run of the ledger.

The tables are fields of one `class Database` (`Schema.dfy`), which the service methods update step by step inside a
transaction that is rolled back on failure. Each method is proved to do what a function on values says (the
predicates `Follows` and `Commits`), and the results are proved about those functions, so they hold of every run of
the methods (`CooperativeRuns.Serve`). Money is an integer count of 0.0001 rupiah, the scale of the `decimal(12,4)`
columns; decimals that are not yet stored are reals.

## What was found

A requested loan amount may have any number of decimals (src/loans/dto/create-loan.dto.ts:24-26 sets no limit, unlike
the expense DTOs): every column is computed from it before the principal is stored, so the conditions below are on the
amount asked for. One unit is 0.0001 rupiah, the fourth decimal.

* The last installment is generated without the clamp that its payment has. Its principal is positive if and only if
  the amount exceeds what the rounded first months pay by half a unit or more (`LoanSchedule.PrincipalsArePositive`).
  A loan can be paid off, from any point of any run, if and only if this holds and its stored interest is positive
  (`LoanProgress.LoansCanBePaidOff`, `UnpayableLoans.PaidOffLoansWerePayable`); otherwise the amounts CHECK refuses its
  last settlement for good. So 600 rupiah over 3 months can be borrowed but not paid back
  (`UnpayableLoans.SmallLoanIsNeverPaidOff`). A rate and an amount of 500 * tenor * (tenor - 1) rupiah, and at least
  one, avoid this at up to four decimals; beyond them half a unit a month more is needed
  (`LoanSchedule.LargeAmountsLeaveALast`), as 3000.00001 rupiah over 3 months show
  (`UnpayableLoans.FifthDecimalIsNeverPaidOff`).
* The rows add up, over every run, if and only if the clamp is inactive and the rounding errors of principal and
  monthly interest stay below half a unit together, or it is active and the amount rounds to what the first months pay
  (`LoanSchedule.RowsAddUp`, `CooperativeRuns.EveryRunAddsUp`). Up to four decimals that is an inactive clamp; beyond
  them it is not, as 1,000,000.00204 rupiah show (`LoanSchedule.RoundingsDisagree`).
* The interest is rounded every month in the installments and once in the total payable, so members may pay up to
  half a unit a month more or less than the total payable even with the clamp inactive. Nothing drifts at whole-rupiah
  amounts; in general, if and only if the errors of the principal and of all months stay below half a unit
  (`LoanSchedule.TotalsCoverPayable`, with `LoanSchedule.HalfUnitDrifts`). The bound of the lifetime cost by the total
  payable and tenor - 1 penalties holds in all runs if and only if the schedule does not exceed the total payable
  (`LateLoans.EveryRunKeepsThePromise`, `LateLoans.LateRunsTestThePromise`, `LateLoans.HalfUnitBreaksThePromise`).
* Changing or removing an income is refused exactly when its old amount is no longer in its bucket, even if the new
  amount is larger (`Incomes.ReearnedOutcome`, `Incomes.UnearnedOutcome`). Rebooking an income at its own amount is
  the one case where the reversal form refuses what the old in-place UPDATE accepted
  (`LedgerRefinement.SpentIncomeCannotBeRebooked`).
* A cashbook row that the insert trigger accepts keeps the total equal to its buckets if and only if neither part is
  negative (`CashbookTriggers.InsertTriggerIsExact`), and the amounts CHECK lets one negative part pass
  (`CashbookTriggers.NegativePartBreaksTheTotal`). No service writes such a row.
* Disbursing on the 29th to the 31st can give two installments the same due date, since `setMonth` runs over into
  the next month (`LoanSchedule.OverflowDoublesUp`).
* The stored fee and the stored net amount can miss the stored principal by one unit (`LoanSchedule.FeeSplitsPrincipal`):
  at two percent and up to four decimals, they are one too many if and only if the principal ends on 25 of every 50
  units (`LoanSchedule.TwoPercentFee`, `LoanSchedule.TieAddsAUnit`).
* A joining deposit can be settled if and only if, when it was asked for, the funds were at least a rupiah for each
  active member or, with no members yet, the configured minimum was at least half a unit
  (`DepositRuns.EveryRunSettlesDeposits`). Both ways of failing are reachable (`DepositRuns.EmptyShareIsNeverSettled`,
  `DepositRuns.EmptyMinimumIsNeverSettled`). A configured mandatory amount between zero and half a unit likewise
  generates rows that cannot be settled (`Savings.MandatoryAmountIsPositive`, `Cooperative.SavingOutcome`).
* Disbursement takes principal minus fee out of capital and also adds the fee to SHU; the reconciliation states
  what the code posts. No code sets a loan to `completed`, so no reachable loan is.
* `docs/business-flow/penalty-system.md` counts consecutive unpaid installments; the code counts overdue ones and
  penalises the oldest without a penalty. The code is followed.

## Model

| member | source | states |
|---|---|---|
| `CashbookTriggers.InsertTriggerIsExact` | src/database/migrations/20260405101911_add_cashbook_balance_guard.ts:13-80 | on non-negative parts the guarded insert trigger refuses exactly what a bucket cannot pay; a row it accepts moves the balances exactly, and keeps total = shu + capital, if and only if neither part is negative |
| `CashbookTriggers.NegativePartBreaksTheTotal` | src/database/migrations/20260405101911_add_cashbook_balance_guard.ts:20-39 | instance: a row that passes the amounts CHECK with one negative part leaves total different from shu + capital |
| `CashbookTriggers.AdjustBalance` | src/cashbook/cashbook-balance.repository.ts:132-141 | adds the delta to one balance and no other, and fails exactly when the CHECK on that balance would |
| `CashbookTriggers.MoveBalances` | src/database/migrations/20251121120850_create_cashbook_triggers.ts:79-116 | the three guarded UPDATEs of a trigger branch amount to one signed movement |
| `CashbookTriggers.FireInsert` | src/database/migrations/20260405101911_add_cashbook_balance_guard.ts:13-80 | the trigger body does what the insert function says, with its two exceptions |
| `CashbookTriggers.FireUpdate` | src/database/migrations/20251121120850_create_cashbook_triggers.ts:72-163 | the update trigger undoes the old row and applies the new one, and is idle when amounts and direction stay |
| `CashbookTriggers.FireDelete` | src/database/migrations/20251121120850_create_cashbook_triggers.ts:173-222 | the delete trigger undoes the row |
| `CashbookTriggers.CreateTransaction` | src/cashbook/cashbook-transaction.repository.ts:28-53 | a row is appended if the amounts CHECK and its trigger accept it |
| `CashbookTriggers.UpdateRow` | src/cashbook/cashbook-transaction.repository.ts:499-508 | hiding or unlinking a row changes that row alone and moves no balance, though the update trigger fires |
| `CashbookLedger.FindLatestActive` | src/cashbook/cashbook-transaction.repository.ts:425-453 | finds the newest visible row of an income or expense, or says that there is none |
| `CashbookLedger.RecordWritesRow` | src/cashbook/cashbook-transaction.service.ts:57-81 | a first entry appends one row and touches no other: dated as given, with the given amounts, into the balances for an income and out of them for an expense, on the balances found |
| `CashbookLedger.RecordKeepsInvariant` | src/cashbook/cashbook-transaction.service.ts:29-161 | a first entry keeps the ledger invariant: balances agree with linked rows and with visible rows, one active entry per live document, reversals paired |
| `CashbookLedger.RebookOutcome` | src/cashbook/cashbook-transaction.service.ts:182-260 | an update goes through if and only if the old amounts can be undone and the new ones applied, and what the balances then are |
| `CashbookLedger.RebookWritesPair` | src/cashbook/cashbook-transaction.service.ts:219-260 | the reversal keeps the original's date and amounts, the new entry is dated anew only if a date is given, the two snapshots join, and older rows change in one flag only |
| `CashbookLedger.RebookKeepsInvariant` | src/cashbook/cashbook-transaction.service.ts:170-377 | reversal and new entry keep the ledger invariant, pairing included |
| `CashbookLedger.UnbookOutcome` | src/cashbook/cashbook-transaction.service.ts:387-434 | a deletion gives back exactly the current amounts, for an expense always, for an income if and only if they are still there |
| `CashbookLedger.UnbookKeepsInvariant` | src/database/migrations/20260419090000_alter_cashbook_transactions_for_immutable_ledger.ts:15-34 | netting, hiding and ON DELETE SET NULL together keep the ledger invariant |
| `CashbookService.CreateIncomeTransaction` | src/cashbook/cashbook-transaction.service.ts:29-94 | writes the row with the snapshots before and after, or fails as the insert does |
| `CashbookService.CreateExpenseTransaction` | src/cashbook/cashbook-transaction.service.ts:96-161 | the same for an expense |
| `CashbookService.UpdateExpenseTransaction` | src/cashbook/cashbook-transaction.service.ts:170-272 | hides the latest active row, then inserts its reversal and the new entry with computed snapshots |
| `CashbookService.UpdateIncomeTransaction` | src/cashbook/cashbook-transaction.service.ts:281-377 | the same for an income, with the directions exchanged |
| `CashbookService.NetLinkedRows` | src/cashbook/cashbook-transaction.service.ts:403-409 | the loop nets all rows of the document, hidden and reversal rows included |
| `CashbookService.TakeBackNet` | src/cashbook/cashbook-transaction.service.ts:411-420 | each balance is adjusted unless its net is zero, under its CHECK |
| `CashbookService.DeleteTransaction` | src/cashbook/cashbook-transaction.service.ts:387-488 | balances give back the net and every linked row is hidden |
| `CashbookService.UnlinkRows` | src/database/migrations/20260419090000_alter_cashbook_transactions_for_immutable_ledger.ts:28-34 | ON DELETE SET NULL unlinks exactly the rows of the document and moves no balance |
| `CashbookService.DeleteAndUnlink` | src/expenses/expenses.service.ts:409-419 | service and foreign key together unbook the document |
| `Incomes.EarnedOutcome` | src/incomes/incomes.service.ts:14-53 | recording an income succeeds if and only if its amount is positive, and then adds it to its bucket alone, with one cashbook row of the given date |
| `Incomes.ReearnedOutcome` | src/cashbook/cashbook-transaction.service.ts:281-377 | changing an income succeeds if and only if the new amount is positive and the old one still in its bucket, and changes its amount and bucket alone |
| `Incomes.ReearnedIsDated` | src/cashbook/cashbook-transaction.service.ts:308-366 | its new cashbook entry has the date given, or else the date of the entry it replaces |
| `Incomes.UnearnedOutcome` | src/cashbook/cashbook-transaction.service.ts:441-488 | removing an income succeeds if and only if its amount has not been spent |
| `Incomes.RecordIncome` | src/loans/loans.service.ts:540-552 | an incomes row and its cashbook row, as every caller writes them |
| `Expenses.AllocationIsOptimal` | src/expenses/expenses.service.ts:42-115 | allocation succeeds if and only if some split the source allows is payable, the split is sound, and none draws less SHU |
| `Expenses.CreatedOutcome` | src/expenses/expenses.service.ts:148-238 | creation succeeds if and only if the effective source covers the amount; the trigger guard never refuses it afterwards |
| `Expenses.CreatedKeepsInvariant` | src/expenses/expenses.service.ts:184-238 | every successful creation stores the chosen split, takes exactly it out of the balances, and keeps the ledger invariant |
| `Expenses.UpdatedOutcome` | src/expenses/expenses.service.ts:269-396 | an update succeeds if and only if the category is known and the source it must draw on (the one asked for, else the stored one, else the default of the new or stored category) covers the amount with the old amounts restored; the new split draws the least SHU that source allows, the rest of the row changes only as asked, and the cashbook gets its pair of rows exactly for a new amount or date |
| `Expenses.UpdateRefusals` | src/expenses/expenses.service.ts:277-310 | what each refusal of an update means, and that there is no other |
| `Expenses.PostRefusals` | src/expenses/expenses.service.ts:148-200 | what each refusal of a creation means, and that there is no other |
| `Expenses.DeletedOutcome` | src/expenses/expenses.service.ts:398-422 | deleting a live expense always succeeds and gives back exactly its current amounts |
| `Expenses.InsertExpense` | src/database/migrations/20250825090036_create_expenses_table.ts:15-48 | the insert succeeds if and only if its amounts CHECK holds |
| `Expenses.CreateExpenseInTransaction` | src/expenses/expenses.service.ts:184-238 | the steps of the flow, tied to its specification |
| `Expenses.CreateExpense` | src/expenses/expenses.service.ts:148-182 | all of it or nothing |
| `Expenses.UpdateExpense` | src/expenses/expenses.service.ts:269-312 | all of it or nothing, checks before the transaction included |
| `Expenses.UpdateExpenseInTransaction` | src/expenses/expenses.service.ts:312-388 | reallocates with the restored amounts and touches the cashbook only for a new amount or date |
| `Expenses.DeleteExpense` | src/expenses/expenses.service.ts:398-422 | all of it or nothing |
| `LedgerHistory.StepAppends` | src/cashbook/cashbook-transaction.service.ts:57-81 | every create and update inserts its rows one on top of the other with snapshots equal to the real balances around their trigger, and leaves the balances on the last of them |
| `LedgerHistory.EveryRunKeepsLedger` | src/cashbook/cashbook-transaction.service.ts:170-434 | after every run of creates, updates and deletes: three-way agreement, one active entry per live document equal to its amounts, reversals paired one to one with hidden originals |
| `LedgerHistory.EveryRunKeepsDates` | src/expenses/expenses.service.ts:356-387 | after every run each live expense's active cashbook row has the expense's date, whatever amounts and dates were changed, alone or together |
| `LedgerHistory.EveryRunChains` | src/cashbook/cashbook-transaction.service.ts:200-260 | over every run each row's snapshots are the balances around its trigger, and consecutive rows chain but for exactly the deletions between them |
| `LedgerRefinement.RebookRefinesInPlace` | src/database/migrations/20251121120850_create_cashbook_triggers.ts:73-163 | the reversal form leaves the balances of an in-place UPDATE and goes through if and only if it would, but for one named case |
| `LedgerRefinement.SpentIncomeCannotBeRebooked` | src/cashbook/cashbook-transaction.service.ts:308-347 | witness of that case, for every amount |
| `LedgerRefinement.DeleteEachNets` | src/database/migrations/20251121120850_create_cashbook_triggers.ts:174-222 | deleting linked rows one by one nets them, and goes through if and only if the buckets cover what every prefix of them nets to |
| `LedgerRefinement.NettingRefinesDeleteEach` | src/cashbook/cashbook-transaction.service.ts:403-420 | wherever deleting row by row goes through, so does netting, with the same balances |
| `LedgerRefinement.LoweredIncomeNeedsNetting` | src/cashbook/cashbook-transaction.service.ts:441-488 | netting accepts more: an income earned and then lowered can be removed by netting, and not by deleting its rows one by one |
| `LedgerRefinement.EveryRunNeverAhead` | src/cashbook/cashbook-transaction.service.ts:170-434 | in every run no prefix of an expense's rows nets to an inflow |
| `LedgerRefinement.DeletingAnExpenseRefinesDeleteEach` | src/cashbook/cashbook-transaction.service.ts:387-434 | in every reachable state both forms delete an expense, with equal balances |
| `LoanSchedule.RoundsUpToLeastMultiple` | src/loans/utils.ts:20-31 | the remainder branches give 500 * ceiling(amount / 500), the least multiple not below the amount |
| `LoanSchedule.RoundingIsMonotoneAndIdempotent` | src/loans/utils.ts:20-31 | rounding is monotone and idempotent |
| `LoanSchedule.PaymentColumns` | src/loans/loans.service.ts:172-213 | the stored payments for every amount of any number of decimals, rate and tenor: rounded monthly principal and interest, clamped last month, total payable |
| `LoanSchedule.NewLoanIsPriced` | src/loans/loans.service.ts:231-270 | whatever was asked for, the columns of a new loan give back the rounded monthly principal exactly, and the last payment and the total payable miss their parts exactly by the rounding errors of the stored principal and interest |
| `LoanSchedule.NewLoanIsApplication` | src/loans/loans.service.ts:231-270 | what a request must store, for any decimals: the requester's pending loan, with principal, fee, net amount, monthly interest and total payable each the nearest unit of its exact value, the monthly payment, and the clamped last payment |
| `LoanSchedule.MonthlyPrincipalIsLeast` | src/loans/loans.service.ts:184-190 | the rounded monthly principal is the least multiple of 500 rupiah that covers the amount over the term |
| `LoanSchedule.FeeSplitsPrincipal` | src/loans/loans.service.ts:236-262 | stored fee and stored net amount add up to the stored principal but for a unit, decided by the errors of principal and fee; at four decimals one too many if and only if the fee is a tie |
| `LoanSchedule.TwoPercentFee` | src/loans/loans.service.ts:236-262 | at the default fee of two percent, an amount of at most four decimals is split one unit too high if and only if it ends on 25 of every 50 units |
| `LoanSchedule.TieAddsAUnit` | src/loans/loans.service.ts:236-262 | instance: a loan of 0.0025 rupiah stores a fee of 1 unit and a net amount of 25 |
| `LoanSchedule.DueDatesAdvance` | src/loans/loans.service.ts:637-642 | due dates are the 20th of the month reached, or of the next one if and only if that month lacks the day of disbursement by the Gregorian calendar; they never move back, and move by exactly one month for disbursement days up to 28 |
| `LoanSchedule.DueDatesNeverDecrease` | src/loans/loans.service.ts:637-642 | due dates never decrease with the installment number |
| `LoanSchedule.OverflowDoublesUp` | src/loans/loans.service.ts:639-641 | witness: January 31st of any common year gives installments 1 and 2 one due date |
| `LoanSchedule.GenerateInstallments` | src/loans/loans.service.ts:613-665 | the loop builds the schedule, number by number |
| `LoanSchedule.ScheduleRow` | src/loans/loans.service.ts:637-661 | every row: its number, its due date by the calendar, the interest, no penalty, due; the rounded monthly principal with its payment before the last month, and in it what is left of the principal with the last payment |
| `LoanSchedule.PrincipalsSumToPrincipal` | src/loans/loans.service.ts:626-648 | installment principals always sum to the loan's principal |
| `LoanSchedule.TotalsSum` | src/loans/loans.service.ts:621-649 | totals sum to principal and interest plus exactly the slack of the last payment |
| `LoanSchedule.TotalsCoverPayable` | src/loans/loans.service.ts:194-205 | totals sum to the total payable and an excess: with the clamp inactive at most half a unit a month; without drift none if and only if the rows add up; at four decimals, without drift never negative and none if and only if the clamp is inactive; whole rupiah never drift |
| `LoanSchedule.HalfUnitDrifts` | src/loans/loans.service.ts:204-205 | instance: 1,000,000.005 rupiah over the seeded 3 months at 0.01 cost one unit more than the total payable, with the clamp inactive and the rows adding up |
| `LoanSchedule.RowsAddUp` | src/loans/loans.service.ts:630-649 | every row's total is its principal and interest if and only if, with the clamp inactive, the errors of principal and interest stay below half a unit together, or, with it active, the amount rounds to what the first months pay; at four decimals, if and only if the clamp is inactive |
| `LoanSchedule.PrincipalsArePositive` | src/loans/loans.service.ts:629-648 | every installment principal is positive if and only if the amount exceeds what the first months pay by half a unit or more; at four decimals, if and only if by anything |
| `LoanSchedule.LargeAmountsLeaveALast` | src/loans/loans.service.ts:184-198 | an amount of 500 * tenor * (tenor - 1) rupiah or more, and beyond four decimals half a unit a month more, keeps the clamp inactive and every installment principal positive |
| `LoanSchedule.BoundNeedsHalfUnits` | src/loans/loans.service.ts:629-648 | instance: 3000.00001 rupiah over 3 months meet 500 * tenor * (tenor - 1) and leave a third installment of no principal |
| `LoanSchedule.RoundingsDisagree` | src/loans/loans.service.ts:191-200 | instance: of 1,000,000.00204 rupiah over the seeded 3 months at 0.01 the last row does not add up, though the clamp is inactive |
| `LoanSchedule.SmallPrincipalOvershoots` | src/loans/loans.service.ts:628-649 | instance: a loan of 600 rupiah over 3 months, at any rate and fee, is scheduled with a third principal of -400 rupiah whose row does not add up |
| `LoanPenalties.RunMarksExactlyOne` | src/loans/loans.repository.ts:307-315 | a run makes an installment overdue if and only if it is due, its due month and day are the cutoff or earlier, and no smaller number meets both; no other status changes, and nothing at all if there is none |
| `LoanPenalties.RunPenalisesTheRest` | src/loans/loans.service.ts:127-151 | after a run every overdue installment but the one just marked has its penalty, and that one if and only if all overdue before had theirs |
| `LoanPenalties.PenaltyIsNearest` | src/loans/loans.service.ts:108-114 | a penalty is a month's interest on the stored principal, to the nearest unit |
| `LoanPenalties.ScheduleIsSound` | src/loans/loans.service.ts:651-661 | a generated schedule meets the plan invariant |
| `LoanPenalties.RunKeepsPlanSound` | src/loans/loans.service.ts:108-156 | a run keeps it: penalties zero or exactly principal * rate, at most one unpenalised overdue, oldest first, penalties one behind the marks |
| `LoanPenalties.PayingKeepsPlanSound` | src/loans/loans.repository.ts:345-367 | so does settling any installment |
| `LoanPenalties.AsGenerated` | src/loans/loans.repository.ts:391-424 | number, due date, principal and interest never change; a total is the generated one plus the penalty |
| `LoanPenalties.TotalsCountPenalties` | src/loans/loans.repository.ts:408-419 | totals exceed the schedule's by one full penalty for each penalised installment |
| `LoanPenalties.FewPenalties` | src/loans/loans.service.ts:133-151 | a loan has fewer penalties than installments ever marked overdue |
| `LoanPenalties.LifetimeCost` | src/loans/loans.service.ts:202-205 | the cost is the total payable, the excess of the schedule and one penalty for each charged installment; at most the total payable and tenor - 1 penalties exactly while the penalties not yet charged make up for the excess |
| `LoanPenalties.LargeLoansExceedLittle` | src/loans/loans.service.ts:184-205 | a large amount keeps the excess within half a unit a month, and one of at most four decimals has none if and only if it rounds evenly, as whole rupiah do |
| `LoanPenalties.LateRunsReachTheBound` | src/loans/loans.service.ts:108-156 | runs that find everything late charge tenor - 1 penalties, and then the cost keeps the bound if and only if the schedule has no excess |
| `LoanPenalties.AllPaidBringsInPrincipal` | src/loans/loans.service.ts:733-795 | once all are paid, principals sum to the loan's and the rest to every month's interest and every penalty |
| `OverdueRuns.FindOverdueInstallments` | src/loans/loans.repository.ts:307-315 | the fetch returns exactly the rows that are due with a due month and day at the cutoff or earlier, by loan and installment number |
| `OverdueRuns.GroupByLoan` | src/loans/loans.service.ts:689-698 | the grouping mentions each loan once, with its first row first |
| `OverdueRuns.FirstMentionIsFirst` | src/loans/loans.service.ts:116-121 | the first row of a group is the loan's oldest installment due by the cutoff |
| `OverdueRuns.AddPenalty` | src/loans/loans.repository.ts:391-424 | the stored penalty and total grow by exactly the stored value of principal * rate |
| `OverdueRuns.ProcessLoanOverdueInstallments` | src/loans/loans.service.ts:91-170 | marks the group's first row and penalises as specified, touching no other loan |
| `OverdueRuns.ProcessOverdueInstallments` | src/loans/loans.service.ts:667-706 | fetch, grouping and the loop amount to one run on every loan at once |
| `Loans.CheckMaxLoans` | src/database/migrations/20250908020539_create_constraints_business_rules.ts:5-35 | refuses an open row if and only if the member has three other open loans |
| `Loans.CreateLoan` | src/loans/loans.service.ts:220-291 | all of it or nothing, refusals included |
| `Loans.ApproveLoan` | src/loans/loans.service.ts:426-478 | all of it or nothing, out of pending only |
| `Loans.RejectLoan` | src/loans/loans.service.ts:571-611 | all of it or nothing, out of pending only |
| `Loans.FindLoanToDisburse` | src/loans/loans.service.ts:480-510 | the read and its checks outside the transaction |
| `Loans.DisburseLoan` | src/loans/loans.service.ts:512-569 | the transaction that trusts the earlier read: all of it or nothing |
| `Loans.PayOut` | src/loans/loans.service.ts:525-552 | the disbursement expense and the fee income |
| `Loans.SettleInstallment` | src/loans/loans.service.ts:708-815 | all of it or nothing |
| `Loans.Collect` | src/loans/loans.service.ts:745-800 | principal, interest and, if any, penalty, each with its cashbook row |
| `Savings.InsertAllOnlyAdds` | src/savings/mandatory-savings.repository.ts:299-303 | ON CONFLICT IGNORE never changes a row, adds exactly the missing users and months, and never makes two rows for one of them |
| `Savings.GenerationIsIdempotent` | src/savings/mandatory-savings.repository.ts:299-303 | generating again changes nothing |
| `Savings.GenerationsCommute` | src/savings/mandatory-savings.repository.ts:419-423 | two generations in either order leave rows for the same users and months |
| `Savings.BatchCoversTheYear` | src/savings/mandatory-savings.repository.ts:276-293 | the batch is one unpaid row of the amount and year for each user and each month from the start month to December, and no other |
| `Savings.GeneratedOutcome` | src/savings/mandatory-savings.repository.ts:268-320 | a generation keeps every row and adds unpaid ones of the amount, only for users and months of the year that had none; afterwards a user has a row for a month if and only if there was one or the generation was for it; no other table changes |
| `Savings.GenerateRemainingYearSavings` | src/savings/mandatory-savings.repository.ts:268-320 | the nested loops insert that batch and report its size |
| `Savings.MandatoryAmountIsPositive` | src/savings/savings.service.ts:151-167 | a positive configured amount is asked for to the nearest unit and any other as 500,000 rupiah; so rows ask for something unless it is positive but below half a unit |
| `Savings.DepositIsAnEqualShare` | src/users-savings/users-savings.service.ts:116-137 | the joining deposit is the largest whole-rupiah share of the total that all active members could be given or, with no members, the minimum to the nearest unit |
| `Savings.DepositIsPositive` | src/users-savings/users-savings.service.ts:116-137 | the amount asked is positive if and only if the funds are at least a rupiah a member or, with no members, the configured minimum is at least half a unit |
| `Savings.AskedOutcome` | src/users-savings/users-savings.service.ts:85-137 | a joining request adds one unpaid deposit of that amount and nothing else, and is refused if and only if the user has one |
| `Savings.SettleMandatorySavings` | src/savings/savings.service.ts:320-385 | all of it or nothing |
| `Savings.CreatePrincipalSavings` | src/users-savings/users-savings.service.ts:85-133 | asks for the share, once for each user |
| `Savings.FindDeposit` | src/users-savings/users-savings.service.ts:37-48 | finds a deposit of the user or says that there is none |
| `Savings.SettlePrincipalSavings` | src/users-savings/users-savings.service.ts:30-83 | all of it or nothing |
| `Reports.PagesAreConsecutive` | src/database/base.repository.ts:93-110 | each page begins where the one before ended, and `next` holds exactly while rows remain, so paging ends and sees each row once |
| `Reports.PagesAreCounted` | src/database/base.repository.ts:93-110 | the page count is the least number of pages that hold all rows, and `prev` holds exactly if rows were skipped |
| `Reports.CollectMembers` | src/reports/reports.service.ts:32-53 | the paging loop ends with one empty row for each member, in order |
| `Reports.CollectSavings` | src/reports/reports.service.ts:62-91 | the paging loop ends with every payment absorbed once |
| `Reports.TotalByMonth` | src/reports/reports.service.ts:218-236 | the nested loops total each column and all rows |
| `Reports.GenerateMandatorySavingsReport` | src/reports/reports.service.ts:24-95 | cell by cell what the report holds |
| `Reports.RowTotalIsCellSum` | src/reports/reports.service.ts:74-87 | a member's total is the sum of the twelve cells if and only if no month was paid twice |
| `Reports.TotalsAgree` | src/reports/reports.service.ts:218-236 | the grand total is what the members paid, and the monthly totals add up to it if and only if no member's month was paid twice |
| `Reports.EveryPaidRowIsListed` | src/savings/mandatory-savings.repository.ts:500-548 | the year query lists exactly the paid rows of the year, each as often as it is in the table |
| `Reports.UniqueRowsArePaidOnce` | src/savings/mandatory-savings.repository.ts:500-548 | the rows the year query lists hold no month of a member twice, in whatever order it lists them |
| `Cooperative.SavingOutcome` | src/savings/savings.service.ts:333-371 | a mandatory saving settles if and only if it is there, unpaid, and above zero; then it is paid, its amount is in capital with one income and one row of the given date, and nothing else has changed |
| `Cooperative.DepositOutcome` | src/users-savings/users-savings.service.ts:30-83 | the same for a joining deposit of the user, and what each refusal means |
| `Cooperative.RequestOutcome` | src/loans/loans.service.ts:220-270 | a request succeeds if and only if the amount is positive, the period exists and the member has fewer than three pending, approved or active loans; it appends the member's application, adds one to the member's open loans and to nobody else's, and changes nothing else |
| `Cooperative.DecisionOutcome` | src/loans/loans.service.ts:435-597 | approval and rejection succeed if and only if the loan is pending, and change its status alone; the limit never stops them |
| `Cooperative.ReadOutcome` | src/loans/loans.service.ts:481-510 | the read before a disbursement succeeds if and only if the loan is approved and the category there, and changes no table |
| `Cooperative.SecondBatchClashes` | src/database/migrations/20250825085945_create_installments_table.ts:32-32 | a batch clashes on the unique key if and only if the loan is already active, whatever the disburser read |
| `Cooperative.DisbursementOutcome` | src/loans/loans.service.ts:480-554 | a disbursement commits if and only if the loan is still approved, capital covers the net amount, and net amount and fee are positive |
| `Cooperative.SecondDisbursementClashes` | src/database/migrations/20250825085945_create_installments_table.ts:32-32 | a second disbursement of a loan is refused by that key, whatever its reader read |
| `Cooperative.PaidOutOutcome` | src/loans/loans.service.ts:525-552 | it takes the net amount from capital, adds the fee to SHU, and writes one expense and one income |
| `Cooperative.DisbursedShape` | src/loans/loans.service.ts:518-552 | it leaves the loan active with its one schedule and its two postings, and nothing else changed |
| `Cooperative.DisburseKeepsInv` | src/loans/loans.service.ts:480-569 | a committed disbursement keeps the invariant of the whole system |
| `Repayments.RunOverdueKeepsInv` | src/loans/loans.service.ts:667-706 | an overdue run keeps it, and brings nothing in |
| `Repayments.RunOutcome` | src/loans/loans.service.ts:667-706 | on the tables: in each plan a run makes overdue the oldest row due by the cutoff, and changes no other status and no other table |
| `Repayments.CollectedOutcome` | src/loans/loans.service.ts:745-800 | a settlement posts if and only if principal and interest are positive: principal to capital, interest and penalty to SHU |
| `Repayments.SettledShape` | src/loans/loans.service.ts:729-802 | on the tables: the installment is paid, its parts are in their buckets with an income for each, and nothing else has changed |
| `Repayments.SettleKeepsInv` | src/loans/loans.service.ts:708-802 | a settlement keeps the invariant of the whole system |
| `Repayments.SettlementOutcome` | src/loans/loans.service.ts:729-777 | an unpaid installment settles if and only if its interest is positive and it is not a last installment that the rounding left without principal; what each refusal means |
| `Repayments.RatedLoansBearInterest` | src/loans/loans.service.ts:178-178 | from one rupiah of principal on, stored interest is positive if and only if the rate is |
| `Repayments.PayableLoansAlwaysSettle` | src/loans/loans.service.ts:718-802 | for a loan that bears interest and leaves something for the last month, settling fails only for what is already paid |
| `Repayments.LargeLoansArePayable` | src/loans/loans.service.ts:184-198 | rated loans of large amounts, of a rupiah at least, are such |
| `Repayments.LargeLoansAlwaysSettle` | src/loans/loans.service.ts:718-802 | for a rated loan of a large amount, settling fails only for what is already paid |
| `CooperativeRuns.EveryRunKeepsInv` | src/loans/loans.service.ts:515-552 | every run of every request keeps the invariant of the whole system |
| `CooperativeRuns.StepTouchesOnly` | src/loans/loans.service.ts:220-815 | which requests change which tables |
| `CooperativeRuns.EveryRunReconciles` | src/loans/loans.service.ts:742-795 | after every run capital and SHU are what the business tables say, total is their sum, none is negative, and both sums over the cashbook agree |
| `CooperativeRuns.EveryRunPenalises` | src/loans/loans.service.ts:108-156 | after every run: due means no penalty, each penalty is zero or principal * rate, at most one overdue is unpenalised, oldest first, totals follow |
| `CooperativeRuns.EveryRunAddsUp` | src/loans/loans.repository.ts:408-419 | after every run each installment of a loan keeps total = principal + interest + penalty, all of them if and only if the last row adds up when generated; at four decimals, if and only if the clamp is inactive |
| `CooperativeRuns.EveryRunCostsExactly` | src/loans/loans.service.ts:113-156 | after every run a loan's totals are exactly principal, interest, the slack of the last payment, and penalties, fewer than its installments |
| `CooperativeRuns.EveryRunBoundsCost` | src/loans/loans.service.ts:202-205 | in every run the cost stays between the total payable and that plus tenor - 1 penalties, both with the excess of the schedule |
| `CooperativeRuns.EveryRunRepays` | src/loans/loans.service.ts:742-800 | after every run a loan's repayment postings are what its paid installments carry; paid off, exactly its principal and its interest with penalties |
| `CooperativeRuns.EveryRunKeepsLimit` | src/database/migrations/20250908020539_create_constraints_business_rules.ts:12-34 | in every run no member has more than three pending, approved or active loans, and the limit refuses requests only |
| `CooperativeRuns.EveryRunReportAgrees` | src/reports/reports.service.ts:35-91 | after every run every total of every year's report agrees with every other and with the payments |
| `CooperativeRuns.Serve` | src/loans/loans.service.ts:480-815 | the service methods on live tables follow the specified step and keep the invariant |
| `LoanLifecycle.StepMovesLoan` | src/loans/loans.service.ts:426-611 | each status move has its one cause, terms never change, and nothing else moves a loan |
| `LoanLifecycle.StepMovesInstallment` | src/loans/loans.repository.ts:345-424 | settling pays, a run makes overdue the oldest row whose due date is at its cutoff or earlier, a penalty comes only from a run and only once; nothing else changes an installment |
| `LoanLifecycle.EveryRunMovesForward` | src/loans/loans.service.ts:426-802 | between any two points of any run, rejections and disbursements are final, paid installments untouched, penalties never taken back |
| `LoanProgress.PendingLoansCanBeDisbursed` | src/loans/loans.service.ts:426-554 | from any reachable state, approval and one disbursement make a pending loan active, with its schedule, if capital covers it |
| `LoanProgress.LoansCanBePaidOff` | src/loans/loans.service.ts:708-802 | from any point of any run, settling a loan that bears interest and leaves something for the last month in order pays it off, with exactly its principal, interest and penalties posted |
| `LoanProgress.LargeLoansCanBePaidOff` | src/loans/loans.service.ts:708-802 | so can rated loans of large amounts |
| `UnpayableLoans.UnpayableLoansAreNeverPaidOff` | src/loans/loans.service.ts:718-802 | in every run, the last installment of any other active loan is unpaid, and settling it is refused |
| `UnpayableLoans.PaidOffLoansWerePayable` | src/loans/loans.service.ts:718-802 | so an active loan can be paid off if and only if it bears interest and its first months leave something for the last |
| `UnpayableLoans.UnpayableApplicationIsNeverPaidOff` | src/loans/loans.service.ts:220-802 | an application that can be granted but not paid off is granted, and whatever comes after, its last installment stays unpaid |
| `UnpayableLoans.SmallLoanIsNeverPaidOff` | src/loans/loans.service.ts:613-802 | instance: 600 rupiah over 3 months |
| `UnpayableLoans.FifthDecimalIsNeverPaidOff` | src/loans/loans.service.ts:613-802 | instance: 3000.00001 rupiah over 3 months, which a request may ask for |
| `Grants.GrantedIsFresh` | src/loans/loans.service.ts:220-569 | a first application that the opening capital pays and whose fee is positive is granted: requested, approved, read and disbursed, it has its schedule |
| `LateLoans.EveryRunKeepsThePromise` | src/loans/loans.service.ts:202-205 | a loan without excess costs at most the total payable and tenor - 1 penalties in every run |
| `LateLoans.LateRunsTestThePromise` | src/loans/loans.service.ts:667-706 | from a disbursement on, tenor overdue runs reach that bound and the excess, so it holds of all runs if and only if there is none |
| `LateLoans.HalfUnitBreaksThePromise` | src/loans/loans.service.ts:667-706 | instance: 1,000,000.005 rupiah over the seeded 3 months at 0.01, granted and then late three times, cost one unit more |
| `DepositRuns.AskedDepositOutcome` | src/users-savings/users-savings.service.ts:30-133 | a deposit just asked for settles if and only if the funds were at least a rupiah for each active member or, with none, the configured minimum is at least half a unit |
| `DepositRuns.EveryRunSettlesDeposits` | src/users-savings/users-savings.service.ts:30-133 | the same at any later point of any run, for a deposit still unpaid; and no other deposit is ever paid |
| `DepositRuns.EmptyShareIsNeverSettled` | src/users-savings/users-savings.service.ts:116-133 | instance: once the opening capital is spent, a joining member is asked for nothing, which nothing that follows can settle |
| `DepositRuns.EmptyMinimumIsNeverSettled` | src/users-savings/users-savings.service.ts:126-137 | instance: the first member under a configured minimum below half a unit |
| `CooperativeLedger.EveryRunIsALedgerRun` | src/loans/loans.service.ts:525-552 | the cashbook of every run of the system is that of a run of single ledger steps |
| `CooperativeLedger.EveryRunKeepsHistory` | src/cashbook/cashbook-transaction.service.ts:200-260 | so its snapshots chain from the opening balances, no expense's rows ever net to an inflow, and every live expense is in the cashbook under its own date |
| `CooperativeLedger.RequestsAddDated` | src/cashbook/cashbook-transaction.service.ts:57-81 | whatever rows a payment, an expense, a disbursement or a settlement adds have the date it was given, and older rows stay as they are |
| `CooperativeLedger.DisbursedAtMostOnce` | src/loans/loans.service.ts:481-554 | in every run a loan is disbursed at most once: an active loan has one commit, one schedule, one fee income, and in the ledger one posting of its net amount out of capital and one of its fee; any other loan has none |

## Left out

- Floating-point error of JavaScript numbers and `parseFloat`: decimals are exact reals, stored values exact integers.
- Overflow of `decimal(12,4)` and the limit of 999999999999.9999 on an expense: values are assumed to fit.
- Row-lock scheduling, except that a disbursement reads its loan before its transaction and without a lock; every
  other flow is one atomic step, and an overdue run is not interleaved with settlements, although
  `settleMandatorySavings` locks nothing and `updateInstallmentStatus` does not recheck what was fetched earlier.
- Timestamps, timezones, cron and advisory locks: dates and cutoffs are parameters; the cashbook's `created_at` order
  is the order of insertion.
- Identifiers are positions in a table and are never reused, so a deleted income or expense leaves `None`;
  installments are kept per loan in number order.
- `everOverdue` on an installment, `requested` on a loan and the list of waiting disbursers are history kept for the
  proofs, not columns.
- Income categories are taken as seeded, each with the bucket its caller books it to; the `loan_disbursement` category
  is a fixed position and may be missing.
- No caller in the repository reaches `updateIncomeTransaction` or `deleteIncomeTransaction`: the ledger runs take
  them as steps, the runs of the whole system do not.
- Names, notes, loan links of expenses, users, roles, registration, e-mail, filters and searches.
- Request validation, except that a loan amount must be positive (src/loans/dto/create-loan.dto.ts:25-28), which is
  part of `Requested`; expense amounts have at most four decimals, as their DTOs demand, and loan rates, as their
  column does; the administration fee rate and the configured savings amounts are any number.
- Partial payments, cancelled deposits and completed loans: columns allow them, no code sets them.
- The report's Excel layout and its sorting of rows by name. Two pages are taken from one fixed order, although the
  queries sort by names that need not be unique. Its rows are sequences of cells, not shared arrays.
