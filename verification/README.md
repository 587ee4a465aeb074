# Verification of eminidatabase

A Dafny model of the parts of the platform whose correctness spans several functions or a whole run, with proofs.
`dafny verify dfyconfig.toml` checks everything.

- **Microfinance** (`Money`, `Calendar`, `Amortization`, `Tenant`, `Ledger`, `SavingsAccounts`, `Repayment`, `Loans`,
  `Book`, `Postings`, `Applications`, `Closing`, `Replays`, `TinyLoans`, `Reports`): the double-entry engine, savings
  and loan operations as methods on one tenant session, each proved against a function from rows to rows or an error;
  what each of them moves, told without its ledger lines; then what every interleaving of them keeps. Amounts are
  whole cents, rates exact reals. An operation that raises commits nothing.
- **Migration** (`Migration`, `MigrationSafety`, `MigrationOutcome`, `MigrationPromise`, `MigrationStuck`, `Agent`,
  `MigrationQueue`, `Orchestrator`): the handler as a counter over its instructions, down to single SQL statements,
  with tenants connecting and writing between any two of them and calls failing before, between or after their
  statements. The agents' methods and the handler are proved to run that machine, cut anywhere, and the worker's
  passes to be passes of the queue.
- **Jobs, rate limiter, placement** (`Jobs`, `RateLimit`, `Clusters`, `Placement`, `Capacity`, `Provisioning`,
  `Revival`): the queue against a log of its claims, the sliding window against the history of accepted requests, the
  allocator against the sum of what it promised, and the worker over jobs and databases together.
- **Billing** (`Billing`, `Payments`, `BillingRuns`, `BillingLaws`, `BillingGrace`, `Metering`, `Gateways`): metering,
  invoicing, suspension, payments and webhooks over any number of organizations.
- `Wrappers`, `Reals` and `Sums` hold what the others share.

What the proofs found in the code, each with a lemma that names the input:

- A disbursement or repayment under a known idempotency key moves the loan row but not the ledger
  (`Replays.SharedKeyBreaksLockstep`; exact conditions in `Book.DisburseLockstepIff`, `Book.RepayLockstepIff`).
- Tenant sessions do not flush before queries (microfinance/mf_app/db/tenant_session.py:47), and `post_transaction`
  returns before its own flush on a known key. So a last installment paid under a known key leaves the loan ACTIVE
  with no line pending, for ever (`Replays.SharedKeyStrands`, `Replays.StrandedForEver`; exactly then,
  `Replays.LastPaymentStrandsIff`).
- Tiny principals give lines that no payment can settle: one cent over two months is ACTIVE for ever
  (`TinyLoans.OneCentNeverCloses`; `Closing.LoanClosableIff` and `TinyLoans.FlatLoanClosableIff` say exactly which
  loans can be).
- agent/app/main.py:120 and :295 call provisioning and restoring idempotent on retry. They are not: `CREATE ROLE`
  comes first and its error is not caught, so a first call that got that far, or even succeeded without its answer
  arriving, makes every later one on that node fail (`Agent.RetryIsAcceptedIff`, `Agent.RoleRefusesEveryCall`). A
  migration attempt broken after it bars its target to every later one, and the tenant stays locked out of the source
  (`MigrationOutcome.BrokenAttemptBars`, `BarredForEver`, `RefusedAttemptLocksOut`).
- A database row that says RUNNING can name a node without the database, if a second migration is requested while an
  earlier job still waits for its retry (`MigrationOutcome.TwoOpenJobsBreakRunning`; exactly when in
  `MigrationPromise.RunningMisleadsIff`; with one job at a time it cannot, `MigrationSafety.RunningHoldsTheData`).
- A create job that gives up on a database deleted meanwhile sets it to FAILED, and it counts again on a node that may
  be full (`Revival.RevivalOvercommits`; the exact condition is in `Capacity.NeverOvercommitsIff`).
- backend/app/worker.py:71-75 wants no resource stuck in progress. A database whose delete job has ended, because it
  gave up or because the database was revived after it, stays DELETING for ever when its deletion is requested again:
  the key of the ended job is taken, so no job is enqueued (`Revival.SecondDeletionIsAbandoned`; exactly when in
  `Provisioning.DeletionIsEnqueuedIff` and `DeletionIsAbandonedIff`).
- A database can be MIGRATING for ever too: a migration requested while an older job's attempt is about to be committed
  finds the database already moved, and neither of the two jobs writes the status (`MigrationStuck.MigratingForEver`;
  with one job at a time it cannot happen, `MigrationStuck.MigratingHasAJob`).
- backend/app/scheduler.py:324-326 promises a full billing period to pay an invoice. What is left is the rest of the
  next period, which can be one minute (`BillingGrace.SixtySecondsToPay`, `BillingGrace.FullPeriodToPayIff`).
- Usage metered in an organization's first minute starts before its first period and is never billed
  (`BillingLaws.EarlyUsageIsNeverBilled`).

## Model

| member | source | states |
|---|---|---|
| Money.Round | microfinance/mf_app/services/amortization.py:20-21 | the result is within half a cent of the argument and ties go away from zero, which leaves one possible value |
| Money.RoundIsDetermined | microfinance/mf_app/services/amortization.py:20-21 | no other integer satisfies the contract of Round |
| Money.RoundMonotone | microfinance/mf_app/services/amortization.py:20-21 | a larger amount never rounds to fewer cents |
| Calendar.AddMonths | microfinance/mf_app/services/amortization.py:32-37 | the due date is valid, exactly that many months on, on the base day or the last day of a shorter month |
| Calendar.AddMonthsIncreases | microfinance/mf_app/services/amortization.py:32-37 | more months give a strictly later date |
| Calendar.MonthsFillTheYear | microfinance/mf_app/services/amortization.py:32-37 | every month has the days from its first to the next month's first, counted without a table of months |
| Calendar.ChainingDriftsExactlyOnShortMonths | microfinance/mf_app/services/amortization.py:32-37 | going through an intermediate due date never gains days, and loses some exactly when the intermediate month is shorter than the direct due day |
| Amortization.GenerateRepaymentSchedule | microfinance/mf_app/services/amortization.py:40-54 | the dispatcher returns the schedule of the chosen method |
| Amortization.FlatSchedule | microfinance/mf_app/services/amortization.py:57-74 | the loop computes the flat schedule |
| Amortization.DecliningBalanceSchedule | microfinance/mf_app/services/amortization.py:77-96 | the two installment formulas and the loop compute the declining-balance schedule |
| Amortization.DecliningLoop | microfinance/mf_app/services/amortization.py:86-96 | for any rounded installment the loop yields the lines of the declining recurrence |
| Amortization.ScheduleIsExact | microfinance/mf_app/services/amortization.py:48-51 | for both methods principal_due sums to the principal to the cent |
| Amortization.LineInterest | microfinance/mf_app/services/amortization.py:57-96 | each line's interest is the rounded interest on the whole principal for FLAT, on what the lines before it leave of it otherwise |
| Amortization.FlatLineCharges | microfinance/mf_app/services/amortization.py:57-74 | every FLAT line charges P*r to the nearest cent, ties away from zero, every line but the last P/n likewise, and the last the rest |
| Amortization.DecliningLineCharges | microfinance/mf_app/services/amortization.py:77-96 | every declining line charges r on the principal left to the nearest cent, with its principal it makes up the rounded annuity, and the last line pays off what is left |
| Amortization.FlatLastLineDrift | microfinance/mf_app/services/amortization.py:60-70 | the last flat line is within (n-1)/2 cents of P/n |
| Amortization.FlatThreshold | microfinance/mf_app/services/amortization.py:60-70 | every flat principal part is positive when P exceeds n(n-1)/2 cents |
| Amortization.FlatThresholdIsSharp | microfinance/mf_app/services/amortization.py:60-70 | at exactly n(n-1)/2 cents, n even, the last flat line has no principal |
| Amortization.InstallmentCoversInterest | microfinance/mf_app/services/amortization.py:80-84 | the rounded installment is at least the first rounded interest |
| Amortization.DecliningShape | microfinance/mf_app/services/amortization.py:86-95 | regular lines have a constant total, non-negative non-decreasing principal and non-increasing interest |
| Amortization.DueDatesIncrease | microfinance/mf_app/services/amortization.py:65-73 | line i falls due exactly i + 1 months after the start, on the start's day or the last of a shorter month, and before every later line |
| Amortization.ExactAnnuityCloses | microfinance/mf_app/services/amortization.py:83-84 | without rounding the annuity formula pays the loan off in exactly n periods |
| Amortization.BalanceDrift | microfinance/mf_app/services/amortization.py:86-95 | after k lines the balance is within 1 + (1+r) + ... + (1+r)^(k-1) cents of the exact annuity balance |
| Amortization.DecliningLastLineDrift | microfinance/mf_app/services/amortization.py:90-95 | the last line's total is within ((1+r)^n - 1)/r cents of the regular installment |
| Amortization.DecliningIsPayableIff | microfinance/mf_app/services/amortization.py:86-95 | a declining schedule has only payable lines exactly when the installment is positive (or n = 1) and the last balance is positive |
| Amortization.DecliningIsPayable | microfinance/mf_app/services/amortization.py:86-95 | every line is payable when the installment exceeds the drift bound, or at rate 0 when P exceeds n(n-1)/2 cents |
| Amortization.FlatIsPayable | microfinance/mf_app/services/amortization.py:57-74 | above the flat threshold every line is payable |
| Amortization.FlatIsPayableIff | microfinance/mf_app/services/amortization.py:57-74 | a flat schedule has only payable lines exactly when, in whole cents, the last line is not negative and either interest rounds to a cent or every principal part is positive |
| Amortization.MethodsAgreeWithoutInterest | microfinance/mf_app/services/amortization.py:80-96 | at rate 0 the declining schedule is the flat one, line by line |
| Ledger.PostTransaction | microfinance/mf_app/services/ledger.py:74-126 | the new rows and the returned transaction, or the error with nothing committed; a known key changes nothing |
| Ledger.InsertAndMove | microfinance/mf_app/services/ledger.py:101-125 | the writing loop inserts an entry per line and moves each balance, and an unknown account undoes all of it |
| Ledger.ReconcileBalance | microfinance/mf_app/services/ledger.py:129-147 | the loop over an account's entries returns the signed sum, or an error for an unknown account |
| Ledger.PostKeepsLedger | microfinance/mf_app/services/ledger.py:88-125 | a posting keeps: cache = entries, debits = credits over all accounts, every transaction balanced and worth its amount |
| Ledger.OpeningKeepsLedger | microfinance/mf_app/services/ledger.py:110-147 | adding an account row keeps the same |
| Ledger.ReplayIsIdempotent | microfinance/mf_app/services/ledger.py:82-86 | any successful sequence of calls ends where its first uses of each key alone would have ended |
| SavingsAccounts.Deposit | microfinance/mf_app/services/savings.py:92-112 | guards in order, then the two-line posting; state unchanged on error |
| SavingsAccounts.Withdraw | microfinance/mf_app/services/savings.py:115-139 | guards in order, insufficient funds included, then the posting |
| SavingsAccounts.OpenSavingsAccount | microfinance/mf_app/services/savings.py:54-89 | guards, the new account, and the opening deposit under its key; nothing is kept if the key is missing |
| Postings.DepositAcceptedIff | microfinance/mf_app/services/savings.py:92-112 | which deposits are accepted, and the exact condition of each refusal |
| Postings.DepositMoves | microfinance/mf_app/services/savings.py:92-112 | under a new key the account and cash gain exactly the amount, every other account is as before, and one DEPOSIT transaction of that amount is written; a known key changes nothing |
| Postings.WithdrawalAcceptedIff | microfinance/mf_app/services/savings.py:115-139 | accepted exactly for an active account that holds the amount, and the exact condition of each refusal |
| Postings.WithdrawalMoves | microfinance/mf_app/services/savings.py:115-139 | under a new key the account and cash lose exactly the amount and nothing else moves |
| Postings.OpeningAcceptedIff | microfinance/mf_app/services/savings.py:54-89 | which openings are accepted, and the exact condition of each refusal |
| Postings.OpeningMoves | microfinance/mf_app/services/savings.py:54-89 | an empty account, which the opening deposit under a new key then fills to exactly its amount, cash with it |
| Postings.SavingsAreAccounted | microfinance/mf_app/services/savings.py:54-139 | over any run from a sound tenant a savings balance changes by its accepted new-key deposits minus its accepted new-key withdrawals |
| Postings.BalanceIsPaidInMinusPaidOut | microfinance/mf_app/services/savings.py:54-139 | from onboarding on, a savings balance is exactly that difference |
| Repayment.PayReduces | microfinance/mf_app/services/loans.py:214-231 | a payment takes exactly its amount off the total owed and its principal portion off the principal owed |
| Repayment.PayKeepsWaterfall | microfinance/mf_app/services/loans.py:200-231 | paid lines stay a prefix, only the next line is partly paid, and principal is touched only after that line's interest |
| Repayment.PaidExactlyWhenSettled | microfinance/mf_app/services/loans.py:228-231 | PAID holds exactly when both parts are settled |
| Repayment.NothingOwedIff | microfinance/mf_app/services/loans.py:252-260 | with payable lines nothing is owed exactly when no line is pending |
| Repayment.StuckStaysStuck | microfinance/mf_app/services/loans.py:214-231 | a line with a negative part or nothing due, and nothing to pay in all where its interest is negative, stays unsettled whatever is accepted on it, under a known key too |
| Loans.CreateLoan | microfinance/mf_app/services/loans.py:66-97 | guards in order, then a DRAFT loan with a zero balance |
| Loans.SubmitForApproval | microfinance/mf_app/services/loans.py:107-111 | DRAFT to PENDING_APPROVAL, or an error |
| Loans.ApproveLoan | microfinance/mf_app/services/loans.py:114-120 | PENDING_APPROVAL to APPROVED with the deciding staff member |
| Loans.RejectLoan | microfinance/mf_app/services/loans.py:123-129 | PENDING_APPROVAL to REJECTED with the deciding staff member |
| Loans.DisburseLoan | microfinance/mf_app/services/loans.py:132-179 | the schedule, the posting and ACTIVE together, or nothing |
| Loans.SplitPayment | microfinance/mf_app/services/loans.py:214-231 | interest before principal, PAID when both are settled |
| Loans.RepayInstallment | microfinance/mf_app/services/loans.py:182-265 | the oldest pending line, the split posting and the closing test; on a known key the closing test sees the old lines |
| Postings.CreationAcceptedIff | microfinance/mf_app/services/loans.py:66-97 | accepted exactly within the product's bounds of amount and term, and the exact condition of each refusal |
| Postings.DisbursementAcceptedIff | microfinance/mf_app/services/loans.py:132-142 | accepted exactly for an approved loan |
| Postings.DisbursementMoves | microfinance/mf_app/services/loans.py:132-179 | under a new key the principal moves from cash to the loan's account and nothing else moves; the row becomes ACTIVE with its schedule under any key |
| Postings.RepaymentAcceptedIff | microfinance/mf_app/services/loans.py:182-221 | a positive payment under a new key is accepted exactly when an ACTIVE loan's oldest pending line lacks at least that much and its interest is not overpaid |
| Postings.RepaymentMoves | microfinance/mf_app/services/loans.py:214-243 | cash gains the payment, income the interest the line lacked up to the payment, the loan's account loses the rest, and nothing else moves |
| Applications.LoanGoesItsWay | microfinance/mf_app/services/loans.py:66-265 | a loan appears as a DRAFT, its terms never change, and its status only along the lifecycle's edges, by steps on that loan |
| Applications.NobodyPaysOutUndecided | microfinance/mf_app/services/loans.py:66-179 | in every run each loan is within its product's bounds, is approved, rejected, active or closed exactly if a staff member decided, and has a schedule exactly if it was paid out |
| Book.RunKeepsSound | microfinance/mf_app/services/ledger.py:88-147 | in every run from a sound tenant: cache = entries for every account, books balance, each transaction balances, savings never negative |
| Book.RunKeepsWaterfall | microfinance/mf_app/services/loans.py:200-231 | in every run every schedule of payable lines keeps the waterfall shape, whatever keys are reused |
| Book.DisburseLockstepIff | microfinance/mf_app/services/loans.py:164-178 | a disbursement keeps its loan in step with the ledger exactly when its key is new |
| Book.RepayLockstepIff | microfinance/mf_app/services/loans.py:228-262 | a repayment keeps its loan in step exactly when its key is new, or it pays interest only and lines remain |
| Book.OthersUntouched | microfinance/mf_app/services/loans.py:132-265 | a loan's row and ledger balance change only through operations on that loan |
| Book.ClosedOwesNothing | microfinance/mf_app/services/loans.py:252-262 | a CLOSED loan has zero outstanding principal |
| Book.RunKeepsLockstep | microfinance/mf_app/services/loans.py:132-265 | in every run with fresh keys outstanding_principal = sum of unpaid principal over the active schedule = ledger balance, for every ACTIVE or CLOSED loan |
| Closing.ActiveLoanAccepts | microfinance/mf_app/services/loans.py:191-221 | an ACTIVE loan with payable lines accepts any positive amount up to its next line's remainder |
| Closing.RunReducesOwed | microfinance/mf_app/services/loans.py:214-231 | over any run a loan's remaining cents fall by exactly the accepted payments |
| Closing.ClosedExactlyWhenPaidUp | microfinance/mf_app/services/loans.py:252-262 | a loan is CLOSED exactly when its accepted payments add up to everything it owed |
| Closing.FreshLoanOwes | microfinance/mf_app/services/loans.py:143-162 | at disbursement the total owed is the principal plus all scheduled interest |
| Closing.FreshFlatLoanOwes | microfinance/mf_app/services/loans.py:143-162 | a FLAT loan owes P + n * round(P*r) at disbursement |
| Closing.FreshRows | microfinance/mf_app/services/loans.py:143-162 | the new rows are numbered from 1, a month apart, unpaid, with the parts of the schedule |
| Closing.FullPaymentsClose | microfinance/mf_app/services/loans.py:182-265 | one full payment per line closes the loan in exactly n payments and adds all scheduled interest to income |
| Closing.StuckLoanNeverCloses | microfinance/mf_app/services/loans.py:214-262 | an ACTIVE loan with a line that can never be settled stays ACTIVE in every run from any tenant, whatever keys are used |
| Closing.UnpayableScheduleIsStuck | microfinance/mf_app/services/amortization.py:57-96 | every schedule of either method with a line that is not payable has one that can never be settled |
| Closing.LoanClosableIff | microfinance/mf_app/services/loans.py:182-265 | a freshly disbursed loan of any sound tenant can be closed by some run, new or known keys alike, exactly when every line is payable |
| TinyLoans.FlatLoanClosableIff | microfinance/mf_app/services/loans.py:143-162 | the same for a flat loan, with a condition on its principal, rate and term alone |
| TinyLoans.OneCentNeverCloses | microfinance/mf_app/services/amortization.py:60-72 | a concrete run: one cent over two months without interest stays ACTIVE whatever follows, under any keys |
| Replays.LastPaymentStrandsIff | microfinance/mf_app/services/loans.py:244-262 | the payment that settles the last line leaves the loan ACTIVE with nothing pending exactly when its key is known, and closes it otherwise |
| Replays.StrandedForEver | microfinance/mf_app/services/loans.py:191-212 | such a loan is never closed and every further payment is refused |
| Replays.SharedKeyBreaksLockstep | microfinance/mf_app/services/loans.py:165-178 | a concrete run: disbursing under a deposit's key leaves an ACTIVE loan the ledger does not know |
| Replays.SharedKeyStrands | microfinance/mf_app/services/loans.py:244-262 | the same run, repaid under the same key, ends with a loan that is ACTIVE and has nothing pending |
| Reports.GetTrialBalance | microfinance/mf_app/services/reports.py:22-79 | the report's lines, both totals and the balanced flag, as sums over the accounts |
| Reports.GetLoanPortfolio | microfinance/mf_app/services/reports.py:82-92 | count, disbursed principal and outstanding principal as sums over exactly the ACTIVE, and ACTIVE or CLOSED, loans |
| Reports.TrialBalances | microfinance/mf_app/services/reports.py:31-79 | any ledger whose accounts sum to zero seen from the debit side shows equal totals, for any number of accounts of either side |
| Reports.EveryRunBalances | microfinance/mf_app/services/reports.py:74-79 | every trial balance reachable by savings and loan operations is balanced, whatever keys were reused |
| Reports.EveryChartBalances | microfinance/mf_app/services/ledger.py:88-126 | for any chart of accounts, any openings and any postings, refused and replayed ones included, leave a balanced trial balance |
| Reports.PortfolioAgreesWithLedger | microfinance/mf_app/services/reports.py:86-88 | after every run with fresh keys from onboarding the disbursed principal is the sum of the ledger's disbursement transactions, one per ACTIVE or CLOSED loan |
| Reports.CashIdentity | microfinance/mf_app/services/reports.py:24-72 | cash = total savings + interest income - total outstanding loans, in every sound tenant |
| Reports.PortfolioAgreesWithTrialBalance | microfinance/mf_app/services/reports.py:82-92 | the portfolio's outstanding over ACTIVE loans equals the trial balance's total over all loans |
| Reports.OutstandingAgreesAfterEveryRun | microfinance/mf_app/services/reports.py:31-92 | so they do after every run with fresh keys from onboarding |
| Agent.PgServer.CreateDatabase | agent/app/postgres_admin.py:48-56 | CREATE ROLE then CREATE DATABASE, stopping at the first error or lost connection, with what took effect |
| Agent.PgServer.DropDatabase | agent/app/postgres_admin.py:59-65 | terminate, DROP DATABASE, DROP ROLE, stopping likewise |
| Agent.PgServer.QuiesceForMigration | agent/app/postgres_admin.py:81-117 | change of owner, revocation, termination, stopping likewise |
| Agent.PgServer.ProvisionEndpoint | agent/app/main.py:107-121 | role and database; an existing database counts as created |
| Agent.PgServer.RestoreEndpoint | agent/app/main.py:276-298 | role, database, load; an existing database counts as restored without loading |
| Agent.RoleRefusesEveryCall | agent/app/postgres_admin.py:48-56 | on a node that has the role every create or restore call fails and changes nothing, in any sequence of them |
| Agent.RetryIsAcceptedIff | agent/app/main.py:107-121 | a create or restore call made again after a first one on a clean node succeeds if and only if the first ran no statement |
| Clusters.FindShared | backend/app/services/placement.py:70-82 | a shared ACTIVE cluster on that node when there is one, none otherwise |
| Clusters.GetOrCreateClusterOnNode | backend/app/services/orchestrator.py:57-78 | the rows afterwards and the cluster to use, shared or new |
| Clusters.Joined | backend/app/services/orchestrator.py:57-78 | the cluster used has that node as its primary and the kind asked for; it is new exactly when none could be shared |
| MigrationSafety.AdvanceKeepsInv | backend/app/services/orchestrator.py:251-302 | every instruction of the handler keeps the invariant, and only CREATE ROLE on a node that has the role is refused |
| MigrationSafety.NextKeepsInv | backend/app/worker.py:100-118 | every event, failed calls and tenant writes included, keeps the invariant |
| MigrationSafety.ProvisionedIsSafe | backend/app/services/orchestrator.py:105-133 | a freshly provisioned database satisfies the invariant |
| MigrationSafety.DataIsNeverLost | backend/app/services/orchestrator.py:223-317 | in every reachable state some node holds every acknowledged write, and the committed row's node does exactly outside the interval from DROP DATABASE to the commit |
| MigrationSafety.RestoreIsNeverSkipped | agent/app/main.py:294-295 | the branch that takes an existing database for restored is never taken |
| MigrationSafety.RunningHoldsTheData | backend/app/services/orchestrator.py:279-286 | with one migration at a time, RUNNING names a node that holds every write |
| MigrationPromise.RunningMisleadsIff | backend/app/api/v1/endpoints/database_admin.py:45-90 | between attempts, some run without further requests makes RUNNING name a node without the data if and only if a waiting job would move a RUNNING database to a node without the role, or two waiting jobs would move it in turn |
| MigrationOutcome.TwoOpenJobsBreakRunning | backend/app/api/v1/endpoints/database_admin.py:45-90 | a concrete run with a second job requested before the first has closed: RUNNING names a node without the database |
| MigrationOutcome.UndisturbedAttemptMoves | backend/app/services/orchestrator.py:251-317 | on a node without the tenant's role an undisturbed attempt moves all data, clears the source and ends RUNNING |
| MigrationOutcome.RefusedAttemptLocksOut | backend/app/services/orchestrator.py:251-277 | on a node with the role the attempt is refused and the tenant can no longer connect to the source |
| MigrationOutcome.BrokenAttemptBars | agent/app/main.py:280-297 | an attempt broken after CREATE ROLE leaves its target, and one broken after the cutover leaves its source, with a leftover role |
| MigrationOutcome.BarredForEver | agent/app/postgres_admin.py:54-56 | no run of requests, retries and tenant activity ever brings the database to a node with a leftover role |
| MigrationOutcome.KindIsKept | backend/app/services/orchestrator.py:57-78 | in every run the database sits in a cluster of the kind it asked for |
| MigrationStuck.MigratingHasAJob | backend/app/worker.py:71-75 | with one migration at a time a MIGRATING database always has an open job for another node |
| MigrationStuck.MigratingForEver | backend/app/api/v1/endpoints/database_admin.py:45-90 | a concrete run, and every continuation of it, in which a database is MIGRATING and no job is open |
| Orchestrator.ScriptAgrees | agent/app/main.py:107-298 | an endpoint's statements, cut anywhere, do what the machine's instructions do |
| Orchestrator.Platform.ExecuteMigrateDatabase | backend/app/services/orchestrator.py:214-317 | the handler, cut after any number of instructions, ends where the machine does |
| Orchestrator.Platform.RunOnce | backend/app/worker.py:90-118 | one pass: the oldest due job of the queue is claimed, then handler, verdict, and the commit of partial changes without a rollback |
| Orchestrator.WorkedOffJobs | backend/app/services/jobs.py:58-102 | on the jobs table a migration pass is a pass of the queue: same claim, budget, verdict and backoff |
| Orchestrator.WorkedOffIsARun | backend/app/worker.py:90-118 | every pass of the worker is a run of the machine, so the run theorems apply to it |
| Jobs.JobQueue.Enqueue | backend/app/services/jobs.py:28-55 | a known key returns the existing row and inserts nothing; otherwise a QUEUED row with five attempts, due at once, stands last |
| Jobs.JobQueue.ClaimNextJob | backend/app/services/jobs.py:58-82 | the oldest due job is marked RUNNING with one more attempt, or none is due |
| Jobs.JobQueue.MarkFailedOrRetry | backend/app/services/jobs.py:94-102 | FAILED at the limit, otherwise RETRYING after the backoff |
| Jobs.JobQueue.RunOnce | backend/app/worker.py:90-118 | claim, handler outcome, verdict and terminal failure handler in one pass |
| Jobs.OnlyGivingUpMarksTheRow | backend/app/worker.py:37-87 | a pass marks the row its job works on exactly when the job has failed for good, a verification excepted, and no other row |
| Jobs.PassKeepsInv | backend/app/worker.py:90-118 | a pass keeps the agreement between rows and the log of claims |
| Jobs.ClaimsStayInBudget | backend/app/services/jobs.py:58-102 | the number of claims never exceeds the sum of max_attempts, nor any job's own |
| Jobs.FailedExactlyAfterMaxFailures | backend/app/services/jobs.py:96-99 | FAILED exactly after max_attempts failures, SUCCEEDED exactly with fewer failures than claims, never RUNNING between passes |
| Jobs.RetriesAreSpaced | backend/app/services/jobs.py:100-102 | a job is claimed again only after a failure and its whole backoff |
| Jobs.BackoffDoublesUpToTheCap | backend/app/services/jobs.py:101 | the delay is 5 seconds after the first attempt, doubles, and is 300 from the seventh on |
| Jobs.PassesRunDry | backend/app/services/jobs.py:58-102 | every pass that finds a job strictly lowers the attempts left |
| Jobs.KeysStayUnique | backend/app/services/jobs.py:38-43 | keys stay distinct and enqueueing a known key again changes nothing |
| Provisioning.RunOnce | backend/app/worker.py:90-118 | one pass over the jobs and the databases together: claim, handler, verdict, terminal failure handler |
| Provisioning.NextKeepsInv | backend/app/worker.py:71-75 | every request and pass keeps: a database being created or restored has a job that will go on with it |
| Provisioning.CreationEndsUpOrDown | backend/app/worker.py:37-51 | after any run, the pass that ends a create or restore job leaves its database RUNNING in a cluster if the job succeeded and FAILED if it failed |
| Provisioning.AnEmptyQueueLeavesNothingHalfDone | backend/app/worker.py:71-75 | in every run, when no job is left to run no database is still being created or restored |
| Provisioning.RunsTheQueue | backend/app/services/jobs.py:28-102 | seen from the jobs table every such run is a run of the queue, so its budgets, spacing and verdicts hold |
| Provisioning.DeletionIsEnqueuedIff | backend/app/api/v1/endpoints/databases.py:181-192 | a request to delete gets a job exactly when no earlier deletion of that database has ended |
| Provisioning.DeletionIsAbandonedIff | backend/app/api/v1/endpoints/databases.py:181-192 | it leaves the database DELETING without an open job exactly when a deletion has ended and no other job of it is open |
| Provisioning.AbandonedForEver | backend/app/services/jobs.py:38-43 | a database left DELETING without an open job stays so in every run, however often its deletion is requested |
| Revival.SecondDeletionIsAbandoned | backend/app/api/v1/endpoints/databases.py:181-192 | a concrete run that ends in such a database |
| RateLimit.RateLimiter.CheckRateLimit | backend/app/core/rate_limit.py:47-56 | the new bucket, the answer and retry_after, other keys untouched |
| RateLimit.BucketIsTheWindow | backend/app/core/rate_limit.py:48-55 | in every run the bucket is exactly the accepted requests of the last 60 seconds, and acceptances keep the limit's distance |
| RateLimit.NoWindowOverflows | backend/app/core/rate_limit.py:50-55 | no interval (t-60, t] holds more than limit accepted requests, for any t |
| RateLimit.AcceptedExactlyWhenRoom | backend/app/core/rate_limit.py:52-56 | accepted exactly when fewer than limit of the accepted requests are younger than 60 seconds, and never more are |
| RateLimit.WaitingIsEnough | backend/app/core/rate_limit.py:53 | waiting retry_after is enough, coming back before the oldest request leaves is not, and retry_after overstates by a second at most |
| RateLimit.KeysAreIndependent | backend/app/core/rate_limit.py:43-49 | each key's bucket is that of its own requests alone |
| Placement.ControlPlane.AllocatedResources | backend/app/services/placement.py:42-67 | the three sums over the non-deleted databases on a node |
| Placement.ControlPlane.SelectNode | backend/app/services/placement.py:104-148 | the loop's choice among the nodes of an active region, or the error |
| Placement.ChoosesTheBest | backend/app/services/placement.py:126-148 | a node is chosen exactly when some eligible one has room, and it is the first with the highest score |
| Placement.ChoosesTheEmptiest | backend/app/services/placement.py:31-39 | the node chosen has room in all three dimensions and the largest sum of unallocated fractions, the first such; an unknown region and no room are refused as such |
| Placement.NeverTheFuller | backend/app/services/placement.py:139-148 | among nodes of the same size with room none is chosen that is at least as full as another in everything and fuller in something |
| Placement.ControlPlane.ExecuteCreateDatabase | backend/app/services/orchestrator.py:81-152 | the placement, the stored cluster, the agent call and RUNNING, with what a failed call leaves |
| Placement.ControlPlane.ExecuteRestoreDatabase | backend/app/services/backup_orchestrator.py:65-134 | the same for a restore, after the backup's check |
| Placement.ControlPlane.ExecuteDeleteDatabase | backend/app/services/orchestrator.py:155-181 | the agent of the stored cluster's primary is called, then DELETED |
| Capacity.ProvisionedWhereStored | backend/app/services/orchestrator.py:93-133 | the stored cluster's primary is the node provisioned, it is the best node, and the cluster is of the kind asked for |
| Capacity.DeletionCallsThePrimary | backend/app/services/orchestrator.py:155-181 | the primary of the stored cluster is called unless there is nothing to drop, and the database is DELETED unless that call fails |
| Capacity.RestoreNeedsTheBackup | backend/app/services/backup_orchestrator.py:65-134 | a restore calls an agent exactly when the database is there, not up yet, its backup is usable and some node has room; otherwise nothing changes |
| Capacity.StepKeepsCapacityIff | backend/app/services/orchestrator.py:93-133 | a step keeps every node within its totals exactly unless it marks FAILED a DELETED database whose old node has no room left |
| Capacity.NeverOvercommitsIff | backend/app/services/placement.py:126-138 | a run, retries after failed calls included, keeps every node within its totals at every step if and only if every database that comes back from DELETED finds room |
| Capacity.StepKeepsIsolation | backend/app/services/orchestrator.py:57-78 | dedicated clusters host one database each, and every database sits in a cluster of the kind it asked for |
| Revival.RevivalOvercommits | backend/app/worker.py:37-51 | a concrete run from an empty node: a create job that gives up on its fifth attempt, on a database deleted meanwhile, overcommits the node |
| Billing.MeterUsage | backend/app/scheduler.py:263-315 | three records per reachable database, starting one tick before now |
| Metering.MeteringWritesThreeEach | backend/app/scheduler.py:273-312 | a tick keeps the old records and adds three for every reading, of its database and the minute just past |
| Metering.MeteringAddsEveryReading | backend/app/scheduler.py:273-312 | an organization's usage grows by the minutes of all its readings, and by nothing for others' |
| Billing.ComputeLines | backend/app/services/billing.py:37-83 | the loop's line items, and a total that is their sum |
| Billing.ComputeInvoiceForSubscription | backend/app/services/billing.py:32-102 | the invoice is appended and the period advances to the next 30 days |
| Billing.GenerateDueInvoices | backend/app/scheduler.py:318-375 | every due subscription is invoiced or suspended, the others untouched |
| BillingRuns.NewInvoiceIsExact | backend/app/services/billing.py:53-83 | a new invoice bills exactly the period's usage of every priced metric and nothing of the others |
| BillingRuns.NewInvoiceIsFair | backend/app/services/billing.py:37-83 | its total is within half a cent per usage line of the unrounded price plus base fee |
| Metering.NewInvoiceIsItemized | backend/app/services/billing.py:37-83 | every line is the base fee, or a used metric at the plan's price, rounded to the cent |
| BillingRuns.RunKeepsInv | backend/app/scheduler.py:378-394 | every run in which metering comes a tick after the last invoicing keeps the billing invariant |
| BillingLaws.PeriodsTileTime | backend/app/services/billing.py:99-100 | invoice periods follow one another without gap or overlap, 30 days each, up to the current one |
| BillingLaws.RecordsFallInOnePeriod | backend/app/services/billing.py:65-66 | a record lies in exactly one invoiced period if it starts between the first period and the current one, in none otherwise |
| BillingLaws.InvoicesStayExact | backend/app/services/billing.py:59-73 | whatever is metered later, each invoice keeps billing exactly the recorded usage of its period |
| BillingLaws.UsageIsConserved | backend/app/services/billing.py:59-100 | the quantities billed so far add up to all usage recorded before the current period |
| Metering.BilledIsWhatWasMetered | backend/app/services/billing.py:59-100 | over any run the billed quantities are the minutes read of the organization's databases between its first period's start and its current one's |
| BillingLaws.EarlyUsageIsNeverBilled | backend/app/scheduler.py:266-267 | a concrete run: usage metered within a minute of the organization's creation is in no invoice, ever |
| BillingLaws.ReadingAddsOneMinute | backend/app/scheduler.py:264-312 | a reading adds a minute of cpu limit and storage, the connection count, and no egress |
| BillingLaws.OneUnpaidInvoiceAtMost | backend/app/scheduler.py:344-362 | at most one invoice is FINALIZED, PAST_DUE implies one, and invoice.paid is emitted once per paid invoice |
| BillingLaws.BillingSuspendsExactlyDebtors | backend/app/scheduler.py:344-373 | a tick suspends exactly the due organizations that owe, invoices exactly the other due ones, and changes no price or earlier invoice |
| BillingLaws.PayingRestoresService | backend/app/services/payment_service.py:62-86 | paying the open invoice leaves the organization ACTIVE with nothing unpaid |
| BillingGrace.SuspendedExactlyFromPeriodEnd | backend/app/scheduler.py:323-329 | in every run an organization that does not pay is suspended exactly by the first billing at or after the end of its current period |
| BillingGrace.FullPeriodToPayIff | backend/app/scheduler.py:323-326 | an invoice leaves a full period to pay exactly when it is made at the very end of its own, and is overdue at the next tick exactly when the following period ends by then |
| BillingGrace.SixtySecondsToPay | backend/app/scheduler.py:323-326 | a concrete run in which an invoice leaves one minute to pay |
| Payments.MarkInvoicePaid | backend/app/services/payment_service.py:40-59 | PAID, one event, and the reactivation test without this invoice |
| Payments.PayInvoice | backend/app/api/v1/endpoints/billing.py:203-218 | only FINALIZED invoices can be paid manually |
| Payments.InitiatePayment | backend/app/services/payment_service.py:103-181 | a PENDING row exactly for a FINALIZED invoice under a new provider id |
| Payments.FinalizePayment | backend/app/services/payment_service.py:273-282 | idempotent on the payment, and silent on an invoice already paid |
| Payments.HandleNowPaymentsWebhook | backend/app/services/payment_service.py:184-226 | finished or within tolerance settles, failed or expired unpaid refuses, anything else waits |
| Payments.HandleFedaPayWebhook | backend/app/services/payment_service.py:229-270 | approved settles, declined or canceled refuses, anything else waits |
| Gateways.NowReportDecides | backend/app/services/payment_service.py:207-226 | an authentic report on a pending payment settles it if finished or at most 0.5 short, refuses it if failed or expired with nothing paid, and changes nothing otherwise; rows told one by one |
| Gateways.FedaReportDecides | backend/app/services/payment_service.py:249-270 | approved settles, declined or canceled refuses, anything else changes nothing; rows told one by one |
| Gateways.OtherReportsDoNothing | backend/app/services/payment_service.py:198-205 | without a valid signature, a known payment, or one still pending, nothing changes |
| Gateways.NowReportPaysIff | backend/app/services/payment_service.py:184-226 | in every reachable state such a report pays an open invoice, and restores its organization, exactly if it settles |
| Gateways.ManualPayment | backend/app/api/v1/endpoints/billing.py:203-218 | an administrator's payment touches an open invoice only, marks only it, and reactivates the organization exactly if nothing else is unpaid |
| BillingLaws.PaidExactlyByItsPayments | backend/app/services/payment_service.py:184-282 | an invoice is paid after a run exactly if it was before, or an administrator settled it while open, or an authentic report of the money arrived for a pending payment opened for it |
| BillingLaws.RepeatedWebhooksChangeNothing | backend/app/services/payment_service.py:204-205 | dropping from any run the repeats of messages delivered after their payment existed leaves every status and event unchanged |

## Left out

- HTTP endpoints, authentication, permissions, audit rows, notifications, e-mail, the SDKs, the CLI and the front ends: they hold none of the state reasoned about. The bounds that request schemas enforce (positive amounts, rate at least 0, term at least 1) are preconditions.
- Descriptions, timestamps, staff and customer rows, row identifiers: a transaction is named by its idempotency key, keys and ids are numbers, and a primary-key collision is an error.
- The 28-digit decimal context: rates and quotients are exact reals, and so are rate-limiter clocks and placement scores, which the source keeps in floating point.
- Amounts with fractions of a cent in requests: every amount is a whole number of cents.
- Dates beyond year 9999, which Python refuses.
- The DEFAULTED loan status and closing savings accounts: no operation sets them.
- Concurrent requests within one tenant: each committed operation is one step.
- Amortization.DueDatesIncrease: the calendar has no upper year, so Python's overflow error is not modelled.
- Clusters.FindShared: clusters are single-member and always ACTIVE, and the query's unspecified order is the order of creation.
- Migration: replicas, failover, additional PostgreSQL roles, dedicated S3 objects and dump encryption. A dump is a copy of the data, and its removal has no effect on the nodes.
- Migration: a call that the orchestrator has given up on but that the agent still completes later. A broken call has taken effect up to some statement when it breaks, and not after.
- Migration: suspend, resume, backup and delete jobs between two attempts, and capacity on the target, which only the request checks.
- A worker killed inside a job, and several workers: every pass completes, and passes follow one another.
- Placement, Capacity, Provisioning: a pass of the worker is one step, so no API request commits during the agent call. In the source a delete request can, and the handler then writes over it.
- Placement, Provisioning: whether the agent answers is an input; that a node with a leftover role refuses every create and restore call is stated in module Agent only.
- Jobs: handlers other than those of create, restore and delete jobs; in module Jobs what a handler did to the rows is an input, in module Provisioning it is computed.
- Provisioning: suspend, resume, migrate and backup jobs among the others, and database rows inserted without a job.
- Jobs: the stored result and error texts, and events emitted by the terminal handlers.
- RateLimit.RateLimiter.CheckRateLimit: a limit of 0, which raises IndexError on an empty bucket; every limit in the source is positive. Choosing key and limit from a request, and the plan cache, are not modelled.
- Placement: resize, quotas, replicas, clusters that are not ACTIVE, nodes registered or removed during a run.
- Placement.ControlPlane.SelectNode: the sort by score is modelled by keeping the first best node while the loop runs.
- Billing: two digits of storage for totals and six for usage values, plan and invoice currencies, canceled subscriptions (no code sets them), DRAFT and VOID invoices (likewise).
- Billing: metering, invoicing and each request are single committed steps; a scheduler tick that raises leaves nothing.
- BillingLaws.UsageIsConserved: for metrics priced in every invoice so far; without a rate a metric is not billed.
- BillingLaws.RepeatedWebhooksChangeNothing: payment.provider_status, a copy of the gateway's last word, is not modelled.
- Payments: the NOWPayments tolerance is the setting's default of 0.50.
- Payments.InitiatePayment: the gateway calls themselves; an unsupported operator or a failed call before the row exists changes nothing.
- microfinance/mf_app/services/jobs.py repeats the backend queue and adds nothing to prove.
