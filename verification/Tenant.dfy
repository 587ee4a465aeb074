/** The rows of one institution's own database, and the session that changes them. */
module Tenant {
  import opened Wrappers
  import opened Amortization
  import opened Calendar

  datatype Result<+T> = Ok(value: T) | Err(error: Error)

  datatype Error =
    | UnbalancedTransaction | AccountNotFound | OnboardingIncomplete | DuplicateId
    | CustomerNotVerified | BelowMinimumOpeningBalance | MissingIdempotencyKey
    | SavingsAccountNotFound | AccountNotActive | InsufficientFunds
    | InvalidLoanAmount | InvalidLoanTerm | LoanNotFound | InvalidLoanState | NoActiveSchedule | Overpayment

  // ------------------------------------------------------------ ledger rows

  datatype Side = Debit | Credit

  /** An account of any of the three kinds; the internal ones "cash" and "interest_income" by name. */
  datatype AccountRef = Cash | InterestIncome | OtherInternal(id: nat) | Savings(id: nat) | LoanAccount(id: nat)

  /** normal side, and balance_cached (outstanding_principal for a loan) */
  datatype Account = Account(normalSide: Side, balance: int)

  datatype LedgerLine = LedgerLine(account: AccountRef, direction: Side, amount: int)

  /** A transaction is identified by its unique idempotency key. */
  datatype LedgerEntry = LedgerEntry(transaction: Key, line: LedgerLine)

  datatype Kind = DepositKind | WithdrawalKind | DisbursementKind | RepaymentKind

  datatype Transaction = Transaction(kind: Kind, amount: int)

  // ------------------------------------------------------------ savings and loan rows

  datatype SavingsStatus = SavingsActive | SavingsClosed

  datatype LoanProduct = LoanProduct(style: AmortizationMethod, rate: real, minPrincipal: int, maxPrincipal: int,
                                     minTerm: nat, maxTerm: nat)

  datatype LoanStatus = Draft | PendingApproval | Approved | Rejected | Active | Closed | Defaulted

  datatype LineStatus = Pending | Paid

  datatype RepaymentLine = RepaymentLine(number: nat, due: Date, principalDue: int, interestDue: int,
                                         principalPaid: int, interestPaid: int, status: LineStatus)

  /** schedule: the lines of the active repayment schedule, by installment number */
  datatype Loan = Loan(product: LoanProduct, principal: int, term: nat, status: LoanStatus,
                       schedule: Option<seq<RepaymentLine>>, decidedBy: Option<nat>)

  datatype Tenant = Tenant(accounts: map<AccountRef, Account>, entries: seq<LedgerEntry>,
                           transactions: map<Key, Transaction>,
                           savings: map<nat, SavingsStatus>, loans: map<nat, Loan>)

  /** What onboarding leaves behind. */
  const Onboarded :=
    Tenant(map[Cash := Account(Debit, 0), InterestIncome := Account(Credit, 0)], [], map[], map[], map[])

  // ------------------------------------------------------------ the session

  /** A session on the tenant database. An operation that raises is rolled back as a whole. */
  class TenantDb {
    var accounts: map<AccountRef, Account>
    var entries: seq<LedgerEntry>
    var transactions: map<Key, Transaction>
    var savings: map<nat, SavingsStatus>
    var loans: map<nat, Loan>

    constructor ()
      ensures State() == Onboarded
    {
      accounts := Onboarded.accounts;
      entries := [];
      transactions := map[];
      savings := map[];
      loans := map[];
    }

    function State(): Tenant
      reads this
    {
      Tenant(accounts, entries, transactions, savings, loans)
    }

    method Rollback(to: Tenant)
      modifies this
      ensures State() == to
    {
      accounts, entries, transactions, savings, loans :=
        to.accounts, to.entries, to.transactions, to.savings, to.loans;
    }
  }
}
