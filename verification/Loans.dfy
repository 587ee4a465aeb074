/** The loan lifecycle. Each operation is specified by what it makes of the rows, or the error it raises. */
module Loans {
  import opened Wrappers
  import opened Amortization
  import opened Calendar
  import opened Tenant
  import opened Ledger
  import opened Repayment

  // ------------------------------------------------------------ specification

  /** id is the fresh UUID of the new row; a collision is refused by the primary key. */
  function Created(t: Tenant, id: nat, verified: bool, product: LoanProduct, principal: int, term: nat)
    : Result<Tenant>
  {
    if !verified then Err(CustomerNotVerified)
    else if !(product.minPrincipal <= principal <= product.maxPrincipal) then Err(InvalidLoanAmount)
    else if !(product.minTerm <= term <= product.maxTerm) then Err(InvalidLoanTerm)
    else if id in t.loans || LoanAccount(id) in t.accounts then Err(DuplicateId)
    else Ok(t.(loans := t.loans[id := Loan(product, principal, term, Draft, None, None)],
               accounts := t.accounts[LoanAccount(id) := Account(Debit, 0)]))
  }

  /** A transition that only changes the status, recording who decided. */
  function Transitioned(t: Tenant, id: nat, from: LoanStatus, to: LoanStatus, staff: Option<nat>): Result<Tenant> {
    if id !in t.loans then Err(LoanNotFound)
    else if t.loans[id].status != from then Err(InvalidLoanState)
    else Ok(t.(loans := t.loans[id := t.loans[id].(status := to, decidedBy := staff)]))
  }

  /** What the product and application schemas promise of a stored loan. */
  predicate TermsOk(loan: Loan) {
    loan.product.rate >= 0.0 && loan.term >= 1 && loan.principal > 0
  }

  ghost predicate AllTermsOk(t: Tenant) {
    forall id :: id in t.loans ==> TermsOk(t.loans[id])
  }

  function DisbursementLines(id: nat, principal: int): seq<LedgerLine> {
    [LedgerLine(LoanAccount(id), Debit, principal), LedgerLine(Cash, Credit, principal)]
  }

  function LoanSchedule(loan: Loan, start: Date): seq<RepaymentLine>
    requires TermsOk(loan) && start.Valid()
  {
    NewRows(Schedule(loan.principal, loan.product.rate, loan.term, loan.product.style, start))
  }

  function Disbursed(t: Tenant, id: nat, key: Key, start: Date): Result<Tenant>
    requires start.Valid() && (id in t.loans ==> TermsOk(t.loans[id]))
  {
    if id !in t.loans then Err(LoanNotFound)
    else
      var loan := t.loans[id];
      if loan.status != Approved then Err(InvalidLoanState)
      else if Cash !in t.accounts then Err(OnboardingIncomplete)
      else
        var scheduled := loan.(schedule := Some(LoanSchedule(loan, start)), status := Active);
        match Posted(t, DisbursementKind, key, DisbursementLines(id, loan.principal))
        case Err(e) => Err(e)
        case Ok(after) => Ok(after.(loans := t.loans[id := scheduled]))
  }

  /** Cash in, and one credit line for each part that is positive. */
  function RepaymentLines(id: nat, interest: int, principal: int): seq<LedgerLine> {
    [LedgerLine(Cash, Debit, interest + principal)]
    + (if principal > 0 then [LedgerLine(LoanAccount(id), Credit, principal)] else [])
    + (if interest > 0 then [LedgerLine(InterestIncome, Credit, interest)] else [])
  }

  /** On a known key post_transaction returns before its flush. The session does not autoflush, so the
      query for remaining lines still finds the line just settled, and the loan is not closed. */
  function StatusAfterRepayment(t: Tenant, key: Key, rows: seq<RepaymentLine>): LoanStatus {
    if key !in t.transactions && FirstPending(rows) == |rows| then Closed else Active
  }

  function Repaid(t: Tenant, id: nat, amount: int, key: Key): Result<Tenant> {
    if id !in t.loans then Err(LoanNotFound)
    else
      var loan := t.loans[id];
      if loan.status != Active then Err(InvalidLoanState)
      else if loan.schedule.None? then Err(NoActiveSchedule)
      else
        var rows := loan.schedule.value;
        var k := FirstPending(rows);
        if k == |rows| then Err(InvalidLoanState)
        else if amount > Remaining(rows[k]) then Err(Overpayment)
        else if Cash !in t.accounts || InterestIncome !in t.accounts then Err(OnboardingIncomplete)
        else
          var interest := InterestPortion(rows[k], amount);
          var paid := PayRows(rows, amount);
          var updated := loan.(schedule := Some(paid), status := StatusAfterRepayment(t, key, paid));
          match Posted(t, RepaymentKind, key, RepaymentLines(id, interest, amount - interest))
          case Err(e) => Err(e)
          case Ok(after) => Ok(after.(loans := t.loans[id := updated]))
  }

  // ------------------------------------------------------------ the code

  method CreateLoan(db: TenantDb, id: nat, verified: bool, product: LoanProduct, principal: int, term: nat)
    returns (error: Option<Error>)
    modifies db
    ensures db.State() == FinalState(old(db.State()), Created(old(db.State()), id, verified, product, principal, term))
    ensures error == ErrorOf(Created(old(db.State()), id, verified, product, principal, term))
  {
    if !verified {
      return Some(CustomerNotVerified);
    }
    if !(product.minPrincipal <= principal <= product.maxPrincipal) {
      return Some(InvalidLoanAmount);
    }
    if !(product.minTerm <= term <= product.maxTerm) {
      return Some(InvalidLoanTerm);
    }
    if id in db.loans || LoanAccount(id) in db.accounts {
      return Some(DuplicateId);
    }
    db.loans := db.loans[id := Loan(product, principal, term, Draft, None, None)];
    db.accounts := db.accounts[LoanAccount(id) := Account(Debit, 0)];
    return None;
  }

  method MoveStatus(db: TenantDb, id: nat, from: LoanStatus, to: LoanStatus, staff: Option<nat>)
    returns (error: Option<Error>)
    modifies db
    ensures db.State() == FinalState(old(db.State()), Transitioned(old(db.State()), id, from, to, staff))
    ensures error == ErrorOf(Transitioned(old(db.State()), id, from, to, staff))
  {
    if id !in db.loans {
      return Some(LoanNotFound);
    }
    if db.loans[id].status != from {
      return Some(InvalidLoanState);
    }
    db.loans := db.loans[id := db.loans[id].(status := to, decidedBy := staff)];
    return None;
  }

  method SubmitForApproval(db: TenantDb, id: nat) returns (error: Option<Error>)
    modifies db
    ensures db.State() == FinalState(old(db.State()), Transitioned(old(db.State()), id, Draft, PendingApproval, None))
    ensures error == ErrorOf(Transitioned(old(db.State()), id, Draft, PendingApproval, None))
  {
    error := MoveStatus(db, id, Draft, PendingApproval, None);
  }

  method ApproveLoan(db: TenantDb, id: nat, staff: nat) returns (error: Option<Error>)
    modifies db
    ensures db.State() == FinalState(old(db.State()),
                                        Transitioned(old(db.State()), id, PendingApproval, Approved, Some(staff)))
    ensures error == ErrorOf(Transitioned(old(db.State()), id, PendingApproval, Approved, Some(staff)))
  {
    error := MoveStatus(db, id, PendingApproval, Approved, Some(staff));
  }

  method RejectLoan(db: TenantDb, id: nat, staff: nat) returns (error: Option<Error>)
    modifies db
    ensures db.State() == FinalState(old(db.State()),
                                        Transitioned(old(db.State()), id, PendingApproval, Rejected, Some(staff)))
    ensures error == ErrorOf(Transitioned(old(db.State()), id, PendingApproval, Rejected, Some(staff)))
  {
    error := MoveStatus(db, id, PendingApproval, Rejected, Some(staff));
  }

  method DisburseLoan(db: TenantDb, id: nat, key: Key, start: Date) returns (error: Option<Error>)
    requires start.Valid() && (id in db.loans ==> TermsOk(db.loans[id]))
    modifies db
    ensures db.State() == FinalState(old(db.State()), Disbursed(old(db.State()), id, key, start))
    ensures error == ErrorOf(Disbursed(old(db.State()), id, key, start))
  {
    if id !in db.loans {
      return Some(LoanNotFound);
    }
    var before := db.State();
    var loan := db.loans[id];
    if loan.status != Approved {
      return Some(InvalidLoanState);
    }
    var lines := GenerateRepaymentSchedule(loan.principal, loan.product.rate, loan.term, loan.product.style, start);
    db.loans := db.loans[id := loan.(schedule := Some(NewRows(lines)))];
    if Cash !in db.accounts {
      db.Rollback(before);
      return Some(OnboardingIncomplete);
    }
    var r := PostTransaction(db, DisbursementKind, key, DisbursementLines(id, loan.principal));
    if r.Err? {
      db.Rollback(before);
      return Some(r.error);
    }
    db.loans := db.loans[id := db.loans[id].(status := Active)];
    return None;
  }

  /** Interest is settled before principal; the line is paid once both parts are. */
  method SplitPayment(row: RepaymentLine, amount: int) returns (line: RepaymentLine, interestPortion: int)
    ensures line == PayRow(row, amount) && interestPortion == InterestPortion(row, amount)
  {
    var interestRemaining := row.interestDue - row.interestPaid;
    interestPortion := if amount <= interestRemaining then amount else interestRemaining;
    line := row.(interestPaid := row.interestPaid + interestPortion);
    line := line.(principalPaid := line.principalPaid + (amount - interestPortion));
    if line.principalPaid == line.principalDue && line.interestPaid == line.interestDue {
      line := line.(status := Paid);
    }
  }

  method RepayInstallment(db: TenantDb, id: nat, amount: int, key: Key) returns (error: Option<Error>)
    modifies db
    ensures db.State() == FinalState(old(db.State()), Repaid(old(db.State()), id, amount, key))
    ensures error == ErrorOf(Repaid(old(db.State()), id, amount, key))
  {
    if id !in db.loans {
      return Some(LoanNotFound);
    }
    var before := db.State();
    var loan := db.loans[id];
    if loan.status != Active {
      return Some(InvalidLoanState);
    }
    if loan.schedule.None? {
      return Some(NoActiveSchedule);
    }
    var rows := loan.schedule.value;
    var k := FirstPending(rows);
    if k == |rows| {
      return Some(InvalidLoanState);
    }
    if amount > Remaining(rows[k]) {
      return Some(Overpayment);
    }
    var line, interestPortion := SplitPayment(rows[k], amount);
    var principalPortion := amount - interestPortion;
    rows := rows[k := line];
    db.loans := db.loans[id := loan.(schedule := Some(rows))];
    if Cash !in db.accounts || InterestIncome !in db.accounts {
      db.Rollback(before);
      return Some(OnboardingIncomplete);
    }
    var flushed := key !in db.transactions;
    var r := PostTransaction(db, RepaymentKind, key, RepaymentLines(id, interestPortion, principalPortion));
    if r.Err? {
      db.Rollback(before);
      return Some(r.error);
    }
    // What the database answers: the new lines once flushed, otherwise those from before this payment.
    var visible := if flushed then rows else before.loans[id].schedule.value;
    if FirstPending(visible) == |visible| {
      db.loans := db.loans[id := db.loans[id].(status := Closed)];
    }
    return None;
  }
}
