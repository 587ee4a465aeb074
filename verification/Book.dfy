/** Whole runs of a tenant: any interleaving of savings and loan operations, failed ones included.
    Three layers of invariants, from the one that needs no hypothesis to the one that needs fresh keys. */
module Book {
  import opened Wrappers
  import opened Sums
  import opened Amortization
  import opened Calendar
  import opened Tenant
  import opened Ledger
  import opened SavingsAccounts
  import opened Repayment
  import opened Loans

  datatype Step =
    | OpenSavings(account: nat, verified: bool, minOpening: int, opening: int, openingKey: Option<Key>)
    | Deposit(account: nat, amount: int, key: Key)
    | Withdraw(account: nat, amount: int, key: Key)
    | Create(loan: nat, verified: bool, product: LoanProduct, principal: int, term: nat)
    | Submit(loan: nat)
    | Approve(loan: nat, staff: nat)
    | Reject(loan: nat, staff: nat)
    | Disburse(loan: nat, key: Key, start: Date)
    | Repay(loan: nat, amount: int, key: Key)

  /** The bounds the request schemas enforce before a service function runs. */
  ghost predicate Admissible(step: Step) {
    match step
    case OpenSavings(_, _, _, opening, _) => opening >= 0
    case Deposit(_, amount, _) => amount > 0
    case Withdraw(_, amount, _) => amount > 0
    case Create(_, _, product, principal, term) =>
      product.rate >= 0.0 && product.minPrincipal > 0 && product.minTerm >= 1
    case Disburse(_, _, start) => start.Valid()
    case Repay(_, amount, _) => amount > 0
    case _ => true
  }

  ghost function Outcome(t: Tenant, step: Step): Result<Tenant>
    requires AllTermsOk(t) && Admissible(step)
  {
    match step
    case OpenSavings(id, verified, minOpening, opening, key) => Opened(t, id, verified, minOpening, opening, key)
    case Deposit(id, amount, key) => Deposited(t, id, amount, key)
    case Withdraw(id, amount, key) => Withdrawn(t, id, amount, key)
    case Create(id, verified, product, principal, term) => Created(t, id, verified, product, principal, term)
    case Submit(id) => Transitioned(t, id, Draft, PendingApproval, None)
    case Approve(id, staff) => Transitioned(t, id, PendingApproval, Approved, Some(staff))
    case Reject(id, staff) => Transitioned(t, id, PendingApproval, Rejected, Some(staff))
    case Disburse(id, key, start) => Disbursed(t, id, key, start)
    case Repay(id, amount, key) => Repaid(t, id, amount, key)
  }

  /** A step that raises commits nothing. */
  ghost function Next(t: Tenant, step: Step): (after: Tenant)
    requires AllTermsOk(t) && Admissible(step)
    ensures AllTermsOk(after)
  {
    FinalState(t, Outcome(t, step))
  }

  ghost function Run(t: Tenant, steps: seq<Step>): (after: Tenant)
    requires AllTermsOk(t) && forall i :: 0 <= i < |steps| ==> Admissible(steps[i])
    ensures AllTermsOk(after)
    decreases |steps|
  {
    if steps == [] then t else Run(Next(t, steps[0]), steps[1..])
  }

  // ------------------------------------------------------------ small postings, worked out

  function Contribution(line: LedgerLine, a: AccountRef, side: Side): int {
    if line.account == a then Signed(line.direction, side, line.amount) else 0
  }

  lemma NetOfOne(x: LedgerLine, a: AccountRef, side: Side)
    ensures Net([x], a, side) == Contribution(x, a, side)
    ensures Total([x], side) == if x.direction == side then x.amount else 0
  {
    assert [x][..0] == [];
  }

  lemma {:induction false} TotalAppend(xs: seq<LedgerLine>, ys: seq<LedgerLine>, side: Side)
    ensures Total(xs + ys, side) == Total(xs, side) + Total(ys, side)
  {
    if ys == [] {
      assert xs + ys == xs;
    } else {
      TotalAppend(xs, ys[..|ys| - 1], side);
      assert (xs + ys)[..|xs + ys| - 1] == xs + ys[..|ys| - 1];
    }
  }

  lemma NetOfTwo(x: LedgerLine, y: LedgerLine, a: AccountRef, side: Side)
    ensures Net([x, y], a, side) == Contribution(x, a, side) + Contribution(y, a, side)
  {
    assert [x, y] == [x] + [y];
    NetAppend([x], [y], a, side);
    NetOfOne(x, a, side);
    NetOfOne(y, a, side);
  }

  lemma TotalOfTwo(x: LedgerLine, y: LedgerLine, side: Side)
    ensures Total([x, y], side) ==
            (if x.direction == side then x.amount else 0) + if y.direction == side then y.amount else 0
  {
    assert [x, y] == [x] + [y];
    TotalAppend([x], [y], side);
    NetOfOne(x, x.account, side);
    NetOfOne(y, y.account, side);
  }

  lemma RepaymentNet(id: nat, interest: int, principal: int, a: AccountRef, side: Side)
    requires principal >= 0
    ensures
      Net(RepaymentLines(id, interest, principal), a, side) ==
      Contribution(LedgerLine(Cash, Debit, interest + principal), a, side)
      + Contribution(LedgerLine(LoanAccount(id), Credit, principal), a, side)
      + (if interest > 0 then Contribution(LedgerLine(InterestIncome, Credit, interest), a, side) else 0)
  {
    var cash := [LedgerLine(Cash, Debit, interest + principal)];
    var loan := if principal > 0 then [LedgerLine(LoanAccount(id), Credit, principal)] else [];
    var income := if interest > 0 then [LedgerLine(InterestIncome, Credit, interest)] else [];
    NetAppend(cash + loan, income, a, side);
    NetAppend(cash, loan, a, side);
    NetOfOne(cash[0], a, side);
    NetOfOne(LedgerLine(LoanAccount(id), Credit, principal), a, side);
    NetOfOne(LedgerLine(InterestIncome, Credit, interest), a, side);
  }

  lemma RepaymentNames(id: nat, interest: int, principal: int)
    ensures forall i :: 0 <= i < |RepaymentLines(id, interest, principal)| ==>
              RepaymentLines(id, interest, principal)[i].account in {Cash, LoanAccount(id), InterestIncome}
  {
  }

  lemma RepaymentTotals(id: nat, interest: int, principal: int, side: Side)
    requires principal >= 0
    ensures Total(RepaymentLines(id, interest, principal), side) ==
            if side == Debit then interest + principal else principal + if interest > 0 then interest else 0
  {
    var cash := [LedgerLine(Cash, Debit, interest + principal)];
    var loan := if principal > 0 then [LedgerLine(LoanAccount(id), Credit, principal)] else [];
    var income := if interest > 0 then [LedgerLine(InterestIncome, Credit, interest)] else [];
    TotalAppend(cash + loan, income, side);
    TotalAppend(cash, loan, side);
    NetOfOne(cash[0], Cash, side);
    NetOfOne(LedgerLine(LoanAccount(id), Credit, principal), Cash, side);
    NetOfOne(LedgerLine(InterestIncome, Credit, interest), Cash, side);
  }

  // ------------------------------------------------------------ layer 1: no hypothesis at all

  /** Which rows exist: one account per savings and loan row, and the two internal accounts. */
  ghost predicate Shape(t: Tenant) {
    && Cash in t.accounts && t.accounts[Cash].normalSide == Debit
    && InterestIncome in t.accounts && t.accounts[InterestIncome].normalSide == Credit
    && (forall a :: a in t.accounts ==> HasRow(t, a))
    && (forall id :: id in t.savings ==> Savings(id) in t.accounts)
    && (forall id :: id in t.loans ==> LoanAccount(id) in t.accounts)
  }

  ghost predicate HasRow(t: Tenant, a: AccountRef)
    requires a in t.accounts
  {
    match a
    case Savings(id) => id in t.savings && t.accounts[a].normalSide == Credit
    case LoanAccount(id) => id in t.loans && t.accounts[a].normalSide == Debit
    case OtherInternal(_) => false
    case _ => true
  }

  ghost predicate Solvent(t: Tenant)
    requires Shape(t)
  {
    forall id :: id in t.savings ==> t.accounts[Savings(id)].balance >= 0
  }

  ghost predicate Sound(t: Tenant) {
    LedgerOk(t) && Shape(t) && Solvent(t) && AllTermsOk(t)
  }

  lemma OnboardedIsSound()
    ensures Sound(Onboarded)
  {
    SumOfPart(DebitView(Onboarded.accounts), map[]);
  }

  lemma PostKeepsRows(t: Tenant, kind: Kind, key: Key, lines: seq<LedgerLine>)
    requires Shape(t) && Solvent(t) && AllTermsOk(t) && Posted(t, kind, key, lines).Ok?
    requires forall id :: id in t.savings ==> t.accounts[Savings(id)].balance + Net(lines, Savings(id), Credit) >= 0
    ensures
      var after := Posted(t, kind, key, lines).value;
      Shape(after) && Solvent(after) && AllTermsOk(after)
  {
  }

  /** A posting that takes nothing from any savings account beyond its balance keeps the tenant sound. */
  lemma PostKeepsSound(t: Tenant, kind: Kind, key: Key, lines: seq<LedgerLine>)
    requires Sound(t) && Posted(t, kind, key, lines).Ok?
    requires forall id :: id in t.savings ==> t.accounts[Savings(id)].balance + Net(lines, Savings(id), Credit) >= 0
    ensures Sound(Posted(t, kind, key, lines).value)
  {
    PostKeepsLedger(t, kind, key, lines);
    PostKeepsRows(t, kind, key, lines);
  }

  lemma DepositKeepsSound(t: Tenant, id: nat, amount: int, key: Key)
    requires Sound(t) && amount >= 0 && Deposited(t, id, amount, key).Ok?
    ensures Sound(Deposited(t, id, amount, key).value)
  {
    forall other | other in t.savings {
      NetOfTwo(LedgerLine(Cash, Debit, amount), LedgerLine(Savings(id), Credit, amount), Savings(other), Credit);
    }
    PostKeepsSound(t, DepositKind, key, DepositLines(id, amount));
  }

  function NewSavings(t: Tenant, id: nat): Tenant {
    t.(savings := t.savings[id := SavingsActive], accounts := t.accounts[Savings(id) := Account(Credit, 0)])
  }

  lemma NewSavingsRows(t: Tenant, id: nat)
    requires Shape(t) && Solvent(t) && AllTermsOk(t) && id !in t.savings && Savings(id) !in t.accounts
    ensures Shape(NewSavings(t, id)) && Solvent(NewSavings(t, id)) && AllTermsOk(NewSavings(t, id))
  {
  }

  lemma NewSavingsKeepSound(t: Tenant, id: nat)
    requires Sound(t) && id !in t.savings && Savings(id) !in t.accounts
    ensures Sound(NewSavings(t, id))
  {
    NewSavingsRows(t, id);
    OpeningKeepsLedger(t, Savings(id), Credit, NewSavings(t, id));
  }

  lemma OpenKeepsSound(t: Tenant, id: nat, verified: bool, minOpening: int, opening: int, key: Option<Key>)
    requires Sound(t) && opening >= 0 && Opened(t, id, verified, minOpening, opening, key).Ok?
    ensures Sound(Opened(t, id, verified, minOpening, opening, key).value)
  {
    NewSavingsKeepSound(t, id);
    if opening > 0 {
      DepositKeepsSound(NewSavings(t, id), id, opening, key.value);
    }
  }

  lemma WithdrawKeepsSound(t: Tenant, id: nat, amount: int, key: Key)
    requires Sound(t) && Withdrawn(t, id, amount, key).Ok?
    ensures Sound(Withdrawn(t, id, amount, key).value)
  {
    forall other | other in t.savings {
      NetOfTwo(LedgerLine(Savings(id), Debit, amount), LedgerLine(Cash, Credit, amount), Savings(other), Credit);
    }
    PostKeepsSound(t, WithdrawalKind, key, WithdrawalLines(id, amount));
  }

  lemma NewLoanRows(t: Tenant, id: nat, loan: Loan)
    requires Shape(t) && Solvent(t) && AllTermsOk(t) && TermsOk(loan)
    requires id !in t.loans && LoanAccount(id) !in t.accounts
    ensures
      var after := t.(loans := t.loans[id := loan], accounts := t.accounts[LoanAccount(id) := Account(Debit, 0)]);
      Shape(after) && Solvent(after) && AllTermsOk(after)
  {
  }

  lemma CreateKeepsSound(t: Tenant, id: nat, verified: bool, product: LoanProduct, principal: int, term: nat)
    requires Sound(t) && product.rate >= 0.0 && product.minPrincipal > 0 && product.minTerm >= 1
    requires Created(t, id, verified, product, principal, term).Ok?
    ensures Sound(Created(t, id, verified, product, principal, term).value)
  {
    NewLoanRows(t, id, Loan(product, principal, term, Draft, None, None));
    OpeningKeepsLedger(t, LoanAccount(id), Debit, Created(t, id, verified, product, principal, term).value);
  }

  /** Rewriting an existing loan row, with the same terms, is invisible to the ledger. */
  lemma LoanRowKeepsSound(t: Tenant, id: nat, loan: Loan)
    requires Sound(t) && id in t.loans && TermsOk(loan)
    ensures Sound(t.(loans := t.loans[id := loan]))
  {
  }

  /** What disbursements and repayments have in common: a posting that spares savings, and a new loan row. */
  lemma PostingAndRowKeepSound(t: Tenant, kind: Kind, key: Key, lines: seq<LedgerLine>, id: nat, loan: Loan)
    requires Sound(t) && Posted(t, kind, key, lines).Ok? && id in t.loans && TermsOk(loan)
    requires forall i :: 0 <= i < |lines| ==> !lines[i].account.Savings?
    ensures Sound(Posted(t, kind, key, lines).value.(loans := t.loans[id := loan]))
  {
    forall other | other in t.savings {
      NetOfStranger(lines, Savings(other), Credit);
    }
    PostKeepsSound(t, kind, key, lines);
    LoanRowKeepsSound(Posted(t, kind, key, lines).value, id, loan);
  }

  lemma DisburseKeepsSound(t: Tenant, id: nat, key: Key, start: Date)
    requires Sound(t) && start.Valid() && Disbursed(t, id, key, start).Ok?
    ensures Sound(Disbursed(t, id, key, start).value)
  {
    var loan := t.loans[id];
    PostingAndRowKeepSound(t, DisbursementKind, key, DisbursementLines(id, loan.principal), id,
                           loan.(schedule := Some(LoanSchedule(loan, start)), status := Active));
  }

  lemma RepayKeepsSound(t: Tenant, id: nat, amount: int, key: Key)
    requires Sound(t) && Repaid(t, id, amount, key).Ok?
    ensures Sound(Repaid(t, id, amount, key).value)
  {
    var loan := t.loans[id];
    var rows := loan.schedule.value;
    var interest, paid := InterestPortion(rows[FirstPending(rows)], amount), PayRows(rows, amount);
    RepaymentNames(id, interest, amount - interest);
    PostingAndRowKeepSound(t, RepaymentKind, key, RepaymentLines(id, interest, amount - interest), id,
                           loan.(schedule := Some(paid), status := StatusAfterRepayment(t, key, paid)));
  }

  lemma StepKeepsSound(t: Tenant, step: Step)
    requires Sound(t) && Admissible(step)
    ensures Sound(Next(t, step))
  {
    if Outcome(t, step).Ok? {
      match step
      case OpenSavings(id, verified, minOpening, opening, key) =>
        OpenKeepsSound(t, id, verified, minOpening, opening, key);
      case Deposit(id, amount, key) => DepositKeepsSound(t, id, amount, key);
      case Withdraw(id, amount, key) => WithdrawKeepsSound(t, id, amount, key);
      case Create(id, verified, product, principal, term) =>
        CreateKeepsSound(t, id, verified, product, principal, term);
      case Submit(id) => LoanRowKeepsSound(t, id, Next(t, step).loans[id]);
      case Approve(id, _) => LoanRowKeepsSound(t, id, Next(t, step).loans[id]);
      case Reject(id, _) => LoanRowKeepsSound(t, id, Next(t, step).loans[id]);
      case Disburse(id, key, start) => DisburseKeepsSound(t, id, key, start);
      case Repay(id, amount, key) => RepayKeepsSound(t, id, amount, key);
    }
  }

  /** In every run: the cache agrees with the entries, the books balance, every transaction balances,
      and no savings balance is negative. */
  lemma {:induction false} RunKeepsSound(t: Tenant, steps: seq<Step>)
    requires Sound(t) && forall i :: 0 <= i < |steps| ==> Admissible(steps[i])
    ensures Sound(Run(t, steps))
    decreases |steps|
  {
    if steps == [] {
    } else {
      StepKeepsSound(t, steps[0]);
      RunKeepsSound(Next(t, steps[0]), steps[1..]);
    }
  }

  // ------------------------------------------------------------ layer 2: schedules

  /** Every schedule made of payable lines is paid down in waterfall order; keys do not matter. */
  ghost predicate WaterfallOk(t: Tenant) {
    forall id :: id in t.loans && t.loans[id].schedule.Some? && AllPayable(t.loans[id].schedule.value) ==>
      Waterfall(t.loans[id].schedule.value)
  }

  /** The schedule of a loan after a step: installed by its disbursement, paid by a repayment, else untouched. */
  lemma ScheduleAfter(t: Tenant, step: Step, id: nat)
    requires AllTermsOk(t) && Admissible(step) && id in Next(t, step).loans
    ensures
      var after := Next(t, step).loans[id];
      || (id in t.loans && after.schedule == t.loans[id].schedule)
      || (id !in t.loans && after.schedule == None)
      || (step.Disburse? && step.loan == id && id in t.loans
          && after.schedule == Some(LoanSchedule(t.loans[id], step.start)))
      || (step.Repay? && step.loan == id && id in t.loans && t.loans[id].schedule.Some?
          && FirstPending(t.loans[id].schedule.value) < |t.loans[id].schedule.value|
          && step.amount <= Remaining(t.loans[id].schedule.value[FirstPending(t.loans[id].schedule.value)])
          && after.schedule == Some(PayRows(t.loans[id].schedule.value, step.amount)))
  {
  }

  /** The row of an ACTIVE loan changes only by its own repayments. */
  lemma ActiveLoanAfter(t: Tenant, step: Step, id: nat)
    requires AllTermsOk(t) && Admissible(step) && id in t.loans && t.loans[id].status == Active
    ensures id in Next(t, step).loans
    ensures Next(t, step).loans[id] == t.loans[id] || (step.Repay? && step.loan == id && Outcome(t, step).Ok?)
  {
  }

  lemma StepKeepsWaterfall(t: Tenant, step: Step)
    requires AllTermsOk(t) && WaterfallOk(t) && Admissible(step)
    ensures WaterfallOk(Next(t, step))
  {
    var after := Next(t, step);
    forall id | id in after.loans && after.loans[id].schedule.Some? && AllPayable(after.loans[id].schedule.value)
      ensures Waterfall(after.loans[id].schedule.value)
    {
      ScheduleAfter(t, step, id);
      if step.Disburse? && step.loan == id && after.loans[id].schedule == Some(LoanSchedule(t.loans[id], step.start)) {
        var loan := t.loans[id];
        NewRowsFall(Schedule(loan.principal, loan.product.rate, loan.term, loan.product.style, step.start));
      } else if after.loans[id].schedule != t.loans[id].schedule {
        SameDues(t.loans[id].schedule.value, step.amount);
        PayKeepsWaterfall(t.loans[id].schedule.value, step.amount);
      }
    }
  }

  /** Paying never changes what is due, hence never makes a line payable. */
  lemma SameDues(rows: seq<RepaymentLine>, amount: int)
    requires FirstPending(rows) < |rows|
    ensures AllPayable(PayRows(rows, amount)) <==> AllPayable(rows)
  {
    var after := PayRows(rows, amount);
    assert forall i :: 0 <= i < |rows| ==>
      after[i].principalDue == rows[i].principalDue && after[i].interestDue == rows[i].interestDue;
  }

  lemma {:induction false} RunKeepsWaterfall(t: Tenant, steps: seq<Step>)
    requires AllTermsOk(t) && WaterfallOk(t) && forall i :: 0 <= i < |steps| ==> Admissible(steps[i])
    ensures WaterfallOk(Run(t, steps))
    decreases |steps|
  {
    if steps == [] {
    } else {
      StepKeepsWaterfall(t, steps[0]);
      RunKeepsWaterfall(Next(t, steps[0]), steps[1..]);
    }
  }

  // ------------------------------------------------------------ layer 3: loans and ledger in lockstep

  /** The step's key is new where post_transaction returning early would leave the loan ahead of the ledger. */
  predicate Fresh(t: Tenant, step: Step) {
    match step
    case Disburse(_, key, _) => key !in t.transactions
    case Repay(_, _, key) => key !in t.transactions
    case _ => true
  }

  ghost predicate FreshRun(t: Tenant, steps: seq<Step>)
    requires AllTermsOk(t) && forall i :: 0 <= i < |steps| ==> Admissible(steps[i])
    decreases |steps|
  {
    steps == [] || (Fresh(t, steps[0]) && FreshRun(Next(t, steps[0]), steps[1..]))
  }

  ghost predicate PaidAreSettled(rows: seq<RepaymentLine>) {
    forall i :: 0 <= i < |rows| && rows[i].status == Paid ==> Settled(rows[i])
  }

  /** The loan row, its schedule and its ledger balance tell the same story. */
  ghost predicate Booked(loan: Loan, outstanding: int) {
    match loan.status
    case Active =>
      && loan.schedule.Some? && PaidAreSettled(loan.schedule.value)
      && outstanding == PrincipalOwed(loan.schedule.value)
      && FirstPending(loan.schedule.value) < |loan.schedule.value|
    case Closed =>
      && loan.schedule.Some? && PaidAreSettled(loan.schedule.value)
      && outstanding == PrincipalOwed(loan.schedule.value)
      && FirstPending(loan.schedule.value) == |loan.schedule.value|
    case Defaulted => false
    case _ => loan.schedule.None? && outstanding == 0
  }

  ghost predicate Lockstep(t: Tenant)
    requires Shape(t)
  {
    forall id :: id in t.loans ==> Booked(t.loans[id], t.accounts[LoanAccount(id)].balance)
  }

  lemma ClosedOwesNothing(t: Tenant, id: nat)
    requires Sound(t) && Lockstep(t) && id in t.loans && t.loans[id].status == Closed
    ensures t.accounts[LoanAccount(id)].balance == 0
  {
    SumSeqZero(PrincipalParts(t.loans[id].schedule.value));
  }

  lemma PayKeepsPaidSettled(rows: seq<RepaymentLine>, amount: int)
    requires PaidAreSettled(rows) && FirstPending(rows) < |rows|
    ensures PaidAreSettled(PayRows(rows, amount))
  {
  }

  /** The loan's balance after its disbursement: the principal more, unless the key was known. */
  lemma DisburseEffect(t: Tenant, id: nat, key: Key, start: Date)
    requires Shape(t) && start.Valid() && id in t.loans && TermsOk(t.loans[id]) && Disbursed(t, id, key, start).Ok?
    ensures
      var after := Disbursed(t, id, key, start).value;
      && LoanAccount(id) in after.accounts
      && after.accounts[LoanAccount(id)].balance ==
         t.accounts[LoanAccount(id)].balance + if key in t.transactions then 0 else t.loans[id].principal
  {
    var principal := t.loans[id].principal;
    NetOfTwo(LedgerLine(LoanAccount(id), Debit, principal), LedgerLine(Cash, Credit, principal),
             LoanAccount(id), Debit);
  }

  lemma NewScheduleIsBooked(loan: Loan, start: Date)
    requires TermsOk(loan) && start.Valid()
    ensures
      var rows := LoanSchedule(loan, start);
      PaidAreSettled(rows) && FirstPending(rows) == 0 < |rows| && PrincipalOwed(rows) == loan.principal
  {
    var rows := LoanSchedule(loan, start);
    ScheduleIsExact(loan.principal, loan.product.rate, loan.term, loan.product.style, start);
    NewRowsOwe(Schedule(loan.principal, loan.product.rate, loan.term, loan.product.style, start));
    FirstPendingIs(rows, 0);
  }

  /** A disbursement keeps its loan in step with the ledger exactly when its key is new. */
  lemma DisburseLockstepIff(t: Tenant, id: nat, key: Key, start: Date)
    requires Sound(t) && Lockstep(t) && start.Valid() && id in t.loans && Disbursed(t, id, key, start).Ok?
    ensures
      var after := Disbursed(t, id, key, start).value;
      && LoanAccount(id) in after.accounts
      && (Booked(after.loans[id], after.accounts[LoanAccount(id)].balance) <==> key !in t.transactions)
  {
    DisburseEffect(t, id, key, start);
    NewScheduleIsBooked(t.loans[id], start);
  }

  /** The loan's balance after a repayment: the principal portion less, unless the key was known. */
  lemma RepayEffect(t: Tenant, id: nat, amount: int, key: Key)
    requires Shape(t) && id in t.loans && Repaid(t, id, amount, key).Ok?
    ensures
      var after := Repaid(t, id, amount, key).value;
      var rows := t.loans[id].schedule.value;
      var principal := amount - InterestPortion(rows[FirstPending(rows)], amount);
      && LoanAccount(id) in after.accounts
      && after.accounts[LoanAccount(id)].balance ==
         t.accounts[LoanAccount(id)].balance - if key in t.transactions then 0 else principal
  {
    var rows := t.loans[id].schedule.value;
    var interest := InterestPortion(rows[FirstPending(rows)], amount);
    RepaymentNet(id, interest, amount - interest, LoanAccount(id), Debit);
  }

  /** A repayment keeps its loan in step with the ledger exactly when its key is new, or it pays
      interest only and more remains: a replayed key lets the schedule run ahead of the books. */
  lemma RepayLockstepIff(t: Tenant, id: nat, amount: int, key: Key)
    requires Sound(t) && Lockstep(t) && id in t.loans && Repaid(t, id, amount, key).Ok?
    ensures
      var after := Repaid(t, id, amount, key).value;
      var rows := t.loans[id].schedule.value;
      var line := rows[FirstPending(rows)];
      && LoanAccount(id) in after.accounts
      && (Booked(after.loans[id], after.accounts[LoanAccount(id)].balance) <==>
          key !in t.transactions ||
          (amount == InterestPortion(line, amount) && FirstPending(PayRows(rows, amount)) < |rows|))
  {
    var rows := t.loans[id].schedule.value;
    PayReduces(rows, amount);
    PayKeepsPaidSettled(rows, amount);
    RepayEffect(t, id, amount, key);
  }

  /** A posting that does not name a loan's account leaves its balance alone. */
  lemma PostSparesLoan(t: Tenant, kind: Kind, key: Key, lines: seq<LedgerLine>, other: nat)
    requires LoanAccount(other) in t.accounts && Posted(t, kind, key, lines).Ok?
    requires forall i :: 0 <= i < |lines| ==> lines[i].account != LoanAccount(other)
    ensures LoanAccount(other) in Posted(t, kind, key, lines).value.accounts
    ensures Posted(t, kind, key, lines).value.accounts[LoanAccount(other)] == t.accounts[LoanAccount(other)]
  {
    NetOfStranger(lines, LoanAccount(other), t.accounts[LoanAccount(other)].normalSide);
  }

  ghost predicate Spared(t: Tenant, after: Tenant, other: nat)
    requires other in t.loans && LoanAccount(other) in t.accounts
  {
    && other in after.loans && after.loans[other] == t.loans[other]
    && LoanAccount(other) in after.accounts && after.accounts[LoanAccount(other)] == t.accounts[LoanAccount(other)]
  }

  lemma SavingsSpareLoan(t: Tenant, step: Step, other: nat)
    requires Sound(t) && Admissible(step) && other in t.loans && (step.Deposit? || step.Withdraw?)
    ensures Spared(t, Next(t, step), other)
  {
    if Outcome(t, step).Ok? {
      match step
      case Deposit(id, amount, key) => PostSparesLoan(t, DepositKind, key, DepositLines(id, amount), other);
      case Withdraw(id, amount, key) => PostSparesLoan(t, WithdrawalKind, key, WithdrawalLines(id, amount), other);
    }
  }

  lemma OpeningSparesLoan(t: Tenant, step: Step, other: nat)
    requires Sound(t) && Admissible(step) && other in t.loans && step.OpenSavings?
    ensures Spared(t, Next(t, step), other)
  {
    if Outcome(t, step).Ok? && step.opening > 0 {
      var t1 := NewSavings(t, step.account);
      PostSparesLoan(t1, DepositKind, step.openingKey.value, DepositLines(step.account, step.opening), other);
    }
  }

  lemma DisbursementSparesLoan(t: Tenant, id: nat, key: Key, start: Date, other: nat)
    requires Sound(t) && start.Valid() && other in t.loans && id != other && Disbursed(t, id, key, start).Ok?
    ensures Spared(t, Disbursed(t, id, key, start).value, other)
  {
    PostSparesLoan(t, DisbursementKind, key, DisbursementLines(id, t.loans[id].principal), other);
  }

  lemma RepaymentSparesLoan(t: Tenant, id: nat, amount: int, key: Key, other: nat)
    requires Sound(t) && other in t.loans && id != other && Repaid(t, id, amount, key).Ok?
    ensures Spared(t, Repaid(t, id, amount, key).value, other)
  {
    var rows := t.loans[id].schedule.value;
    var interest := InterestPortion(rows[FirstPending(rows)], amount);
    RepaymentNames(id, interest, amount - interest);
    PostSparesLoan(t, RepaymentKind, key, RepaymentLines(id, interest, amount - interest), other);
  }

  /** A loan's row and balance change only through operations on that very loan. */
  lemma OthersUntouched(t: Tenant, step: Step, other: nat)
    requires Sound(t) && Admissible(step) && other in t.loans
    requires (step.Disburse? || step.Repay? || step.Submit? || step.Approve? || step.Reject?) ==> step.loan != other
    ensures Spared(t, Next(t, step), other)
  {
    if step.OpenSavings? {
      OpeningSparesLoan(t, step, other);
    } else if step.Deposit? || step.Withdraw? {
      SavingsSpareLoan(t, step, other);
    } else if step.Disburse? && Outcome(t, step).Ok? {
      DisbursementSparesLoan(t, step.loan, step.key, step.start, other);
    } else if step.Repay? && Outcome(t, step).Ok? {
      RepaymentSparesLoan(t, step.loan, step.amount, step.key, other);
    }
  }

  lemma TransitionKeepsBooked(t: Tenant, step: Step)
    requires Sound(t) && Lockstep(t) && Admissible(step) && (step.Submit? || step.Approve? || step.Reject?)
    ensures
      var after := Next(t, step);
      step.loan in after.loans ==>
        after.accounts == t.accounts && Booked(after.loans[step.loan], t.accounts[LoanAccount(step.loan)].balance)
  {
  }

  lemma OwnStepKeepsBooked(t: Tenant, step: Step)
    requires Sound(t) && Lockstep(t) && Admissible(step) && Fresh(t, step)
    requires step.Disburse? || step.Repay?
    ensures
      var after := Next(t, step);
      step.loan in after.loans ==>
        LoanAccount(step.loan) in after.accounts
        && Booked(after.loans[step.loan], after.accounts[LoanAccount(step.loan)].balance)
  {
    if Outcome(t, step).Ok? {
      match step
      case Disburse(id, key, start) => DisburseLockstepIff(t, id, key, start);
      case Repay(id, amount, key) => RepayLockstepIff(t, id, amount, key);
    }
  }

  lemma StepKeepsLockstep(t: Tenant, step: Step)
    requires Sound(t) && Lockstep(t) && Admissible(step) && Fresh(t, step)
    ensures Sound(Next(t, step)) && Lockstep(Next(t, step))
  {
    StepKeepsSound(t, step);
    var after := Next(t, step);
    forall id | id in after.loans ensures Booked(after.loans[id], after.accounts[LoanAccount(id)].balance) {
      StepKeepsBooked(t, step, id);
    }
  }

  lemma NewLoanIsBooked(t: Tenant, step: Step, id: nat)
    requires AllTermsOk(t) && Admissible(step) && id !in t.loans && id in Next(t, step).loans
    ensures LoanAccount(id) in Next(t, step).accounts
    ensures Booked(Next(t, step).loans[id], Next(t, step).accounts[LoanAccount(id)].balance)
  {
    assert step.Create?;
  }

  lemma StepKeepsBooked(t: Tenant, step: Step, id: nat)
    requires Sound(t) && Lockstep(t) && Admissible(step) && Fresh(t, step) && id in Next(t, step).loans
    ensures LoanAccount(id) in Next(t, step).accounts
    ensures Booked(Next(t, step).loans[id], Next(t, step).accounts[LoanAccount(id)].balance)
  {
    if id !in t.loans {
      NewLoanIsBooked(t, step, id);
    } else if (step.Disburse? || step.Repay?) && step.loan == id {
      OwnStepKeepsBooked(t, step);
    } else if (step.Submit? || step.Approve? || step.Reject?) && step.loan == id {
      TransitionKeepsBooked(t, step);
    } else {
      OthersUntouched(t, step, id);
    }
  }

  /** In every run with fresh keys each loan stays in lockstep with its ledger account. */
  lemma {:induction false} RunKeepsLockstep(t: Tenant, steps: seq<Step>)
    requires Sound(t) && Lockstep(t)
    requires (forall i :: 0 <= i < |steps| ==> Admissible(steps[i])) && FreshRun(t, steps)
    ensures Sound(Run(t, steps)) && Lockstep(Run(t, steps))
    decreases |steps|
  {
    if steps == [] {
    } else {
      StepKeepsLockstep(t, steps[0]);
      RunKeepsLockstep(Next(t, steps[0]), steps[1..]);
    }
  }

  // ------------------------------------------------------------ runs taken apart

  lemma OneStep(t: Tenant, step: Step, rest: seq<Step>)
    requires AllTermsOk(t) && Admissible(step) && forall i :: 0 <= i < |rest| ==> Admissible(rest[i])
    ensures Run(t, [step] + rest) == Run(Next(t, step), rest)
    ensures FreshRun(t, [step] + rest) <==> Fresh(t, step) && FreshRun(Next(t, step), rest)
  {
    assert ([step] + rest)[1..] == rest;
  }

  lemma {:induction false} RunAppend(t: Tenant, xs: seq<Step>, ys: seq<Step>)
    requires AllTermsOk(t)
    requires (forall i :: 0 <= i < |xs| ==> Admissible(xs[i])) && (forall i :: 0 <= i < |ys| ==> Admissible(ys[i]))
    ensures Run(t, xs + ys) == Run(Run(t, xs), ys)
    ensures FreshRun(t, xs + ys) <==> FreshRun(t, xs) && FreshRun(Run(t, xs), ys)
    decreases |xs|
  {
    if xs == [] {
      assert xs + ys == ys;
    } else {
      assert xs + ys == [xs[0]] + (xs[1..] + ys);
      OneStep(t, xs[0], xs[1..] + ys);
      RunAppend(Next(t, xs[0]), xs[1..], ys);
    }
  }

  lemma RunSplit(t: Tenant, steps: seq<Step>, last: Step)
    requires AllTermsOk(t) && Admissible(last) && forall i :: 0 <= i < |steps| ==> Admissible(steps[i])
    ensures Run(t, steps + [last]) == Next(Run(t, steps), last)
    ensures FreshRun(t, steps + [last]) <==> FreshRun(t, steps) && Fresh(Run(t, steps), last)
  {
    RunAppend(t, steps, [last]);
    assert [last] == [last] + [];
    OneStep(Run(t, steps), last, []);
  }
}
