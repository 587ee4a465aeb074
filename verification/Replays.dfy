/** Idempotency keys used twice: the loan row moves although the ledger does not. */
module Replays {
  import opened Wrappers
  import opened Amortization
  import opened Calendar
  import opened Tenant
  import opened SavingsAccounts
  import opened Repayment
  import opened Loans
  import opened Book

  // ------------------------------------------------------------ a loan stranded by its last payment

  /** ACTIVE, but nothing is left to pay. */
  predicate Stranded(t: Tenant, id: nat) {
    && id in t.loans && t.loans[id].status == Active && t.loans[id].schedule.Some?
    && FirstPending(t.loans[id].schedule.value) == |t.loans[id].schedule.value|
  }

  /** The payment that settles the last line strands the loan exactly when its key was used before;
      otherwise it closes it. */
  lemma LastPaymentStrandsIff(t: Tenant, id: nat, amount: int, key: Key)
    requires id in t.loans && Repaid(t, id, amount, key).Ok?
    requires
      var paid := PayRows(t.loans[id].schedule.value, amount);
      FirstPending(paid) == |paid|
    ensures
      var after := Repaid(t, id, amount, key).value;
      && (Stranded(after, id) <==> key in t.transactions)
      && (after.loans[id].status == Closed <==> key !in t.transactions)
  {
  }

  lemma StepKeepsStranded(t: Tenant, step: Step, id: nat)
    requires AllTermsOk(t) && Admissible(step) && Stranded(t, id)
    ensures Stranded(Next(t, step), id)
  {
    ActiveLoanAfter(t, step, id);
  }

  /** No run ever closes a stranded loan, or accepts a payment for it. */
  lemma {:induction false} StrandedForEver(t: Tenant, steps: seq<Step>, id: nat, amount: int, key: Key)
    requires AllTermsOk(t) && (forall i :: 0 <= i < |steps| ==> Admissible(steps[i])) && Stranded(t, id)
    ensures Stranded(Run(t, steps), id) && Repaid(Run(t, steps), id, amount, key) == Err(InvalidLoanState)
    decreases |steps|
  {
    if steps == [] {
    } else {
      StepKeepsStranded(t, steps[0], id);
      StrandedForEver(Next(t, steps[0]), steps[1..], id, amount, key);
    }
  }

  // ------------------------------------------------------------ a disbursement under a deposit's key

  const TwelveCents := LoanProduct(Flat, 0.0, 1, 100, 1, 12)

  /** A loan is applied for, submitted and approved by staff member 1. */
  function Approval(id: nat, product: LoanProduct, principal: int, term: nat): seq<Step> {
    [Create(id, true, product, principal, term), Submit(id), Approve(id, 1)]
  }

  /** A loan is applied for and approved; a savings account is opened under key 7; the loan is disbursed under
      key 7 as well. */
  const SharedKey: seq<Step> :=
    Approval(0, TwelveCents, 12, 1) + [OpenSavings(1, true, 0, 5, Some(7)), Disburse(0, 7, Date(2024, 1, 31))]

  /** The run goes on: the loan is repaid in full, once more under key 7. */
  const SharedKeyAgain: seq<Step> := SharedKey + [Repay(0, 12, 7)]

  /** In a tenant without loans it is then the only one, and no money has moved. */
  lemma OnlyLoanApproved(t: Tenant, id: nat, product: LoanProduct, principal: int, term: nat) returns (after: Tenant)
    requires t.loans == map[] && LoanAccount(id) !in t.accounts && product.rate >= 0.0
    requires 0 < product.minPrincipal <= principal <= product.maxPrincipal
    requires 1 <= product.minTerm <= term <= product.maxTerm
    ensures forall i :: 0 <= i < 3 ==> Admissible(Approval(id, product, principal, term)[i])
    ensures AllTermsOk(t) && after == Run(t, Approval(id, product, principal, term))
    ensures FreshRun(t, Approval(id, product, principal, term))
    ensures after.loans == map[id := Loan(product, principal, term, Approved, None, Some(1))]
    ensures after.accounts == t.accounts[LoanAccount(id) := Account(Debit, 0)]
    ensures after.transactions == t.transactions && after.savings == t.savings
  {
    var steps := Approval(id, product, principal, term);
    var t1 := Next(t, steps[0]);
    assert t1.loans == map[id := Loan(product, principal, term, Draft, None, None)];
    var t2 := Next(t1, steps[1]);
    assert t2.loans == map[id := Loan(product, principal, term, PendingApproval, None, None)];
    after := Next(t2, steps[2]);
    assert after.loans == map[id := Loan(product, principal, term, Approved, None, Some(1))];
    assert steps == [steps[0]] + steps[1..] && steps[1..] == [steps[1]] + steps[2..] && steps[2..] == [steps[2]] + [];
    OneStep(t, steps[0], steps[1..]);
    OneStep(t1, steps[1], steps[2..]);
    OneStep(t2, steps[2], []);
  }

  /** The loan as it stands before its disbursement, and key 7 already known. */
  lemma BeforeDisbursement() returns (t: Tenant)
    ensures AllTermsOk(Onboarded) && forall i :: 0 <= i < 4 ==> Admissible(SharedKey[i])
    ensures t == Run(Onboarded, SharedKey[..4]) && FreshRun(Onboarded, SharedKey[..4])
    ensures t.loans == map[0 := Loan(TwelveCents, 12, 1, Approved, None, Some(1))]
    ensures 7 in t.transactions && Cash in t.accounts
  {
    var first := Approval(0, TwelveCents, 12, 1);
    var approved := OnlyLoanApproved(Onboarded, 0, TwelveCents, 12, 1);
    t := OpeningUsesItsKey(Onboarded, first, 1, 5, 7);
    assert SharedKey[..4] == first + [OpenSavings(1, true, 0, 5, Some(7))];
  }

  lemma DepositUsesItsKey(t: Tenant, id: nat, amount: int, key: Key)
    requires id in t.savings && t.savings[id] == SavingsActive && Cash in t.accounts && Savings(id) in t.accounts
    ensures Deposited(t, id, amount, key).Ok?
    ensures
      var after := Deposited(t, id, amount, key).value;
      key in after.transactions && Cash in after.accounts && after.loans == t.loans
  {
    TotalOfTwo(DepositLines(id, amount)[0], DepositLines(id, amount)[1], Debit);
    TotalOfTwo(DepositLines(id, amount)[0], DepositLines(id, amount)[1], Credit);
  }

  /** A run goes on with the opening of a savings account. */
  lemma OpeningUsesItsKey(t: Tenant, first: seq<Step>, id: nat, opening: int, key: Key) returns (after: Tenant)
    requires AllTermsOk(t) && (forall i :: 0 <= i < |first| ==> Admissible(first[i])) && opening > 0
    requires Cash in Run(t, first).accounts && id !in Run(t, first).savings && Savings(id) !in Run(t, first).accounts
    ensures
      var open := OpenSavings(id, true, 0, opening, Some(key));
      && Admissible(open) && after == Run(t, first + [open])
      && (FreshRun(t, first) ==> FreshRun(t, first + [open]))
    ensures key in after.transactions && Cash in after.accounts && after.loans == Run(t, first).loans
  {
    var before := Run(t, first);
    var open := OpenSavings(id, true, 0, opening, Some(key));
    RunSplit(t, first, open);
    after := Next(before, open);
    DepositUsesItsKey(NewSavings(before, id), id, opening, key);
  }

  lemma KnownKeyStillDisburses(t: Tenant, id: nat, key: Key, start: Date)
    requires AllTermsOk(t) && start.Valid() && id in t.loans && t.loans[id].status == Approved
    requires Cash in t.accounts && key in t.transactions
    ensures Disbursed(t, id, key, start).Ok? && id in Disbursed(t, id, key, start).value.loans
    ensures
      var loan := Disbursed(t, id, key, start).value.loans[id];
      loan.status == Active && loan.schedule == Some(LoanSchedule(t.loans[id], start))
    ensures key in Disbursed(t, id, key, start).value.transactions
  {
  }

  /** Disbursing an approved loan under a known key always takes it out of step. */
  lemma KnownKeyBreaksLockstep(t: Tenant, id: nat, key: Key, start: Date)
    requires Sound(t) && Lockstep(t) && start.Valid() && id in t.loans && t.loans[id].status == Approved
    requires key in t.transactions
    ensures
      var after := Next(t, Disburse(id, key, start));
      Shape(after) && !Lockstep(after) && id in after.loans && after.loans[id].status == Active
  {
    KnownKeyStillDisburses(t, id, key, start);
    DisburseLockstepIff(t, id, key, start);
    StepKeepsSound(t, Disburse(id, key, start));
  }

  lemma LockstepBeforeDisbursement() returns (t: Tenant)
    ensures AllTermsOk(Onboarded) && forall i :: 0 <= i < 4 ==> Admissible(SharedKey[i])
    ensures t == Run(Onboarded, SharedKey[..4]) && Sound(t) && Lockstep(t)
    ensures 0 in t.loans && t.loans[0].status == Approved && 7 in t.transactions
  {
    t := BeforeDisbursement();
    OnboardedIsSound();
    RunKeepsLockstep(Onboarded, SharedKey[..4]);
  }

  lemma LastStepOfSharedKey()
    ensures AllTermsOk(Onboarded) && forall i :: 0 <= i < |SharedKey| ==> Admissible(SharedKey[i])
    ensures Run(Onboarded, SharedKey) == Next(Run(Onboarded, SharedKey[..4]), Disburse(0, 7, Date(2024, 1, 31)))
  {
    assert SharedKey == SharedKey[..4] + [SharedKey[4]];
    RunSplit(Onboarded, SharedKey[..4], SharedKey[4]);
  }

  /** Fresh keys matter: after this run the loan is ACTIVE and owes 12, and the ledger knows nothing of it. */
  lemma SharedKeyBreaksLockstep()
    ensures AllTermsOk(Onboarded) && forall i :: 0 <= i < |SharedKey| ==> Admissible(SharedKey[i])
    ensures
      var after := Run(Onboarded, SharedKey);
      Shape(after) && !Lockstep(after) && 0 in after.loans && after.loans[0].status == Active
  {
    var t := LockstepBeforeDisbursement();
    KnownKeyBreaksLockstep(t, 0, 7, Date(2024, 1, 31));
    LastStepOfSharedKey();
  }

  /** The one line of the loan, and what repaying it makes of it. */
  lemma TwelveCentsSchedule(start: Date)
    requires start.Valid()
    ensures Schedule(12, 0.0, 1, Flat, start) == [ScheduleLine(1, AddMonths(start, 1), 12, 0)]
  {
    InterestWithoutRate(12);
    assert Schedule(12, 0.0, 1, Flat, start)[0] == ScheduleLine(1, AddMonths(start, 1), 12, 0);
  }

  lemma KnownKeyStillRepays(t: Tenant, id: nat, amount: int, key: Key, row: RepaymentLine)
    requires id in t.loans && t.loans[id].status == Active && t.loans[id].schedule == Some([row])
    requires Cash in t.accounts && InterestIncome in t.accounts && key in t.transactions
    requires row.status == Pending && row.interestDue == row.interestPaid == 0 && row.principalPaid == 0
    requires amount == row.principalDue > 0
    ensures Repaid(t, id, amount, key).Ok? && Stranded(Repaid(t, id, amount, key).value, id)
  {
    assert FirstPending([row]) == 0;
    var paid := PayRows([row], amount);
    assert paid == [PayRow(row, amount)] && PayRow(row, amount).status == Paid;
    FirstPendingIs(paid, 1);
  }

  /** The loan after its disbursement under key 7. */
  lemma AfterDisbursement() returns (t: Tenant, due: Date)
    ensures AllTermsOk(Onboarded) && forall i :: 0 <= i < |SharedKey| ==> Admissible(SharedKey[i])
    ensures t == Run(Onboarded, SharedKey) && Sound(t) && 7 in t.transactions
    ensures 0 in t.loans && t.loans[0].status == Active
    ensures t.loans[0].schedule == Some(NewRows([ScheduleLine(1, due, 12, 0)]))
  {
    due := AddMonths(Date(2024, 1, 31), 1);
    var before := BeforeDisbursement();
    KnownKeyStillDisburses(before, 0, 7, Date(2024, 1, 31));
    t := Next(before, SharedKey[4]);
    TwelveCentsSchedule(Date(2024, 1, 31));
    LastStepOfSharedKey();
    OnboardedIsSound();
    RunKeepsSound(Onboarded, SharedKey);
  }

  lemma RepaymentStrands(t: Tenant, due: Date)
    requires AllTermsOk(t) && 7 in t.transactions && Cash in t.accounts && InterestIncome in t.accounts
    requires 0 in t.loans && t.loans[0].status == Active
    requires t.loans[0].schedule == Some(NewRows([ScheduleLine(1, due, 12, 0)]))
    ensures Stranded(Next(t, Repay(0, 12, 7)), 0)
  {
    var row := NewRow(ScheduleLine(1, due, 12, 0));
    assert NewRows([ScheduleLine(1, due, 12, 0)]) == [row];
    KnownKeyStillRepays(t, 0, 12, 7, row);
  }

  /** A reachable loan that is ACTIVE for ever with nothing left to pay. */
  lemma SharedKeyStrands()
    ensures AllTermsOk(Onboarded) && forall i :: 0 <= i < |SharedKeyAgain| ==> Admissible(SharedKeyAgain[i])
    ensures Stranded(Run(Onboarded, SharedKeyAgain), 0)
  {
    var t, due := AfterDisbursement();
    RepaymentStrands(t, due);
    RunSplit(Onboarded, SharedKey, Repay(0, 12, 7));
  }
}
