/** Repayment always finishes, and exactly which loans can be closed at all. */
module Closing {
  import opened Wrappers
  import opened Amortization
  import opened Calendar
  import opened Money
  import opened Reals
  import opened Tenant
  import opened Ledger
  import opened Repayment
  import opened Loans
  import opened Book

  /** Everything the runs with fresh keys keep. */
  ghost predicate Healthy(t: Tenant) {
    Sound(t) && Lockstep(t) && WaterfallOk(t)
  }

  ghost predicate HealthyRun(t: Tenant, steps: seq<Step>) {
    Healthy(t) && (forall i :: 0 <= i < |steps| ==> Admissible(steps[i])) && FreshRun(t, steps)
  }

  lemma OnboardedIsHealthy()
    ensures Healthy(Onboarded)
  {
    OnboardedIsSound();
  }

  lemma StepKeepsHealthy(t: Tenant, step: Step)
    requires Healthy(t) && Admissible(step) && Fresh(t, step)
    ensures Healthy(Next(t, step))
  {
    StepKeepsLockstep(t, step);
    StepKeepsWaterfall(t, step);
  }

  function Rows(t: Tenant, id: nat): seq<RepaymentLine>
    requires id in t.loans && t.loans[id].schedule.Some?
  {
    t.loans[id].schedule.value
  }

  ghost predicate HasSchedule(t: Tenant, id: nat) {
    id in t.loans && t.loans[id].schedule.Some?
  }

  // ------------------------------------------------------------ progress

  lemma RepaymentPosts(t: Tenant, id: nat, interest: int, principal: int, key: Key)
    requires Shape(t) && id in t.loans && key !in t.transactions && interest >= 0 && principal >= 0
    ensures Posted(t, RepaymentKind, key, RepaymentLines(id, interest, principal)).Ok?
  {
    RepaymentTotals(id, interest, principal, Debit);
    RepaymentTotals(id, interest, principal, Credit);
    RepaymentNames(id, interest, principal);
  }

  /** Any amount up to what the oldest pending line still owes is accepted under a new key. */
  lemma PaymentAccepted(t: Tenant, id: nat, amount: int, key: Key)
    requires Shape(t) && HasSchedule(t, id) && t.loans[id].status == Active && key !in t.transactions
    requires AllPayable(Rows(t, id)) && Waterfall(Rows(t, id)) && FirstPending(Rows(t, id)) < |Rows(t, id)|
    requires 0 < amount <= Remaining(Rows(t, id)[FirstPending(Rows(t, id))])
    ensures Repaid(t, id, amount, key).Ok?
  {
    var line := Rows(t, id)[FirstPending(Rows(t, id))];
    RepaymentPosts(t, id, InterestPortion(line, amount), amount - InterestPortion(line, amount), key);
  }

  /** An active loan with payable lines has a line waiting, and any amount up to what it still owes is accepted. */
  lemma ActiveLoanAccepts(t: Tenant, id: nat, amount: int, key: Key)
    requires Healthy(t) && HasSchedule(t, id) && t.loans[id].status == Active && AllPayable(Rows(t, id))
    requires key !in t.transactions
    ensures FirstPending(Rows(t, id)) < |Rows(t, id)| && Remaining(Rows(t, id)[FirstPending(Rows(t, id))]) > 0
    ensures 0 < amount <= Remaining(Rows(t, id)[FirstPending(Rows(t, id))]) ==> Repaid(t, id, amount, key).Ok?
  {
    assert Booked(t.loans[id], t.accounts[LoanAccount(id)].balance);
    if 0 < amount <= Remaining(Rows(t, id)[FirstPending(Rows(t, id))]) {
      PaymentAccepted(t, id, amount, key);
    }
  }

  /** Under a new key an accepted payment cannot have met negative interest: it would not have balanced. */
  lemma AcceptedInterest(t: Tenant, id: nat, amount: int, key: Key)
    requires id in t.loans && key !in t.transactions && amount > 0 && Repaid(t, id, amount, key).Ok?
    ensures InterestRemaining(Rows(t, id)[FirstPending(Rows(t, id))]) >= 0
  {
    var interest := InterestPortion(Rows(t, id)[FirstPending(Rows(t, id))], amount);
    RepaymentTotals(id, interest, amount - interest, Debit);
    RepaymentTotals(id, interest, amount - interest, Credit);
  }

  // ------------------------------------------------------------ what a run takes off a loan

  /** Total of the payments on the loan that the run accepts. */
  ghost function Accepted(t: Tenant, steps: seq<Step>, id: nat): int
    requires AllTermsOk(t) && forall i :: 0 <= i < |steps| ==> Admissible(steps[i])
    decreases |steps|
  {
    if steps == [] then 0
    else (if PaysLoan(t, steps[0], id) then steps[0].amount else 0)
         + Accepted(Next(t, steps[0]), steps[1..], id)
  }

  ghost predicate PaysLoan(t: Tenant, step: Step, id: nat)
    requires AllTermsOk(t) && Admissible(step)
  {
    step.Repay? && step.loan == id && Outcome(t, step).Ok?
  }

  lemma PaidRowsAfter(t: Tenant, step: Step, id: nat)
    requires AllTermsOk(t) && Admissible(step) && PaysLoan(t, step, id)
    ensures HasSchedule(t, id) && HasSchedule(Next(t, step), id)
    ensures FirstPending(Rows(t, id)) < |Rows(t, id)|
    ensures Rows(Next(t, step), id) == PayRows(Rows(t, id), step.amount)
  {
  }

  lemma DisbursedOnce(t: Tenant, step: Step, id: nat)
    requires Healthy(t) && Admissible(step) && HasSchedule(t, id) && step.Disburse? && step.loan == id
    ensures Next(t, step) == t
  {
    assert Booked(t.loans[id], t.accounts[LoanAccount(id)].balance);
  }

  lemma TransitionKeepsRows(t: Tenant, step: Step, id: nat)
    requires AllTermsOk(t) && Admissible(step) && HasSchedule(t, id) && (step.Submit? || step.Approve? || step.Reject?)
    ensures HasSchedule(Next(t, step), id) && Rows(Next(t, step), id) == Rows(t, id)
  {
  }

  /** Once disbursed, a loan's lines change only by its accepted repayments. */
  lemma RowsAfter(t: Tenant, step: Step, id: nat)
    requires Healthy(t) && Admissible(step) && HasSchedule(t, id)
    ensures HasSchedule(Next(t, step), id)
    ensures PaysLoan(t, step, id) ==>
              FirstPending(Rows(t, id)) < |Rows(t, id)| && Rows(Next(t, step), id) == PayRows(Rows(t, id), step.amount)
    ensures !PaysLoan(t, step, id) ==> Rows(Next(t, step), id) == Rows(t, id)
  {
    if PaysLoan(t, step, id) {
      PaidRowsAfter(t, step, id);
    } else if step.Submit? || step.Approve? || step.Reject? {
      TransitionKeepsRows(t, step, id);
    } else if step.Disburse? && step.loan == id {
      DisbursedOnce(t, step, id);
    } else if step.Repay? && step.loan == id {
      assert Next(t, step) == t;
    } else {
      OthersUntouched(t, step, id);
    }
  }

  /** The loan has the same lines as before, and owes that much less. */
  ghost predicate OwesLess(t: Tenant, after: Tenant, id: nat, paid: int) {
    && HasSchedule(t, id) && HasSchedule(after, id) && |Rows(after, id)| == |Rows(t, id)|
    && (AllPayable(Rows(after, id)) <==> AllPayable(Rows(t, id)))
    && TotalOwed(Rows(after, id)) == TotalOwed(Rows(t, id)) - paid
  }

  lemma StepReducesOwed(t: Tenant, step: Step, id: nat)
    requires Healthy(t) && Admissible(step) && HasSchedule(t, id)
    ensures OwesLess(t, Next(t, step), id, if PaysLoan(t, step, id) then step.amount else 0)
  {
    RowsAfter(t, step, id);
    if PaysLoan(t, step, id) {
      PayReduces(Rows(t, id), step.amount);
      SameDues(Rows(t, id), step.amount);
    }
  }

  lemma {:induction false} RunKeepsHealthy(t: Tenant, steps: seq<Step>)
    requires HealthyRun(t, steps)
    ensures Healthy(Run(t, steps))
    decreases |steps|
  {
    if steps == [] {
    } else {
      StepKeepsHealthy(t, steps[0]);
      RunKeepsHealthy(Next(t, steps[0]), steps[1..]);
    }
  }

  lemma HealthyRunGoesOn(t: Tenant, steps: seq<Step>)
    requires HealthyRun(t, steps) && steps != []
    ensures HealthyRun(Next(t, steps[0]), steps[1..])
  {
    StepKeepsHealthy(t, steps[0]);
  }

  lemma AcceptedFromFirst(t: Tenant, steps: seq<Step>, id: nat, first: int)
    requires AllTermsOk(t) && (forall i :: 0 <= i < |steps| ==> Admissible(steps[i])) && steps != []
    requires first == if PaysLoan(t, steps[0], id) then steps[0].amount else 0
    ensures Accepted(t, steps, id) == first + Accepted(Next(t, steps[0]), steps[1..], id)
    ensures Run(t, steps) == Run(Next(t, steps[0]), steps[1..])
  {
  }

  lemma OwesLessAndLess(t0: Tenant, t1: Tenant, t2: Tenant, id: nat, first: int, rest: int)
    requires OwesLess(t0, t1, id, first) && OwesLess(t1, t2, id, rest)
    ensures OwesLess(t0, t2, id, first + rest)
  {
  }

  /** Whatever else happens in between, a loan's remaining debt falls by exactly the accepted payments. */
  lemma {:induction false} RunReducesOwed(t: Tenant, steps: seq<Step>, id: nat)
    requires HealthyRun(t, steps) && HasSchedule(t, id)
    ensures OwesLess(t, Run(t, steps), id, Accepted(t, steps, id))
    decreases |steps|
  {
    if steps == [] {
    } else {
      var next := Next(t, steps[0]);
      var first := if PaysLoan(t, steps[0], id) then steps[0].amount else 0;
      HealthyRunGoesOn(t, steps);
      StepReducesOwed(t, steps[0], id);
      AcceptedFromFirst(t, steps, id, first);
      RunReducesOwed(next, steps[1..], id);
      OwesLessAndLess(t, next, Run(next, steps[1..]), id, first, Accepted(next, steps[1..], id));
    }
  }

  /** A loan with payable lines is closed exactly when the accepted payments add up to what it owed. */
  lemma ClosedExactlyWhenPaidUp(t: Tenant, steps: seq<Step>, id: nat)
    requires HealthyRun(t, steps) && HasSchedule(t, id) && AllPayable(Rows(t, id))
    ensures id in Run(t, steps).loans
    ensures Run(t, steps).loans[id].status == Closed <==> Accepted(t, steps, id) == TotalOwed(Rows(t, id))
    ensures Accepted(t, steps, id) <= TotalOwed(Rows(t, id))
  {
    RunReducesOwed(t, steps, id);
    RunKeepsHealthy(t, steps);
    var after := Run(t, steps);
    assert Booked(after.loans[id], after.accounts[LoanAccount(id)].balance);
    NothingOwedIff(Rows(after, id));
  }

  /** In particular, from disbursement on: principal plus all scheduled interest, to the cent. */
  lemma FreshLoanOwes(loan: Loan, start: Date)
    requires TermsOk(loan) && start.Valid()
    ensures TotalOwed(LoanSchedule(loan, start)) ==
            loan.principal +
            InterestTotal(Schedule(loan.principal, loan.product.rate, loan.term, loan.product.style, start))
  {
    ScheduleIsExact(loan.principal, loan.product.rate, loan.term, loan.product.style, start);
    NewRowsOwe(Schedule(loan.principal, loan.product.rate, loan.term, loan.product.style, start));
  }

  /** A FLAT loan owes the principal and, for each line, the rounded interest on all of it. */
  lemma FreshFlatLoanOwes(loan: Loan, start: Date)
    requires TermsOk(loan) && start.Valid() && loan.product.style == Flat
    ensures TotalOwed(LoanSchedule(loan, start)) ==
            loan.principal + loan.term * Round(Times(loan.principal as real, loan.product.rate))
  {
    FreshLoanOwes(loan, start);
    FlatInterestTotal(loan.principal, loan.product.rate, loan.term, start);
  }

  /** The rows of a new schedule: numbered from 1, a month apart, unpaid, with the parts of the schedule. */
  lemma FreshRows(loan: Loan, start: Date, k: nat)
    requires TermsOk(loan) && start.Valid() && k < loan.term
    ensures |LoanSchedule(loan, start)| == loan.term
    ensures
      var row := LoanSchedule(loan, start)[k];
      var line := Schedule(loan.principal, loan.product.rate, loan.term, loan.product.style, start)[k];
      && row.number == k + 1 && Unpaid(row) && row.due == line.due
      && row.due.MonthIndex() == start.MonthIndex() + k + 1
      && row.principalDue == line.principalDue && row.interestDue == line.interestDue
  {
    DueDatesIncrease(loan.principal, loan.product.rate, loan.term, loan.product.style, start, k, k);
  }

  // ------------------------------------------------------------ paying every line in full

  /** One payment per remaining line, each for the line's whole amount. */
  function FullPayments(id: nat, rows: seq<RepaymentLine>, keys: seq<Key>): (steps: seq<Step>)
    requires |keys| == |rows|
    ensures |steps| == |rows|
    decreases |rows|
  {
    if rows == [] then []
    else [FullPayment(id, rows[0], keys[0])] + FullPayments(id, rows[1..], keys[1..])
  }

  function InterestDue(rows: seq<RepaymentLine>): int
    decreases |rows|
  {
    if rows == [] then 0 else rows[0].interestDue + InterestDue(rows[1..])
  }

  predicate NewKeys(t: Tenant, keys: seq<Key>) {
    && (forall i :: 0 <= i < |keys| ==> keys[i] !in t.transactions)
    && (forall i, j :: 0 <= i < j < |keys| ==> keys[i] != keys[j])
  }

  /** The income account receives exactly the interest portion. */
  lemma RepayIncome(t: Tenant, id: nat, amount: int, key: Key)
    requires Shape(t) && id in t.loans && key !in t.transactions && amount > 0 && Repaid(t, id, amount, key).Ok?
    ensures
      var after := Repaid(t, id, amount, key).value;
      && InterestIncome in after.accounts
      && after.accounts[InterestIncome].balance ==
         t.accounts[InterestIncome].balance + InterestPortion(Rows(t, id)[FirstPending(Rows(t, id))], amount)
      && after.transactions.Keys == t.transactions.Keys + {key}
  {
    var interest := InterestPortion(Rows(t, id)[FirstPending(Rows(t, id))], amount);
    AcceptedInterest(t, id, amount, key);
    RepaymentNet(id, interest, amount - interest, InterestIncome, Credit);
  }

  lemma FullPaymentOfRow(rows: seq<RepaymentLine>, k: nat)
    requires AllPayable(rows) && Waterfall(rows) && k == FirstPending(rows) < |rows| && Unpaid(rows[k])
    ensures
      var amount := rows[k].principalDue + rows[k].interestDue;
      && 0 < amount == Remaining(rows[k]) && InterestPortion(rows[k], amount) == rows[k].interestDue
      && FirstPending(PayRows(rows, amount)) == k + 1 && AllPayable(PayRows(rows, amount))
      && PayRows(rows, amount)[k + 1..] == rows[k + 1..]
  {
    PayKeepsWaterfall(rows, rows[k].principalDue + rows[k].interestDue);
  }

  /** The first k lines of the loan are paid, the others untouched, and the loan is closed once all are paid. */
  ghost predicate PaidUpTo(t: Tenant, id: nat, k: nat) {
    && Sound(t) && HasSchedule(t, id) && AllPayable(Rows(t, id)) && Waterfall(Rows(t, id))
    && k == FirstPending(Rows(t, id)) && (forall i :: k <= i < |Rows(t, id)| ==> Unpaid(Rows(t, id)[i]))
    && t.loans[id].status == if k < |Rows(t, id)| then Active else Closed
  }

  function FullPayment(id: nat, row: RepaymentLine, key: Key): Step {
    Repay(id, row.principalDue + row.interestDue, key)
  }

  lemma FullPaymentAccepted(t: Tenant, id: nat, k: nat, key: Key)
    requires PaidUpTo(t, id, k) && k < |Rows(t, id)| && key !in t.transactions
    ensures
      var step := FullPayment(id, Rows(t, id)[k], key);
      Admissible(step) && Fresh(t, step) && Repaid(t, id, step.amount, key).Ok? && Outcome(t, step).Ok?
  {
    FullPaymentOfRow(Rows(t, id), k);
    PaymentAccepted(t, id, Rows(t, id)[k].principalDue + Rows(t, id)[k].interestDue, key);
  }

  /** What one full payment does: the next line is paid, the others are as before. */
  lemma FullPaymentStep(t: Tenant, id: nat, k: nat, key: Key, after: Tenant)
    requires PaidUpTo(t, id, k) && k < |Rows(t, id)| && key !in t.transactions
    requires
      var step := FullPayment(id, Rows(t, id)[k], key);
      Admissible(step) && Outcome(t, step).Ok? && after == Next(t, step)
    ensures PaidUpTo(after, id, k + 1) && |Rows(after, id)| == |Rows(t, id)|
    ensures Rows(after, id)[k + 1..] == Rows(t, id)[k + 1..]
    ensures after.accounts[InterestIncome].balance == t.accounts[InterestIncome].balance + Rows(t, id)[k].interestDue
    ensures after.transactions.Keys == t.transactions.Keys + {key}
  {
    var rows := Rows(t, id);
    var amount := rows[k].principalDue + rows[k].interestDue;
    FullPaymentOfRow(rows, k);
    assert Rows(after, id) == PayRows(rows, amount);
    UnpaidTail(rows, Rows(after, id), k + 1);
    PayKeepsWaterfall(rows, amount);
    StepKeepsSound(t, FullPayment(id, rows[k], key));
    RepayIncome(t, id, amount, key);
  }

  lemma UnpaidTail(rows: seq<RepaymentLine>, after: seq<RepaymentLine>, k: nat)
    requires k <= |rows| == |after| && after[k..] == rows[k..]
    requires forall i :: k <= i < |rows| ==> Unpaid(rows[i])
    ensures forall i :: k <= i < |after| ==> Unpaid(after[i])
  {
    forall i | k <= i < |after| ensures Unpaid(after[i]) {
      assert after[i] == after[k..][i - k] == rows[k..][i - k] == rows[i];
    }
  }

  /** The run closes the loan. */
  ghost predicate Closes(t: Tenant, steps: seq<Step>, id: nat)
    requires AllTermsOk(t)
  {
    && (forall i :: 0 <= i < |steps| ==> Admissible(steps[i]))
    && id in Run(t, steps).loans && Run(t, steps).loans[id].status == Closed
  }

  /** The run closes the loan under new keys and brings in the given interest. */
  ghost predicate ClosesWith(t: Tenant, id: nat, steps: seq<Step>, interest: int)
    requires AllTermsOk(t)
  {
    && Closes(t, steps, id) && FreshRun(t, steps)
    && InterestIncome in t.accounts && InterestIncome in Run(t, steps).accounts
    && Run(t, steps).accounts[InterestIncome].balance == t.accounts[InterestIncome].balance + interest
  }

  lemma ClosesFromFirst(t: Tenant, id: nat, step: Step, rest: seq<Step>, interest: int)
    requires AllTermsOk(t) && Admissible(step) && Fresh(t, step) && InterestIncome in t.accounts
    requires ClosesWith(Next(t, step), id, rest, interest)
    ensures
      ClosesWith(t, id, [step] + rest,
                 interest + Next(t, step).accounts[InterestIncome].balance - t.accounts[InterestIncome].balance)
  {
    assert ([step] + rest)[1..] == rest;
  }

  lemma NothingLeftCloses(t: Tenant, id: nat, k: nat)
    requires PaidUpTo(t, id, k) && k == |Rows(t, id)|
    ensures ClosesWith(t, id, [], 0)
  {
    assert Run(t, []) == t;
  }

  lemma FullPaymentsFrom(id: nat, rows: seq<RepaymentLine>, k: nat, keys: seq<Key>)
    requires k < |rows| && |keys| == |rows| - k
    ensures FullPayments(id, rows[k..], keys) ==
            [FullPayment(id, rows[k], keys[0])] + FullPayments(id, rows[k + 1..], keys[1..])
    ensures InterestDue(rows[k..]) == rows[k].interestDue + InterestDue(rows[k + 1..])
  {
    assert rows[k..][1..] == rows[k + 1..];
  }

  lemma NewKeysTail(t: Tenant, after: Tenant, keys: seq<Key>)
    requires keys != [] && NewKeys(t, keys) && after.transactions.Keys == t.transactions.Keys + {keys[0]}
    ensures NewKeys(after, keys[1..])
  {
  }

  lemma {:induction false} PayRemainingInFull(t: Tenant, id: nat, k: nat, keys: seq<Key>)
    requires PaidUpTo(t, id, k) && NewKeys(t, keys) && |keys| == |Rows(t, id)| - k
    ensures ClosesWith(t, id, FullPayments(id, Rows(t, id)[k..], keys), InterestDue(Rows(t, id)[k..]))
    decreases |keys|
  {
    var rows := Rows(t, id);
    if k == |rows| {
      NothingLeftCloses(t, id, k);
    } else {
      var step := FullPayment(id, rows[k], keys[0]);
      FullPaymentAccepted(t, id, k, keys[0]);
      var after := Next(t, step);
      FullPaymentStep(t, id, k, keys[0], after);
      NewKeysTail(t, after, keys);
      FullPaymentsFrom(id, rows, k, keys);
      PayRemainingInFull(after, id, k + 1, keys[1..]);
      ClosesFromFirst(t, id, step, FullPayments(id, rows[k + 1..], keys[1..]), InterestDue(rows[k + 1..]));
    }
  }

  /** Paying each line in full closes the loan in exactly one payment per line, and all the interest is income. */
  lemma FullPaymentsClose(t: Tenant, id: nat, keys: seq<Key>)
    requires Sound(t) && HasSchedule(t, id) && t.loans[id].status == Active && AllPayable(Rows(t, id))
    requires NewKeys(t, keys) && 0 < |keys| == |Rows(t, id)| && forall i :: 0 <= i < |keys| ==> Unpaid(Rows(t, id)[i])
    ensures |FullPayments(id, Rows(t, id), keys)| == |Rows(t, id)|
    ensures ClosesWith(t, id, FullPayments(id, Rows(t, id), keys), InterestDue(Rows(t, id)))
  {
    FirstPendingIs(Rows(t, id), 0);
    assert Rows(t, id)[0..] == Rows(t, id);
    PayRemainingInFull(t, id, 0, keys);
  }

  // ------------------------------------------------------------ loans that can never be closed

  /** The loan is ACTIVE and line i can never be settled, under a new key or a known one. */
  predicate ActiveStuck(t: Tenant, id: nat, i: nat) {
    && id in t.loans && t.loans[id].status == Active && t.loans[id].schedule.Some?
    && i < |t.loans[id].schedule.value| && StuckFast(t.loans[id].schedule.value[i])
  }

  lemma PaymentKeepsStuck(t: Tenant, id: nat, amount: int, key: Key, i: nat)
    requires ActiveStuck(t, id, i) && amount > 0 && Repaid(t, id, amount, key).Ok?
    ensures ActiveStuck(Repaid(t, id, amount, key).value, id, i)
  {
    var rows := Rows(t, id);
    var paid := PayRows(rows, amount);
    if FirstPending(rows) == i {
      StuckStaysStuck(rows[i], amount);
    }
    assert StuckFast(paid[i]);
    assert FirstPending(paid) <= i;
  }

  /** Whatever runs, on this loan or any other, under new keys or known ones, the loan stays ACTIVE. */
  lemma {:induction false} StuckLoanNeverCloses(t: Tenant, steps: seq<Step>, id: nat, i: nat)
    requires AllTermsOk(t) && (forall i :: 0 <= i < |steps| ==> Admissible(steps[i])) && ActiveStuck(t, id, i)
    ensures ActiveStuck(Run(t, steps), id, i) && !Closes(t, steps, id)
    decreases |steps|
  {
    if steps == [] {
    } else {
      ActiveLoanAfter(t, steps[0], id);
      if PaysLoan(t, steps[0], id) {
        PaymentKeepsStuck(t, id, steps[0].amount, steps[0].key, i);
      }
      StuckLoanNeverCloses(Next(t, steps[0]), steps[1..], id, i);
    }
  }

  /** A schedule of either method with a line that is not payable has one that can never be settled: where the
      interest is negative, so is the line's total. */
  lemma UnpayableScheduleIsStuck(loan: Loan, start: Date) returns (i: nat)
    requires TermsOk(loan) && start.Valid() && !AllPayable(LoanSchedule(loan, start))
    ensures i < |LoanSchedule(loan, start)| && StuckFast(LoanSchedule(loan, start)[i])
  {
    var rows := LoanSchedule(loan, start);
    var lines := Schedule(loan.principal, loan.product.rate, loan.term, loan.product.style, start);
    assert forall k :: 0 <= k < |rows| ==> rows[k] == NewRow(lines[k]);
    if loan.product.style == Flat {
      ChargedFromHalfACent(loan.principal, loan.product.rate);
      i :| 0 <= i < |rows| && !Payable(rows[i].principalDue, rows[i].interestDue);
    } else {
      i := WorthlessLine(loan.principal, loan.product.rate, loan.term, start);
    }
  }

  /** n keys nobody has used. */
  lemma SomeNewKeys(t: Tenant, n: nat) returns (keys: seq<Key>)
    ensures |keys| == n && NewKeys(t, keys)
  {
    var bound := KeyBound(t.transactions.Keys);
    keys := seq(n, i => bound + i);
  }

  lemma {:induction false} KeyBound(used: set<Key>) returns (bound: Key)
    ensures forall k :: k in used ==> k < bound
  {
    if used == {} {
      bound := 0;
    } else {
      var k :| k in used;
      var lower := KeyBound(used - {k});
      bound := if lower > k then lower else k + 1;
      assert forall j :: j in used ==> j == k || j in used - {k};
    }
  }

  /** A just disbursed loan can be closed by some run exactly when each of its lines is payable:
      no negative part, and something to pay. The schedule alone decides, and no reuse of keys changes it. */
  lemma LoanClosableIff(t: Tenant, id: nat, start: Date)
    requires Sound(t) && start.Valid() && HasSchedule(t, id) && t.loans[id].status == Active
    requires Rows(t, id) == LoanSchedule(t.loans[id], start)
    ensures (exists steps :: Closes(t, steps, id)) <==> AllPayable(Rows(t, id))
  {
    var rows := Rows(t, id);
    if AllPayable(rows) {
      var keys := SomeNewKeys(t, |rows|);
      FullPaymentsClose(t, id, keys);
      assert Closes(t, FullPayments(id, rows, keys), id);
    } else {
      var i := UnpayableScheduleIsStuck(t.loans[id], start);
      forall steps ensures !Closes(t, steps, id) {
        if forall i :: 0 <= i < |steps| ==> Admissible(steps[i]) {
          StuckLoanNeverCloses(t, steps, id, i);
        }
      }
    }
  }
}
