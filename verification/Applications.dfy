/** A loan's way from application to closing: what its row says about the decisions taken on it. */
module Applications {
  import opened Wrappers
  import opened Tenant
  import opened Loans
  import opened Book

  /** The statuses a loan has only after a staff member has decided. */
  predicate IsDecided(status: LoanStatus) {
    status == Approved || status == Rejected || status == Active || status == Closed
  }

  /** Within the product's bounds, decided by somebody exactly if it is decided, with a schedule exactly if the money
      was paid out. */
  predicate InOrder(loan: Loan) {
    && loan.product.minPrincipal <= loan.principal <= loan.product.maxPrincipal
    && loan.product.minTerm <= loan.term <= loan.product.maxTerm
    && loan.status != Defaulted
    && (loan.decidedBy.Some? <==> IsDecided(loan.status))
    && (loan.schedule.Some? <==> loan.status == Active || loan.status == Closed)
  }

  ghost predicate AllInOrder(t: Tenant) {
    forall id :: id in t.loans ==> InOrder(t.loans[id])
  }

  /** The ways on from a status, and the step that takes each. */
  predicate WayOn(from: LoanStatus, step: Step, to: LoanStatus) {
    match step
    case Submit(_) => from == Draft && to == PendingApproval
    case Approve(_, _) => from == PendingApproval && to == Approved
    case Reject(_, _) => from == PendingApproval && to == Rejected
    case Disburse(_, _, _) => from == Approved && to == Active
    case Repay(_, _, _) => from == Active && (to == Active || to == Closed)
    case _ => false
  }

  lemma SavingsLeaveLoans(t: Tenant, step: Step)
    requires AllTermsOk(t) && Admissible(step) && (step.OpenSavings? || step.Deposit? || step.Withdraw?)
    ensures Next(t, step).loans == t.loans
  {
  }

  /** A loan row appears as a DRAFT, and its status changes only along these ways, by steps on that very loan; its
      terms never change, and the decision is that of the staff member who took it. */
  lemma LoanGoesItsWay(t: Tenant, step: Step, id: nat)
    requires AllTermsOk(t) && Admissible(step) && id in Next(t, step).loans
    ensures
      var after := Next(t, step).loans[id];
      if id !in t.loans then
        && step.Create? && step.loan == id && after == Loan(step.product, step.principal, step.term, Draft, None, None)
        && InOrder(after)
      else
        var before := t.loans[id];
        && after.product == before.product && after.principal == before.principal && after.term == before.term
        && (after != before ==>
              && !step.OpenSavings? && !step.Deposit? && !step.Withdraw? && !step.Create? && step.loan == id
              && WayOn(before.status, step, after.status)
              && (after.schedule != before.schedule ==> after.schedule.Some? && (step.Disburse? || step.Repay?))
              && (step.Disburse? ==> after.schedule.Some?)
              && after.decidedBy ==
                 if step.Submit? then None else if step.Approve? || step.Reject? then Some(step.staff)
                 else before.decidedBy)
  {
    if step.OpenSavings? || step.Deposit? || step.Withdraw? {
      SavingsLeaveLoans(t, step);
    }
  }

  lemma StepKeepsOrder(t: Tenant, step: Step)
    requires AllTermsOk(t) && Admissible(step) && AllInOrder(t)
    ensures AllInOrder(Next(t, step))
  {
    forall id | id in Next(t, step).loans ensures InOrder(Next(t, step).loans[id]) {
      LoanGoesItsWay(t, step, id);
    }
  }

  lemma {:induction false} RunKeepsOrder(t: Tenant, steps: seq<Step>)
    requires AllTermsOk(t) && AllInOrder(t) && forall i :: 0 <= i < |steps| ==> Admissible(steps[i])
    ensures AllInOrder(Run(t, steps))
    decreases |steps|
  {
    if steps == [] {
    } else {
      StepKeepsOrder(t, steps[0]);
      RunKeepsOrder(Next(t, steps[0]), steps[1..]);
    }
  }

  /** In every run from onboarding, whatever keys are used: no loan outside its product's bounds, and none paid out
      that no staff member has approved. */
  lemma NobodyPaysOutUndecided(steps: seq<Step>, id: nat)
    requires forall i :: 0 <= i < |steps| ==> Admissible(steps[i])
    ensures AllTermsOk(Onboarded)
    ensures id in Run(Onboarded, steps).loans ==> InOrder(Run(Onboarded, steps).loans[id])
  {
    RunKeepsOrder(Onboarded, steps);
  }
}
