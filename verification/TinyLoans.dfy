/** A loan too small for its term: applied for, approved and disbursed like any other, and never closed. */
module TinyLoans {
  import opened Wrappers
  import opened Reals
  import opened Amortization
  import opened Calendar
  import opened Tenant
  import opened Repayment
  import opened Loans
  import opened Book
  import opened Closing
  import opened Replays

  const PocketLoan := LoanProduct(Flat, 0.0, 1, 100, 1, 12)

  /** One cent without interest over two months. */
  const OneCent: seq<Step> := Approval(0, PocketLoan, 1, 2) + [Disburse(0, 3, Date(2024, 1, 31))]

  /** The whole cent falls due in the first month, nothing in the second. */
  lemma OneCentSchedule(start: Date)
    requires start.Valid()
    ensures
      var lines := Schedule(1, 0.0, 2, Flat, start);
      lines[1].principalDue == 0 && lines[1].interestDue == 0 && !AllLinesPayable(lines)
  {
    FlatSliceInCents(1, 2);
    InterestWithoutRate(1);
  }

  lemma FreshKeyDisburses(t: Tenant, id: nat, key: Key, start: Date)
    requires Shape(t) && start.Valid() && id in t.loans && TermsOk(t.loans[id]) && t.loans[id].status == Approved
    requires key !in t.transactions
    ensures Disbursed(t, id, key, start).Ok?
    ensures
      var after := Disbursed(t, id, key, start).value;
      id in after.loans && after.loans[id].schedule == Some(LoanSchedule(t.loans[id], start))
  {
    var lines := DisbursementLines(id, t.loans[id].principal);
    TotalOfTwo(lines[0], lines[1], Debit);
    TotalOfTwo(lines[0], lines[1], Credit);
  }

  lemma DisbursingOneCent(t: Tenant, start: Date)
    requires Sound(t) && start.Valid() && 3 !in t.transactions
    requires t.loans == map[0 := Loan(PocketLoan, 1, 2, Approved, None, Some(1))]
    ensures ActiveStuck(Next(t, Disburse(0, 3, start)), 0, 1)
  {
    FreshKeyDisburses(t, 0, 3, start);
    OneCentSchedule(start);
  }

  /** Whatever run made the loan the tenant's only one, and approved. */
  lemma NeverClosesAfter(t: Tenant, first: seq<Step>, start: Date, later: seq<Step>)
    requires Sound(t) && start.Valid() && forall i :: 0 <= i < |first| ==> Admissible(first[i])
    requires Run(t, first).loans == map[0 := Loan(PocketLoan, 1, 2, Approved, None, Some(1))]
    requires 3 !in Run(t, first).transactions && forall i :: 0 <= i < |later| ==> Admissible(later[i])
    ensures
      var steps := first + [Disburse(0, 3, start)] + later;
      (forall i :: 0 <= i < |steps| ==> Admissible(steps[i])) && ActiveStuck(Run(t, steps), 0, 1)
  {
    var run := first + [Disburse(0, 3, start)];
    RunKeepsSound(t, first);
    RunSplit(t, first, Disburse(0, 3, start));
    DisbursingOneCent(Run(t, first), start);
    StuckLoanNeverCloses(Run(t, run), later, 0, 1);
    RunAppend(t, run, later);
  }

  /** Whatever is done afterwards, under new keys or known ones, the loan of one cent is ACTIVE for ever. */
  lemma OneCentNeverCloses(later: seq<Step>)
    requires forall i :: 0 <= i < |later| ==> Admissible(later[i])
    ensures AllTermsOk(Onboarded) && forall i :: 0 <= i < |OneCent + later| ==> Admissible((OneCent + later)[i])
    ensures
      var after := Run(Onboarded, OneCent + later);
      0 in after.loans && after.loans[0].status == Active
  {
    var approved := OnlyLoanApproved(Onboarded, 0, PocketLoan, 1, 2);
    OnboardedIsSound();
    NeverClosesAfter(Onboarded, Approval(0, PocketLoan, 1, 2), Date(2024, 1, 31), later);
  }

  /** Principal, rate and term leave every line of a FLAT schedule something to pay, and none a negative part. */
  predicate FlatTermsPayable(loan: Loan)
    requires loan.term >= 1
  {
    var slice := (2 * loan.principal + loan.term) / (2 * loan.term);
    var last := loan.principal - (loan.term - 1) * slice;
    last >= 0
    && (Times(loan.principal as real, loan.product.rate) >= 0.5 || (last > 0 && (loan.term == 1 || slice > 0)))
  }

  lemma FlatRowsPayableIff(loan: Loan, start: Date)
    requires TermsOk(loan) && start.Valid() && loan.product.style == Flat
    ensures AllPayable(LoanSchedule(loan, start)) <==> FlatTermsPayable(loan)
  {
    var lines := Schedule(loan.principal, loan.product.rate, loan.term, Flat, start);
    FlatIsPayableIff(loan.principal, loan.product.rate, loan.term, start);
    var rows := NewRows(lines);
    assert forall k :: 0 <= k < |lines| ==> rows[k] == NewRow(lines[k]);
  }

  /** A just disbursed FLAT loan can be closed by some run exactly when its terms are payable. */
  lemma FlatLoanClosableIff(t: Tenant, id: nat, start: Date)
    requires Sound(t) && start.Valid() && HasSchedule(t, id) && t.loans[id].status == Active
    requires Rows(t, id) == LoanSchedule(t.loans[id], start) && t.loans[id].product.style == Flat
    ensures (exists steps :: Closes(t, steps, id)) <==> FlatTermsPayable(t.loans[id])
  {
    FlatRowsPayableIff(t.loans[id], start);
    LoanClosableIff(t, id, start);
  }
}
