/** What each operation does to the accounts, told without its ledger lines: who gains, who loses, and how much. */
module Postings {
  import opened Wrappers
  import opened Calendar
  import opened Tenant
  import opened Ledger
  import opened SavingsAccounts
  import opened Repayment
  import opened Loans
  import opened Book

  function BalanceOf(t: Tenant, a: AccountRef): int {
    if a in t.accounts then t.accounts[a].balance else 0
  }

  /** The accounts gain what the map says, counted on their own side, and nothing else moves; one transaction of
      that kind and amount is written. */
  ghost predicate Moves(t: Tenant, after: Tenant, gains: map<AccountRef, int>, kind: Kind, key: Key, amount: int) {
    && after.accounts.Keys == t.accounts.Keys && gains.Keys <= t.accounts.Keys
    && (forall a :: a in t.accounts ==> after.accounts[a].normalSide == t.accounts[a].normalSide)
    && (forall a :: a in gains ==> after.accounts[a].balance == t.accounts[a].balance + gains[a])
    && (forall a :: a in t.accounts && a !in gains ==> after.accounts[a].balance == t.accounts[a].balance)
    && key !in t.transactions && after.transactions == t.transactions[key := Transaction(kind, amount)]
    && after.savings == t.savings
  }

  /** A posting whose lines come to those gains; loan rows do not matter. */
  lemma PostingMoves(t: Tenant, kind: Kind, key: Key, lines: seq<LedgerLine>, gains: map<AccountRef, int>, amount: int,
                     after: Tenant)
    requires key !in t.transactions && Posted(t, kind, key, lines).Ok? && gains.Keys <= t.accounts.Keys
    requires after == Posted(t, kind, key, lines).value.(loans := after.loans)
    requires Total(lines, Debit) == amount
    requires forall a :: a in t.accounts ==>
               Net(lines, a, t.accounts[a].normalSide) == if a in gains then gains[a] else 0
    ensures Moves(t, after, gains, kind, key, amount)
  {
  }

  // ------------------------------------------------------------ savings

  /** A deposit is accepted exactly for an active account, whatever its key. */
  lemma DepositAcceptedIff(t: Tenant, id: nat, amount: int, key: Key)
    requires Shape(t)
    ensures Deposited(t, id, amount, key).Ok? <==> id in t.savings && t.savings[id] == SavingsActive
    ensures Deposited(t, id, amount, key) == Err(SavingsAccountNotFound) <==> id !in t.savings
    ensures Deposited(t, id, amount, key) == Err(AccountNotActive) <==>
              id in t.savings && t.savings[id] != SavingsActive
  {
    TotalOfTwo(DepositLines(id, amount)[0], DepositLines(id, amount)[1], Debit);
    TotalOfTwo(DepositLines(id, amount)[0], DepositLines(id, amount)[1], Credit);
  }

  /** Under a new key the account and the till gain the amount; a known key changes nothing. */
  lemma DepositMoves(t: Tenant, id: nat, amount: int, key: Key)
    requires Shape(t) && Deposited(t, id, amount, key).Ok?
    ensures
      var after := Deposited(t, id, amount, key).value;
      if key in t.transactions then after == t
      else
        && Moves(t, after, map[Savings(id) := amount, Cash := amount], DepositKind, key, amount)
        && after.loans == t.loans
  {
    if key !in t.transactions {
      var lines, gains := DepositLines(id, amount), map[Savings(id) := amount, Cash := amount];
      TotalOfTwo(lines[0], lines[1], Debit);
      forall a | a in t.accounts
        ensures Net(lines, a, t.accounts[a].normalSide) == if a in gains then gains[a] else 0
      {
        NetOfTwo(lines[0], lines[1], a, t.accounts[a].normalSide);
      }
      PostingMoves(t, DepositKind, key, lines, gains, amount, Deposited(t, id, amount, key).value);
    }
  }

  /** A withdrawal is accepted exactly for an active account that holds the amount. */
  lemma WithdrawalAcceptedIff(t: Tenant, id: nat, amount: int, key: Key)
    requires Shape(t)
    ensures Withdrawn(t, id, amount, key).Ok? <==>
              id in t.savings && t.savings[id] == SavingsActive && BalanceOf(t, Savings(id)) >= amount
    ensures Withdrawn(t, id, amount, key) == Err(SavingsAccountNotFound) <==> id !in t.savings
    ensures Withdrawn(t, id, amount, key) == Err(AccountNotActive) <==>
              id in t.savings && t.savings[id] != SavingsActive
    ensures Withdrawn(t, id, amount, key) == Err(InsufficientFunds) <==>
              id in t.savings && t.savings[id] == SavingsActive && BalanceOf(t, Savings(id)) < amount
  {
    TotalOfTwo(WithdrawalLines(id, amount)[0], WithdrawalLines(id, amount)[1], Debit);
    TotalOfTwo(WithdrawalLines(id, amount)[0], WithdrawalLines(id, amount)[1], Credit);
  }

  /** Under a new key the account and the till lose the amount. */
  lemma WithdrawalMoves(t: Tenant, id: nat, amount: int, key: Key)
    requires Shape(t) && Withdrawn(t, id, amount, key).Ok?
    ensures
      var after := Withdrawn(t, id, amount, key).value;
      if key in t.transactions then after == t
      else
        && Moves(t, after, map[Savings(id) := -amount, Cash := -amount], WithdrawalKind, key, amount)
        && after.loans == t.loans
  {
    if key !in t.transactions {
      var lines, gains := WithdrawalLines(id, amount), map[Savings(id) := -amount, Cash := -amount];
      TotalOfTwo(lines[0], lines[1], Debit);
      forall a | a in t.accounts
        ensures Net(lines, a, t.accounts[a].normalSide) == if a in gains then gains[a] else 0
      {
        NetOfTwo(lines[0], lines[1], a, t.accounts[a].normalSide);
      }
      PostingMoves(t, WithdrawalKind, key, lines, gains, amount, Withdrawn(t, id, amount, key).value);
    }
  }

  /** An account is opened exactly for a verified customer, under a new id, with at least the minimum, and with a key
      if there is anything to deposit. */
  lemma OpeningAcceptedIff(t: Tenant, id: nat, verified: bool, minOpening: int, opening: int, key: Option<Key>)
    requires Shape(t)
    ensures Opened(t, id, verified, minOpening, opening, key).Ok? <==>
              verified && opening >= minOpening && id !in t.savings && (opening > 0 ==> key.Some?)
    ensures Opened(t, id, verified, minOpening, opening, key) == Err(CustomerNotVerified) <==> !verified
    ensures Opened(t, id, verified, minOpening, opening, key) == Err(BelowMinimumOpeningBalance) <==>
              verified && opening < minOpening
    ensures Opened(t, id, verified, minOpening, opening, key) == Err(MissingIdempotencyKey) <==>
              verified && opening >= minOpening && id !in t.savings && opening > 0 && key.None?
  {
    assert Savings(id) in t.accounts ==> HasRow(t, Savings(id));
    if id !in t.savings && opening > 0 && key.Some? {
      TotalOfTwo(DepositLines(id, opening)[0], DepositLines(id, opening)[1], Debit);
      TotalOfTwo(DepositLines(id, opening)[0], DepositLines(id, opening)[1], Credit);
    }
  }

  /** The new account stands empty, and then the opening deposit moves like any other. */
  lemma OpeningMoves(t: Tenant, id: nat, verified: bool, minOpening: int, opening: int, key: Option<Key>)
    requires Sound(t) && Opened(t, id, verified, minOpening, opening, key).Ok?
    ensures Savings(id) !in t.accounts
    ensures
      var after := Opened(t, id, verified, minOpening, opening, key).value;
      var empty := t.(savings := t.savings[id := SavingsActive],
                      accounts := t.accounts[Savings(id) := Account(Credit, 0)]);
      if opening <= 0 || key.value in t.transactions then after == empty
      else
        && Moves(empty, after, map[Savings(id) := opening, Cash := opening], DepositKind, key.value, opening)
        && after.loans == t.loans
  {
    NewSavingsKeepSound(t, id);
    if opening > 0 {
      DepositMoves(NewSavings(t, id), id, opening, key.value);
    }
  }

  // ------------------------------------------------------------ loans

  /** An application is accepted exactly within the product's bounds, for a verified customer, under a new id. */
  lemma CreationAcceptedIff(t: Tenant, id: nat, verified: bool, product: LoanProduct, principal: int, term: nat)
    requires Shape(t)
    ensures Created(t, id, verified, product, principal, term).Ok? <==>
              && verified && id !in t.loans
              && product.minPrincipal <= principal <= product.maxPrincipal && product.minTerm <= term <= product.maxTerm
    ensures Created(t, id, verified, product, principal, term) == Err(CustomerNotVerified) <==> !verified
    ensures Created(t, id, verified, product, principal, term) == Err(InvalidLoanAmount) <==>
              verified && !(product.minPrincipal <= principal <= product.maxPrincipal)
    ensures Created(t, id, verified, product, principal, term) == Err(InvalidLoanTerm) <==>
              verified && product.minPrincipal <= principal <= product.maxPrincipal
              && !(product.minTerm <= term <= product.maxTerm)
  {
    assert LoanAccount(id) in t.accounts ==> HasRow(t, LoanAccount(id));
  }

  /** A loan is disbursed exactly when it is approved. */
  lemma DisbursementAcceptedIff(t: Tenant, id: nat, key: Key, start: Date)
    requires Shape(t) && start.Valid() && (id in t.loans ==> TermsOk(t.loans[id]))
    ensures Disbursed(t, id, key, start).Ok? <==> id in t.loans && t.loans[id].status == Approved
    ensures Disbursed(t, id, key, start) == Err(LoanNotFound) <==> id !in t.loans
    ensures Disbursed(t, id, key, start) == Err(InvalidLoanState) <==> id in t.loans && t.loans[id].status != Approved
  {
    if id in t.loans {
      var lines := DisbursementLines(id, t.loans[id].principal);
      TotalOfTwo(lines[0], lines[1], Debit);
      TotalOfTwo(lines[0], lines[1], Credit);
    }
  }

  /** Under a new key the principal moves from the till to the loan's account; the loan row becomes ACTIVE with its
      schedule either way. */
  lemma DisbursementMoves(t: Tenant, id: nat, key: Key, start: Date)
    requires Shape(t) && start.Valid() && (id in t.loans ==> TermsOk(t.loans[id])) && Disbursed(t, id, key, start).Ok?
    ensures id in t.loans
    ensures
      var after, loan := Disbursed(t, id, key, start).value, t.loans[id];
      && after.loans == t.loans[id := loan.(status := Active, schedule := Some(LoanSchedule(loan, start)))]
      && if key in t.transactions then after == t.(loans := after.loans)
         else Moves(t, after, map[LoanAccount(id) := loan.principal, Cash := -loan.principal],
                    DisbursementKind, key, loan.principal)
  {
    if key !in t.transactions {
      var amount := t.loans[id].principal;
      var lines, gains := DisbursementLines(id, amount), map[LoanAccount(id) := amount, Cash := -amount];
      TotalOfTwo(lines[0], lines[1], Debit);
      forall a | a in t.accounts
        ensures Net(lines, a, t.accounts[a].normalSide) == if a in gains then gains[a] else 0
      {
        NetOfTwo(lines[0], lines[1], a, t.accounts[a].normalSide);
      }
      PostingMoves(t, DisbursementKind, key, lines, gains, amount, Disbursed(t, id, key, start).value);
    }
  }

  /** The oldest line that is not PAID. */
  predicate IsOldestPending(rows: seq<RepaymentLine>, k: nat) {
    k < |rows| && rows[k].status == Pending && forall i :: 0 <= i < k ==> rows[i].status == Paid
  }

  /** The two parts balance exactly when neither is negative. */
  lemma RepaymentPostsIff(t: Tenant, id: nat, interest: int, principal: int, key: Key)
    requires Shape(t) && id in t.loans && key !in t.transactions && principal >= 0
    ensures Posted(t, RepaymentKind, key, RepaymentLines(id, interest, principal)).Ok? <==> interest >= 0
  {
    RepaymentTotals(id, interest, principal, Debit);
    RepaymentTotals(id, interest, principal, Credit);
    RepaymentNames(id, interest, principal);
  }

  lemma OnlyOneOldest(rows: seq<RepaymentLine>)
    ensures forall k: nat :: IsOldestPending(rows, k) <==> k == FirstPending(rows) < |rows|
  {
    forall k: nat | IsOldestPending(rows, k) ensures FirstPending(rows) == k {
      FirstPendingIs(rows, k);
    }
  }

  /** A positive payment under a new key is accepted exactly when an ACTIVE loan has a pending line, the payment is no
      more than what the oldest one lacks, and that line's interest is not overpaid. */
  lemma RepaymentAcceptedIff(t: Tenant, id: nat, amount: int, key: Key)
    requires Shape(t) && amount > 0 && key !in t.transactions
    ensures
      Repaid(t, id, amount, key).Ok? <==>
      && id in t.loans && t.loans[id].status == Active && t.loans[id].schedule.Some?
      && var rows := t.loans[id].schedule.value;
         exists k: nat :: IsOldestPending(rows, k)
           && amount <= rows[k].principalDue - rows[k].principalPaid + rows[k].interestDue - rows[k].interestPaid
           && rows[k].interestPaid <= rows[k].interestDue
    ensures Repaid(t, id, amount, key) == Err(LoanNotFound) <==> id !in t.loans
    ensures
      Repaid(t, id, amount, key) == Err(Overpayment) <==>
      && id in t.loans && t.loans[id].status == Active && t.loans[id].schedule.Some?
      && var rows := t.loans[id].schedule.value;
         exists k: nat :: IsOldestPending(rows, k)
           && amount > rows[k].principalDue - rows[k].principalPaid + rows[k].interestDue - rows[k].interestPaid
  {
    if id in t.loans && t.loans[id].schedule.Some? {
      var rows := t.loans[id].schedule.value;
      OnlyOneOldest(rows);
      if FirstPending(rows) < |rows| {
        var interest := InterestPortion(rows[FirstPending(rows)], amount);
        RepaymentPostsIff(t, id, interest, amount - interest, key);
      }
    }
  }

  /** The payment, told by its two parts. */
  lemma RepaymentPostingMoves(t: Tenant, id: nat, interest: int, principal: int, key: Key, after: Tenant)
    requires Shape(t) && id in t.loans && key !in t.transactions && principal >= 0
    requires
      var posted := Posted(t, RepaymentKind, key, RepaymentLines(id, interest, principal));
      posted.Ok? && after == posted.value.(loans := after.loans)
    ensures interest >= 0
    ensures Moves(t, after,
                  map[Cash := interest + principal, InterestIncome := interest, LoanAccount(id) := -principal],
                  RepaymentKind, key, interest + principal)
  {
    var lines := RepaymentLines(id, interest, principal);
    var gains := map[Cash := interest + principal, InterestIncome := interest, LoanAccount(id) := -principal];
    RepaymentPostsIff(t, id, interest, principal, key);
    RepaymentTotals(id, interest, principal, Debit);
    forall a | a in t.accounts
      ensures Net(lines, a, t.accounts[a].normalSide) == if a in gains then gains[a] else 0
    {
      RepaymentNet(id, interest, principal, a, t.accounts[a].normalSide);
    }
    PostingMoves(t, RepaymentKind, key, lines, gains, interest + principal, after);
  }

  /** All of the payment is interest, up to what the oldest pending line still lacks of that; the rest is principal. */
  lemma RepaidIsAPosting(t: Tenant, id: nat, amount: int, key: Key, k: nat)
    returns (after: Tenant, interest: int, principal: int)
    requires Repaid(t, id, amount, key).Ok? && IsOldestPending(t.loans[id].schedule.value, k)
    ensures after == Repaid(t, id, amount, key).value && amount == interest + principal && principal >= 0
    ensures
      var lacking := t.loans[id].schedule.value[k].interestDue - t.loans[id].schedule.value[k].interestPaid;
      interest == if amount <= lacking then amount else lacking
    ensures
      var posted := Posted(t, RepaymentKind, key, RepaymentLines(id, interest, principal));
      posted.Ok? && after == posted.value.(loans := after.loans)
  {
    OnlyOneOldest(t.loans[id].schedule.value);
    after := Repaid(t, id, amount, key).value;
    interest := InterestPortion(t.loans[id].schedule.value[k], amount);
    principal := amount - interest;
  }

  /** Under a new key the till gains the amount, income the interest part of it and the loan's account loses the
      rest. */
  lemma RepaymentMoves(t: Tenant, id: nat, amount: int, key: Key, k: nat)
    requires Shape(t) && amount > 0 && key !in t.transactions && Repaid(t, id, amount, key).Ok?
    requires id in t.loans && t.loans[id].schedule.Some? && IsOldestPending(t.loans[id].schedule.value, k)
    ensures
      var lacking := t.loans[id].schedule.value[k].interestDue - t.loans[id].schedule.value[k].interestPaid;
      var interest := if amount <= lacking then amount else lacking;
      var principal := amount - interest;
      && interest >= 0
      && Moves(t, Repaid(t, id, amount, key).value,
               map[Cash := interest + principal, InterestIncome := interest, LoanAccount(id) := -principal],
               RepaymentKind, key, interest + principal)
  {
    var after, interest, principal := RepaidIsAPosting(t, id, amount, key, k);
    RepaymentPostingMoves(t, id, interest, principal, key, after);
  }

  // ------------------------------------------------------------ a savings balance over a run

  /** What the step pays into savings account id: an accepted deposit, or opening deposit, under a new key. */
  ghost function PaidIn(t: Tenant, step: Step, id: nat): int
    requires AllTermsOk(t) && Admissible(step)
  {
    if Outcome(t, step).Err? then 0
    else
      match step
      case Deposit(account, amount, key) => if account == id && key !in t.transactions then amount else 0
      case OpenSavings(account, _, _, opening, key) =>
        if account == id && opening > 0 && key.Some? && key.value !in t.transactions then opening else 0
      case _ => 0
  }

  ghost function PaidOut(t: Tenant, step: Step, id: nat): int
    requires AllTermsOk(t) && Admissible(step)
  {
    if step.Withdraw? && step.account == id && step.key !in t.transactions && Outcome(t, step).Ok? then step.amount
    else 0
  }

  ghost function AllPaidIn(t: Tenant, steps: seq<Step>, id: nat): int
    requires AllTermsOk(t) && forall i :: 0 <= i < |steps| ==> Admissible(steps[i])
    decreases |steps|
  {
    if steps == [] then 0 else PaidIn(t, steps[0], id) + AllPaidIn(Next(t, steps[0]), steps[1..], id)
  }

  ghost function AllPaidOut(t: Tenant, steps: seq<Step>, id: nat): int
    requires AllTermsOk(t) && forall i :: 0 <= i < |steps| ==> Admissible(steps[i])
    decreases |steps|
  {
    if steps == [] then 0 else PaidOut(t, steps[0], id) + AllPaidOut(Next(t, steps[0]), steps[1..], id)
  }

  /** What one accepted step does to a savings balance. */
  ghost predicate Accounted(t: Tenant, step: Step, id: nat)
    requires AllTermsOk(t) && Admissible(step)
  {
    BalanceOf(Next(t, step), Savings(id)) ==
    BalanceOf(t, Savings(id)) + PaidIn(t, step, id) - PaidOut(t, step, id)
  }

  /** What a savings account gains by a posting. */
  lemma MovesSavings(t: Tenant, after: Tenant, gains: map<AccountRef, int>, kind: Kind, key: Key, amount: int, id: nat)
    requires Moves(t, after, gains, kind, key, amount)
    ensures BalanceOf(after, Savings(id)) ==
            BalanceOf(t, Savings(id)) + if Savings(id) in gains then gains[Savings(id)] else 0
  {
  }

  lemma DepositPaysIn(t: Tenant, account: nat, amount: int, key: Key, id: nat)
    requires Shape(t) && Deposited(t, account, amount, key).Ok?
    ensures BalanceOf(Deposited(t, account, amount, key).value, Savings(id)) ==
            BalanceOf(t, Savings(id)) + if account == id && key !in t.transactions then amount else 0
  {
    DepositMoves(t, account, amount, key);
    if key !in t.transactions {
      MovesSavings(t, Deposited(t, account, amount, key).value, map[Savings(account) := amount, Cash := amount],
                   DepositKind, key, amount, id);
    }
  }

  lemma WithdrawalPaysOut(t: Tenant, account: nat, amount: int, key: Key, id: nat)
    requires Shape(t) && Withdrawn(t, account, amount, key).Ok?
    ensures BalanceOf(Withdrawn(t, account, amount, key).value, Savings(id)) ==
            BalanceOf(t, Savings(id)) - if account == id && key !in t.transactions then amount else 0
  {
    WithdrawalMoves(t, account, amount, key);
    if key !in t.transactions {
      MovesSavings(t, Withdrawn(t, account, amount, key).value, map[Savings(account) := -amount, Cash := -amount],
                   WithdrawalKind, key, amount, id);
    }
  }

  lemma OpeningPaysIn(t: Tenant, account: nat, verified: bool, minOpening: int, opening: int, key: Option<Key>, id: nat)
    requires Sound(t) && Opened(t, account, verified, minOpening, opening, key).Ok?
    ensures BalanceOf(Opened(t, account, verified, minOpening, opening, key).value, Savings(id)) ==
            BalanceOf(t, Savings(id))
            + if account == id && opening > 0 && key.Some? && key.value !in t.transactions then opening else 0
  {
    var empty := NewSavings(t, account);
    NewSavingsKeepSound(t, account);
    assert BalanceOf(empty, Savings(id)) == BalanceOf(t, Savings(id));
    if opening > 0 {
      DepositPaysIn(empty, account, opening, key.value, id);
    }
  }

  lemma SavingsStepIsAccounted(t: Tenant, step: Step, id: nat)
    requires Sound(t) && Admissible(step) && (step.OpenSavings? || step.Deposit? || step.Withdraw?)
    ensures Accounted(t, step, id)
  {
    if Outcome(t, step).Ok? {
      match step
      case OpenSavings(account, verified, minOpening, opening, key) =>
        OpeningPaysIn(t, account, verified, minOpening, opening, key, id);
      case Deposit(account, amount, key) => DepositPaysIn(t, account, amount, key, id);
      case Withdraw(account, amount, key) => WithdrawalPaysOut(t, account, amount, key, id);
    }
  }

  lemma DisbursementSparesSavings(t: Tenant, loan: nat, key: Key, start: Date, id: nat)
    requires Shape(t) && AllTermsOk(t) && start.Valid() && Disbursed(t, loan, key, start).Ok?
    ensures BalanceOf(Disbursed(t, loan, key, start).value, Savings(id)) == BalanceOf(t, Savings(id))
  {
    DisbursementMoves(t, loan, key, start);
    if key !in t.transactions {
      var principal := t.loans[loan].principal;
      MovesSavings(t, Disbursed(t, loan, key, start).value, map[LoanAccount(loan) := principal, Cash := -principal],
                   DisbursementKind, key, principal, id);
    }
  }

  lemma RepaymentSparesSavings(t: Tenant, loan: nat, amount: int, key: Key, id: nat)
    requires Repaid(t, loan, amount, key).Ok?
    ensures BalanceOf(Repaid(t, loan, amount, key).value, Savings(id)) == BalanceOf(t, Savings(id))
  {
    var rows := t.loans[loan].schedule.value;
    var interest := InterestPortion(rows[FirstPending(rows)], amount);
    if Savings(id) in t.accounts {
      RepaymentNames(loan, interest, amount - interest);
      NetOfStranger(RepaymentLines(loan, interest, amount - interest), Savings(id), t.accounts[Savings(id)].normalSide);
    }
  }

  /** Loan operations and savings balances have nothing to do with each other. */
  lemma LoanStepIsAccounted(t: Tenant, step: Step, id: nat)
    requires Sound(t) && Admissible(step) && (step.Disburse? || step.Repay?)
    ensures Accounted(t, step, id)
  {
    if Outcome(t, step).Ok? {
      match step
      case Disburse(loan, key, start) => DisbursementSparesSavings(t, loan, key, start, id);
      case Repay(loan, amount, key) => RepaymentSparesSavings(t, loan, amount, key, id);
    }
  }

  lemma TransitionIsAccounted(t: Tenant, step: Step, id: nat)
    requires Sound(t) && Admissible(step) && (step.Create? || step.Submit? || step.Approve? || step.Reject?)
    ensures Accounted(t, step, id)
  {
  }

  lemma StepIsAccounted(t: Tenant, step: Step, id: nat)
    requires Sound(t) && Admissible(step)
    ensures Accounted(t, step, id)
  {
    if step.OpenSavings? || step.Deposit? || step.Withdraw? {
      SavingsStepIsAccounted(t, step, id);
    } else if step.Disburse? || step.Repay? {
      LoanStepIsAccounted(t, step, id);
    } else {
      TransitionIsAccounted(t, step, id);
    }
  }

  /** Over any run a savings balance changes by the accepted deposits under new keys minus the accepted withdrawals
      under new keys. */
  lemma {:induction false} SavingsAreAccounted(t: Tenant, steps: seq<Step>, id: nat)
    requires Sound(t) && forall i :: 0 <= i < |steps| ==> Admissible(steps[i])
    ensures
      BalanceOf(Run(t, steps), Savings(id)) ==
      BalanceOf(t, Savings(id)) + AllPaidIn(t, steps, id) - AllPaidOut(t, steps, id)
    decreases |steps|
  {
    if steps == [] {
    } else {
      StepIsAccounted(t, steps[0], id);
      StepKeepsSound(t, steps[0]);
      SavingsAreAccounted(Next(t, steps[0]), steps[1..], id);
    }
  }

  /** From onboarding on, the balance is exactly that difference. */
  lemma BalanceIsPaidInMinusPaidOut(steps: seq<Step>, id: nat)
    requires forall i :: 0 <= i < |steps| ==> Admissible(steps[i])
    ensures AllTermsOk(Onboarded)
    ensures BalanceOf(Run(Onboarded, steps), Savings(id)) ==
            AllPaidIn(Onboarded, steps, id) - AllPaidOut(Onboarded, steps, id)
  {
    OnboardedIsSound();
    SavingsAreAccounted(Onboarded, steps, id);
  }
}
