/** The trial balance and the loan portfolio, and what they must agree on. */
module Reports {
  import opened Wrappers
  import opened Sums
  import opened Calendar
  import opened Tenant
  import opened Ledger
  import opened Loans
  import opened Book
  import opened Closing

  datatype TrialBalance = TrialBalance(lines: map<AccountRef, Account>, savingsTotal: int, loansTotal: int,
                                       debitSide: int, creditSide: int, balanced: bool)

  datatype Portfolio = Portfolio(activeCount: nat, disbursed: int, outstanding: int)

  predicate IsInternal(a: AccountRef) {
    a.Cash? || a.InterestIncome? || a.OtherInternal?
  }

  function InternalOn(accounts: map<AccountRef, Account>, side: Side): map<AccountRef, int> {
    map a | a in accounts && IsInternal(a) && accounts[a].normalSide == side :: accounts[a].balance
  }

  function SavingsBalances(accounts: map<AccountRef, Account>): map<AccountRef, int> {
    map a | a in accounts && a.Savings? :: accounts[a].balance
  }

  function LoanBalances(accounts: map<AccountRef, Account>): map<AccountRef, int> {
    map a | a in accounts && a.LoanAccount? :: accounts[a].balance
  }

  function InternalAccounts(accounts: map<AccountRef, Account>): map<AccountRef, Account> {
    map a | a in accounts && IsInternal(a) :: accounts[a]
  }

  /** One line per internal account, then the two totals the database sums up. */
  method GetTrialBalance(db: TenantDb) returns (r: TrialBalance)
    ensures r.lines == InternalAccounts(db.accounts)
    ensures r.savingsTotal == Sum(SavingsBalances(db.accounts)) && r.loansTotal == Sum(LoanBalances(db.accounts))
    ensures r.debitSide == Sum(InternalOn(db.accounts, Debit)) + r.loansTotal
    ensures r.creditSide == Sum(InternalOn(db.accounts, Credit)) + r.savingsTotal
    ensures r.balanced <==> r.debitSide == r.creditSide
  {
    var savingsTotal := SumQuery(SavingsBalances(db.accounts));
    var loansTotal := SumQuery(LoanBalances(db.accounts));
    var lines := InternalAccounts(db.accounts);
    var debitTotal, creditTotal := TotalInternal(lines);
    creditTotal := creditTotal + savingsTotal;
    debitTotal := debitTotal + loansTotal;
    assert InternalOn(lines, Debit) == InternalOn(db.accounts, Debit);
    assert InternalOn(lines, Credit) == InternalOn(db.accounts, Credit);
    r := TrialBalance(lines, savingsTotal, loansTotal, debitTotal, creditTotal, debitTotal == creditTotal);
  }

  /** The loop over the internal accounts. */
  method TotalInternal(lines: map<AccountRef, Account>) returns (debitTotal: int, creditTotal: int)
    requires forall a :: a in lines ==> IsInternal(a)
    ensures debitTotal == Sum(InternalOn(lines, Debit)) && creditTotal == Sum(InternalOn(lines, Credit))
  {
    var rest := lines;
    debitTotal, creditTotal := 0, 0;
    while rest != map[]
      invariant forall a :: a in rest ==> IsInternal(a)
      invariant debitTotal + Sum(InternalOn(rest, Debit)) == Sum(InternalOn(lines, Debit))
      invariant creditTotal + Sum(InternalOn(rest, Credit)) == Sum(InternalOn(lines, Credit))
      decreases |rest|
    {
      var a :| a in rest;
      TakeOut(rest, a, Debit);
      TakeOut(rest, a, Credit);
      if rest[a].normalSide == Debit {
        debitTotal := debitTotal + rest[a].balance;
      } else {
        creditTotal := creditTotal + rest[a].balance;
      }
      rest := rest - {a};
    }
    assert InternalOn(rest, Debit) == map[] && InternalOn(rest, Credit) == map[];
  }

  lemma TakeOut(rest: map<AccountRef, Account>, a: AccountRef, side: Side)
    requires a in rest && IsInternal(a)
    ensures Sum(InternalOn(rest, side)) ==
            Sum(InternalOn(rest - {a}, side)) + if rest[a].normalSide == side then rest[a].balance else 0
  {
    if rest[a].normalSide == side {
      SumRemove(InternalOn(rest, side), a);
      assert InternalOn(rest - {a}, side) == InternalOn(rest, side) - {a};
    } else {
      assert InternalOn(rest - {a}, side) == InternalOn(rest, side);
    }
  }

  /** All balances on one side, counting the other side as zero. */
  function OnSide(acc: map<AccountRef, Account>, side: Side): map<AccountRef, int> {
    map a | a in acc :: if acc[a].normalSide == side then acc[a].balance else 0
  }

  lemma DebitViewSplits(acc: map<AccountRef, Account>)
    ensures Sum(DebitView(acc)) == Sum(OnSide(acc, Debit)) - Sum(OnSide(acc, Credit))
  {
    var credits := OnSide(acc, Credit);
    var negated := map a | a in credits :: -credits[a];
    SumNegate(credits);
    SumAdd(OnSide(acc, Debit), negated, DebitView(acc));
  }

  lemma SideSplits(acc: map<AccountRef, Account>, side: Side, customers: map<AccountRef, int>)
    requires customers == map a | a in acc && !IsInternal(a) && acc[a].normalSide == side :: acc[a].balance
    ensures Sum(OnSide(acc, side)) == Sum(InternalOn(acc, side)) + Sum(customers)
  {
    var onSide := OnSide(acc, side);
    var inside := map a | a in acc :: if IsInternal(a) then onSide[a] else 0;
    var outside := map a | a in acc :: if IsInternal(a) then 0 else onSide[a];
    SumAdd(inside, outside, onSide);
    SumOfPart(inside, InternalOn(acc, side));
    SumOfPart(outside, customers);
  }

  /** Any ledger whose debit view sums to zero, over any accounts of either normal side,
      shows equal sides, as long as savings are credit-normal and loans debit-normal. */
  lemma TrialBalances(acc: map<AccountRef, Account>)
    requires Sum(DebitView(acc)) == 0
    requires forall a :: a in acc && a.Savings? ==> acc[a].normalSide == Credit
    requires forall a :: a in acc && a.LoanAccount? ==> acc[a].normalSide == Debit
    ensures Sum(InternalOn(acc, Debit)) + Sum(LoanBalances(acc)) ==
            Sum(InternalOn(acc, Credit)) + Sum(SavingsBalances(acc))
  {
    DebitViewSplits(acc);
    SideSplits(acc, Debit, LoanBalances(acc));
    SideSplits(acc, Credit, SavingsBalances(acc));
  }

  /** Every reachable trial balance reports balanced, whatever keys and amounts were used. */
  lemma EveryRunBalances(steps: seq<Step>)
    requires forall i :: 0 <= i < |steps| ==> Admissible(steps[i])
    ensures
      AllTermsOk(Onboarded) &&
      var acc := Run(Onboarded, steps).accounts;
      Sum(InternalOn(acc, Debit)) + Sum(LoanBalances(acc)) == Sum(InternalOn(acc, Credit)) + Sum(SavingsBalances(acc))
  {
    OnboardedIsSound();
    RunKeepsSound(Onboarded, steps);
    TrialBalances(Run(Onboarded, steps).accounts);
  }

  /** What happens to a chart of accounts: an account of any kind is opened, or any lines are posted. */
  datatype ChartStep =
    | OpenAccount(account: AccountRef, side: Side)
    | Post(kind: Kind, key: Key, lines: seq<LedgerLine>)

  /** A savings account is always a liability and a loan an asset; an internal account has either side. */
  predicate SideFits(step: ChartStep) {
    step.OpenAccount? ==>
      (step.account.Savings? ==> step.side == Credit) && (step.account.LoanAccount? ==> step.side == Debit)
  }

  function Charted(t: Tenant, step: ChartStep): Tenant {
    match step
    case OpenAccount(a, side) =>
      if a in t.accounts then t else t.(accounts := t.accounts[a := Account(side, 0)])
    case Post(kind, key, lines) => FinalState(t, Posted(t, kind, key, lines))
  }

  function ChartedAll(t: Tenant, steps: seq<ChartStep>): Tenant {
    if steps == [] then t else Charted(ChartedAll(t, steps[..|steps| - 1]), steps[|steps| - 1])
  }

  const NoAccounts := Tenant(map[], [], map[], map[], map[])

  predicate SidesFit(accounts: map<AccountRef, Account>) {
    forall a :: a in accounts ==>
      (a.Savings? ==> accounts[a].normalSide == Credit) && (a.LoanAccount? ==> accounts[a].normalSide == Debit)
  }

  lemma {:induction false} ChartsKeepLedger(steps: seq<ChartStep>)
    requires forall i :: 0 <= i < |steps| ==> SideFits(steps[i])
    ensures LedgerOk(ChartedAll(NoAccounts, steps)) && SidesFit(ChartedAll(NoAccounts, steps).accounts)
  {
    if steps == [] {
    } else {
      ChartsKeepLedger(steps[..|steps| - 1]);
      var t, step := ChartedAll(NoAccounts, steps[..|steps| - 1]), steps[|steps| - 1];
      match step {
        case OpenAccount(a, side) =>
          if a !in t.accounts {
            OpeningKeepsLedger(t, a, side, Charted(t, step));
          }
        case Post(kind, key, lines) =>
          if Posted(t, kind, key, lines).Ok? {
            PostKeepsLedger(t, kind, key, lines);
          }
      }
    }
  }

  /** For any chart of accounts, internal ones of either side in any number, any sequence of openings and of
      postings of any lines, refused ones and repeated keys included, leaves a balanced trial balance. */
  lemma EveryChartBalances(steps: seq<ChartStep>)
    requires forall i :: 0 <= i < |steps| ==> SideFits(steps[i])
    ensures
      var acc := ChartedAll(NoAccounts, steps).accounts;
      Sum(InternalOn(acc, Debit)) + Sum(LoanBalances(acc)) == Sum(InternalOn(acc, Credit)) + Sum(SavingsBalances(acc))
  {
    ChartsKeepLedger(steps);
    TrialBalances(ChartedAll(NoAccounts, steps).accounts);
  }

  /** The institution's cash is what customers saved, plus the interest earned, minus what is lent out. */
  lemma CashIdentity(t: Tenant)
    requires Sound(t)
    ensures t.accounts[Cash].balance ==
            Sum(SavingsBalances(t.accounts)) + t.accounts[InterestIncome].balance - Sum(LoanBalances(t.accounts))
  {
    TrialBalances(t.accounts);
    OnlyInternal(t);
    SumOfOne(InternalOn(t.accounts, Debit), Cash);
    SumOfOne(InternalOn(t.accounts, Credit), InterestIncome);
  }

  lemma OnlyInternal(t: Tenant)
    requires Shape(t)
    ensures InternalOn(t.accounts, Debit).Keys == {Cash} && InternalOn(t.accounts, Credit).Keys == {InterestIncome}
  {
    forall a | a in t.accounts && IsInternal(a) ensures a == Cash || a == InterestIncome {
      assert HasRow(t, a);
    }
  }

  // ------------------------------------------------------------ portfolio

  function ActiveOutstanding(t: Tenant): map<AccountRef, int> {
    map a | a in t.accounts && a.LoanAccount? && a.id in t.loans && t.loans[a.id].status == Active
      :: t.accounts[a].balance
  }

  function PrincipalsOf(t: Tenant): map<nat, int> {
    map id | id in t.loans && (t.loans[id].status == Active || t.loans[id].status == Closed) :: t.loans[id].principal
  }

  method GetLoanPortfolio(db: TenantDb) returns (r: Portfolio)
    ensures r.outstanding == Sum(ActiveOutstanding(db.State())) && r.disbursed == Sum(PrincipalsOf(db.State()))
    ensures forall id :: LoanAccount(id) in ActiveOutstanding(db.State()) <==>
              LoanAccount(id) in db.accounts && id in db.loans && db.loans[id].status == Active
    ensures forall id :: id in PrincipalsOf(db.State()) <==>
              id in db.loans && (db.loans[id].status == Active || db.loans[id].status == Closed)
    ensures r.activeCount == |set id | id in db.loans && db.loans[id].status == Active|
  {
    var t := db.State();
    var active := set id | id in db.loans && db.loans[id].status == Active;
    var disbursed := SumQuery(PrincipalsOf(t));
    var outstanding := SumQuery(ActiveOutstanding(t));
    r := Portfolio(|active|, disbursed, outstanding);
  }

  /** The portfolio's figure for active loans and the trial balance's figure for all loans agree,
      because loans before disbursement and closed loans owe nothing. */
  lemma PortfolioAgreesWithTrialBalance(t: Tenant)
    requires Healthy(t)
    ensures Sum(ActiveOutstanding(t)) == Sum(LoanBalances(t.accounts))
  {
    forall a | a in LoanBalances(t.accounts) && a !in ActiveOutstanding(t) ensures LoanBalances(t.accounts)[a] == 0 {
      assert Booked(t.loans[a.id], t.accounts[a].balance);
      if t.loans[a.id].status == Closed {
        ClosedOwesNothing(t, a.id);
      }
    }
    SumOfPart(LoanBalances(t.accounts), ActiveOutstanding(t));
  }

  /** So they do after every run with fresh keys from onboarding. */
  lemma OutstandingAgreesAfterEveryRun(steps: seq<Step>)
    requires forall i :: 0 <= i < |steps| ==> Admissible(steps[i])
    requires AllTermsOk(Onboarded) && FreshRun(Onboarded, steps)
    ensures Sum(ActiveOutstanding(Run(Onboarded, steps))) == Sum(LoanBalances(Run(Onboarded, steps).accounts))
  {
    OnboardedIsHealthy();
    RunKeepsHealthy(Onboarded, steps);
    PortfolioAgreesWithTrialBalance(Run(Onboarded, steps));
  }

  /** The amounts of the disbursements in the ledger, by key. */
  function DisbursementAmounts(t: Tenant): map<Key, int> {
    map key | key in t.transactions && t.transactions[key].kind == DisbursementKind :: t.transactions[key].amount
  }

  /** The portfolio's figures are those of the ledger: the disbursed principals, and how many there are. */
  ghost predicate DisbursementsBooked(t: Tenant) {
    Sum(PrincipalsOf(t)) == Sum(DisbursementAmounts(t)) && |PrincipalsOf(t)| == |DisbursementAmounts(t)|
  }

  lemma SavingsDisburseNothing(t: Tenant, step: Step)
    requires AllTermsOk(t) && Admissible(step) && (step.OpenSavings? || step.Deposit? || step.Withdraw?)
    ensures DisbursementAmounts(Next(t, step)) == DisbursementAmounts(t)
            && PrincipalsOf(Next(t, step)) == PrincipalsOf(t)
  {
  }

  lemma RepaymentDisbursesNothing(t: Tenant, id: nat, amount: int, key: Key)
    ensures
      var after := FinalState(t, Repaid(t, id, amount, key));
      DisbursementAmounts(after) == DisbursementAmounts(t) && PrincipalsOf(after) == PrincipalsOf(t)
  {
  }

  lemma CreationDisbursesNothing(t: Tenant, id: nat, verified: bool, product: LoanProduct, principal: int, term: nat)
    ensures
      var after := FinalState(t, Created(t, id, verified, product, principal, term));
      DisbursementAmounts(after) == DisbursementAmounts(t) && PrincipalsOf(after) == PrincipalsOf(t)
  {
  }

  lemma TransitionDisbursesNothing(t: Tenant, id: nat, from: LoanStatus, to: LoanStatus, staff: Option<nat>)
    requires from != Active && from != Closed && to != Active && to != Closed
    ensures
      var after := FinalState(t, Transitioned(t, id, from, to, staff));
      DisbursementAmounts(after) == DisbursementAmounts(t) && PrincipalsOf(after) == PrincipalsOf(t)
  {
  }

  lemma DisbursementAmount(t: Tenant, id: nat, key: Key, principal: int)
    requires key !in t.transactions && Posted(t, DisbursementKind, key, DisbursementLines(id, principal)).Ok?
    ensures
      DisbursementAmounts(Posted(t, DisbursementKind, key, DisbursementLines(id, principal)).value) ==
      DisbursementAmounts(t)[key := principal]
  {
    TotalOfTwo(DisbursementLines(id, principal)[0], DisbursementLines(id, principal)[1], Debit);
  }

  lemma DisbursementRows(t: Tenant, id: nat, key: Key, start: Date)
    requires AllTermsOk(t) && start.Valid() && key !in t.transactions && Disbursed(t, id, key, start).Ok?
    ensures
      var after := Disbursed(t, id, key, start).value;
      && id !in PrincipalsOf(t) && key !in DisbursementAmounts(t)
      && PrincipalsOf(after) == PrincipalsOf(t)[id := t.loans[id].principal]
      && DisbursementAmounts(after) == DisbursementAmounts(t)[key := t.loans[id].principal]
  {
    DisbursementAmount(t, id, key, t.loans[id].principal);
  }

  lemma DisbursementIsBooked(t: Tenant, id: nat, key: Key, start: Date)
    requires AllTermsOk(t) && start.Valid() && key !in t.transactions && DisbursementsBooked(t)
    ensures DisbursementsBooked(Next(t, Disburse(id, key, start)))
  {
    if Disbursed(t, id, key, start).Ok? {
      DisbursementRows(t, id, key, start);
      SumUpdate(PrincipalsOf(t), id, t.loans[id].principal);
      SumUpdate(DisbursementAmounts(t), key, t.loans[id].principal);
    }
  }

  lemma StepKeepsDisbursementsBooked(t: Tenant, step: Step)
    requires AllTermsOk(t) && Admissible(step) && Fresh(t, step) && DisbursementsBooked(t)
    ensures DisbursementsBooked(Next(t, step))
  {
    match step {
      case Disburse(id, key, start) => DisbursementIsBooked(t, id, key, start);
      case Repay(id, amount, key) => RepaymentDisbursesNothing(t, id, amount, key);
      case OpenSavings(_, _, _, _, _) => SavingsDisburseNothing(t, step);
      case Deposit(_, _, _) => SavingsDisburseNothing(t, step);
      case Withdraw(_, _, _) => SavingsDisburseNothing(t, step);
      case Create(id, verified, product, principal, term) =>
        CreationDisbursesNothing(t, id, verified, product, principal, term);
      case Submit(id) => TransitionDisbursesNothing(t, id, Draft, PendingApproval, None);
      case Approve(id, staff) => TransitionDisbursesNothing(t, id, PendingApproval, Approved, Some(staff));
      case Reject(id, staff) => TransitionDisbursesNothing(t, id, PendingApproval, Rejected, Some(staff));
    }
  }

  lemma {:induction false} RunKeepsDisbursementsBooked(t: Tenant, steps: seq<Step>)
    requires AllTermsOk(t) && (forall i :: 0 <= i < |steps| ==> Admissible(steps[i]))
    requires FreshRun(t, steps) && DisbursementsBooked(t)
    ensures DisbursementsBooked(Run(t, steps))
    decreases |steps|
  {
    if steps == [] {
    } else {
      StepKeepsDisbursementsBooked(t, steps[0]);
      RunKeepsDisbursementsBooked(Next(t, steps[0]), steps[1..]);
    }
  }

  /** After every run with fresh keys from onboarding the principal the portfolio reports as disbursed is the sum
      of the ledger's disbursement transactions, and there are as many of those as ACTIVE and CLOSED loans. */
  lemma PortfolioAgreesWithLedger(steps: seq<Step>)
    requires forall i :: 0 <= i < |steps| ==> Admissible(steps[i])
    requires AllTermsOk(Onboarded) && FreshRun(Onboarded, steps)
    ensures
      var after := Run(Onboarded, steps);
      && Sum(PrincipalsOf(after)) == Sum(DisbursementAmounts(after))
      && |PrincipalsOf(after)| == |DisbursementAmounts(after)|
  {
    assert PrincipalsOf(Onboarded) == map[] && DisbursementAmounts(Onboarded) == map[];
    RunKeepsDisbursementsBooked(Onboarded, steps);
  }
}
