/** Savings operations: guards on the account, then a two-line posting. */
module SavingsAccounts {
  import opened Wrappers
  import opened Tenant
  import opened Ledger

  function DepositLines(id: nat, amount: int): seq<LedgerLine> {
    [LedgerLine(Cash, Debit, amount), LedgerLine(Savings(id), Credit, amount)]
  }

  function WithdrawalLines(id: nat, amount: int): seq<LedgerLine> {
    [LedgerLine(Savings(id), Debit, amount), LedgerLine(Cash, Credit, amount)]
  }

  function Deposited(t: Tenant, id: nat, amount: int, key: Key): Result<Tenant> {
    if id !in t.savings then Err(SavingsAccountNotFound)
    else if t.savings[id] != SavingsActive then Err(AccountNotActive)
    else if Cash !in t.accounts then Err(OnboardingIncomplete)
    else Posted(t, DepositKind, key, DepositLines(id, amount))
  }

  function Withdrawn(t: Tenant, id: nat, amount: int, key: Key): Result<Tenant> {
    if id !in t.savings || Savings(id) !in t.accounts then Err(SavingsAccountNotFound)
    else if t.savings[id] != SavingsActive then Err(AccountNotActive)
    else if t.accounts[Savings(id)].balance < amount then Err(InsufficientFunds)
    else if Cash !in t.accounts then Err(OnboardingIncomplete)
    else Posted(t, WithdrawalKind, key, WithdrawalLines(id, amount))
  }

  /** id is the fresh UUID of the new row; a collision is refused by the primary key.
      key is None when the request carries no key, or an empty one. */
  function Opened(t: Tenant, id: nat, verified: bool, minOpening: int, opening: int, key: Option<Key>): Result<Tenant> {
    if !verified then Err(CustomerNotVerified)
    else if opening < minOpening then Err(BelowMinimumOpeningBalance)
    else if id in t.savings || Savings(id) in t.accounts then Err(DuplicateId)
    else
      var t1 := t.(savings := t.savings[id := SavingsActive],
                   accounts := t.accounts[Savings(id) := Account(Credit, 0)]);
      if opening <= 0 then Ok(t1)
      else if key.None? then Err(MissingIdempotencyKey)
      else Deposited(t1, id, opening, key.value)
  }

  method Deposit(db: TenantDb, id: nat, amount: int, key: Key) returns (error: Option<Error>)
    modifies db
    ensures db.State() == FinalState(old(db.State()), Deposited(old(db.State()), id, amount, key))
    ensures error == ErrorOf(Deposited(old(db.State()), id, amount, key))
  {
    if id !in db.savings {
      return Some(SavingsAccountNotFound);
    }
    if db.savings[id] != SavingsActive {
      return Some(AccountNotActive);
    }
    if Cash !in db.accounts {
      return Some(OnboardingIncomplete);
    }
    var r := PostTransaction(db, DepositKind, key,
      [LedgerLine(Cash, Debit, amount), LedgerLine(Savings(id), Credit, amount)]);
    return if r.Ok? then None else Some(r.error);
  }

  method Withdraw(db: TenantDb, id: nat, amount: int, key: Key) returns (error: Option<Error>)
    modifies db
    ensures db.State() == FinalState(old(db.State()), Withdrawn(old(db.State()), id, amount, key))
    ensures error == ErrorOf(Withdrawn(old(db.State()), id, amount, key))
  {
    if id !in db.savings || Savings(id) !in db.accounts {
      return Some(SavingsAccountNotFound);
    }
    if db.savings[id] != SavingsActive {
      return Some(AccountNotActive);
    }
    if db.accounts[Savings(id)].balance < amount {
      return Some(InsufficientFunds);
    }
    if Cash !in db.accounts {
      return Some(OnboardingIncomplete);
    }
    var r := PostTransaction(db, WithdrawalKind, key,
      [LedgerLine(Savings(id), Debit, amount), LedgerLine(Cash, Credit, amount)]);
    return if r.Ok? then None else Some(r.error);
  }

  method OpenSavingsAccount(db: TenantDb, id: nat, verified: bool, minOpening: int, opening: int, key: Option<Key>)
    returns (error: Option<Error>)
    modifies db
    ensures db.State() == FinalState(old(db.State()), Opened(old(db.State()), id, verified, minOpening, opening, key))
    ensures error == ErrorOf(Opened(old(db.State()), id, verified, minOpening, opening, key))
  {
    if !verified {
      return Some(CustomerNotVerified);
    }
    if opening < minOpening {
      return Some(BelowMinimumOpeningBalance);
    }
    if id in db.savings || Savings(id) in db.accounts {
      return Some(DuplicateId);
    }
    var before := db.State();
    db.savings := db.savings[id := SavingsActive];
    db.accounts := db.accounts[Savings(id) := Account(Credit, 0)];
    if opening > 0 {
      if key.None? {
        db.Rollback(before);
        return Some(MissingIdempotencyKey);
      }
      error := Deposit(db, id, opening, key.value);
      if error.Some? {
        db.Rollback(before);
      }
      return error;
    }
    return None;
  }
}
