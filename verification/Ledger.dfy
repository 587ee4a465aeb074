/** The double-entry engine: post_transaction and reconcile_balance. */
module Ledger {
  import opened Wrappers
  import opened Sums
  import opened Tenant

  // ------------------------------------------------------------ specification

  function Signed(direction: Side, side: Side, amount: int): int {
    if direction == side then amount else -amount
  }

  /** Total of the lines booked on one side. */
  function Total(lines: seq<LedgerLine>, side: Side): int {
    if lines == [] then 0
    else
      var last := lines[|lines| - 1];
      Total(lines[..|lines| - 1], side) + if last.direction == side then last.amount else 0
  }

  /** What the lines do to account a, counted on the given side. */
  function Net(lines: seq<LedgerLine>, a: AccountRef, side: Side): int {
    if lines == [] then 0
    else
      var last := lines[|lines| - 1];
      Net(lines[..|lines| - 1], a, side) + if last.account == a then Signed(last.direction, side, last.amount) else 0
  }

  function Lines(entries: seq<LedgerEntry>): (lines: seq<LedgerLine>)
    ensures |lines| == |entries| && forall i :: 0 <= i < |lines| ==> lines[i] == entries[i].line
  {
    seq(|entries|, i requires 0 <= i < |entries| => entries[i].line)
  }

  function Entries(key: Key, lines: seq<LedgerLine>): (entries: seq<LedgerEntry>)
    ensures |entries| == |lines|
    ensures forall i :: 0 <= i < |lines| ==> entries[i] == LedgerEntry(key, lines[i])
  {
    seq(|lines|, i requires 0 <= i < |lines| => LedgerEntry(key, lines[i]))
  }

  /** Every balance moved by the lines that name its account. */
  function Moved(accounts: map<AccountRef, Account>, lines: seq<LedgerLine>): map<AccountRef, Account> {
    map a | a in accounts ::
      Account(accounts[a].normalSide, accounts[a].balance + Net(lines, a, accounts[a].normalSide))
  }

  predicate AllKnown(accounts: map<AccountRef, Account>, lines: seq<LedgerLine>) {
    forall i :: 0 <= i < |lines| ==> lines[i].account in accounts
  }

  function Posted(t: Tenant, kind: Kind, key: Key, lines: seq<LedgerLine>): Result<Tenant> {
    if key in t.transactions then Ok(t)
    else if Total(lines, Debit) != Total(lines, Credit) then Err(UnbalancedTransaction)
    else if !AllKnown(t.accounts, lines) then Err(AccountNotFound)
    else Ok(t.(transactions := t.transactions[key := Transaction(kind, Total(lines, Debit))],
               entries := t.entries + Entries(key, lines),
               accounts := Moved(t.accounts, lines)))
  }

  function FinalState(before: Tenant, outcome: Result<Tenant>): Tenant {
    if outcome.Ok? then outcome.value else before
  }

  function ErrorOf(outcome: Result<Tenant>): Option<Error> {
    if outcome.Ok? then None else Some(outcome.error)
  }

  // ------------------------------------------------------------ the code

  method SumSide(lines: seq<LedgerLine>, side: Side) returns (total: int)
    ensures total == Total(lines, side)
  {
    total := 0;
    for i := 0 to |lines|
      invariant total == Total(lines[..i], side)
    {
      assert lines[..i + 1][..i] == lines[..i];
      if lines[i].direction == side {
        total := total + lines[i].amount;
      }
    }
    assert lines[..|lines|] == lines;
  }

  method PostTransaction(db: TenantDb, kind: Kind, key: Key, lines: seq<LedgerLine>)
    returns (r: Result<Transaction>)
    modifies db
    ensures db.State() == FinalState(old(db.State()), Posted(old(db.State()), kind, key, lines))
    ensures
      match Posted(old(db.State()), kind, key, lines)
      case Err(e) => r == Err(e)
      case Ok(after) => key in after.transactions && r == Ok(after.transactions[key])
  {
    if key in db.transactions {
      return Ok(db.transactions[key]);
    }
    var totalDebits := SumSide(lines, Debit);
    var totalCredits := SumSide(lines, Credit);
    if totalDebits != totalCredits {
      return Err(UnbalancedTransaction);
    }
    var transaction := Transaction(kind, totalDebits);
    var known := InsertAndMove(db, key, transaction, lines);
    return if known then Ok(transaction) else Err(AccountNotFound);
  }

  /** The writing half of post_transaction; an unknown account rolls everything back. */
  method InsertAndMove(db: TenantDb, key: Key, transaction: Transaction, lines: seq<LedgerLine>) returns (known: bool)
    modifies db
    ensures known == AllKnown(old(db.accounts), lines)
    ensures db.State() == if known then InProgress(old(db.State()), key, transaction, lines) else old(db.State())
  {
    var before := db.State();
    db.transactions := db.transactions[key := transaction];
    InProgressStart(before, key, transaction);
    for i := 0 to |lines|
      invariant AllKnown(before.accounts, lines[..i])
      invariant db.State() == InProgress(before, key, transaction, lines[..i])
    {
      if lines[i].account !in db.accounts {
        db.Rollback(before);
        return false;
      }
      InProgressStep(before, key, transaction, lines, i);
      ApplyLine(db, key, lines[i]);
    }
    assert lines[..|lines|] == lines;
    return true;
  }

  /** One turn of the loop: the entry, then the cached balance. */
  method ApplyLine(db: TenantDb, key: Key, line: LedgerLine)
    requires line.account in db.accounts
    modifies db
    ensures db.State() == LineApplied(old(db.State()), key, line)
  {
    var account := db.accounts[line.account];
    db.entries := db.entries + [LedgerEntry(key, line)];
    var sign := if line.direction == account.normalSide then 1 else -1;
    db.accounts := db.accounts[line.account := account.(balance := account.balance + sign * line.amount)];
  }

  function LineApplied(t: Tenant, key: Key, line: LedgerLine): Tenant
    requires line.account in t.accounts
  {
    var account := t.accounts[line.account];
    var moved := account.(balance := account.balance + Signed(line.direction, account.normalSide, line.amount));
    t.(entries := t.entries + [LedgerEntry(key, line)], accounts := t.accounts[line.account := moved])
  }

  /** The rows while the loop runs, when the given lines are done. */
  function InProgress(t: Tenant, key: Key, transaction: Transaction, done: seq<LedgerLine>): Tenant {
    t.(transactions := t.transactions[key := transaction],
       entries := t.entries + Entries(key, done),
       accounts := Moved(t.accounts, done))
  }

  lemma InProgressStart(t: Tenant, key: Key, transaction: Transaction)
    ensures InProgress(t, key, transaction, []) == t.(transactions := t.transactions[key := transaction])
  {
    assert Moved(t.accounts, []) == t.accounts;
    assert t.entries + Entries(key, []) == t.entries;
  }

  lemma InProgressStep(t: Tenant, key: Key, transaction: Transaction, lines: seq<LedgerLine>, i: nat)
    requires i < |lines| && lines[i].account in t.accounts
    ensures InProgress(t, key, transaction, lines[..i + 1]) ==
            LineApplied(InProgress(t, key, transaction, lines[..i]), key, lines[i])
  {
    MovedByOneMore(t.accounts, lines, i);
    assert Entries(key, lines[..i + 1]) == Entries(key, lines[..i]) + [LedgerEntry(key, lines[i])];
  }

  lemma MovedByOneMore(accounts: map<AccountRef, Account>, lines: seq<LedgerLine>, i: nat)
    requires i < |lines| && lines[i].account in accounts
    ensures
      var account := Moved(accounts, lines[..i])[lines[i].account];
      Moved(accounts, lines[..i + 1]) ==
      Moved(accounts, lines[..i])[lines[i].account :=
        account.(balance := account.balance + Signed(lines[i].direction, account.normalSide, lines[i].amount))]
  {
    assert lines[..i + 1][..i] == lines[..i];
  }

  method ReconcileBalance(db: TenantDb, a: AccountRef) returns (r: Result<int>)
    ensures r == if a in db.accounts then Ok(Net(Lines(db.entries), a, db.accounts[a].normalSide))
                 else Err(AccountNotFound)
  {
    if a !in db.accounts {
      return Err(AccountNotFound);
    }
    var normalSide := db.accounts[a].normalSide;
    var total := 0;
    var lines := Lines(db.entries);
    for i := 0 to |db.entries|
      invariant total == Net(lines[..i], a, normalSide)
    {
      assert lines[..i + 1][..i] == lines[..i];
      var line := db.entries[i].line;
      if line.account == a {
        var sign := if line.direction == normalSide then 1 else -1;
        total := total + sign * line.amount;
      }
    }
    assert lines[..|lines|] == lines;
    return Ok(total);
  }

  // ------------------------------------------------------------ what posting keeps

  lemma {:induction false} NetAppend(xs: seq<LedgerLine>, ys: seq<LedgerLine>, a: AccountRef, side: Side)
    ensures Net(xs + ys, a, side) == Net(xs, a, side) + Net(ys, a, side)
  {
    if ys == [] {
      assert xs + ys == xs;
    } else {
      NetAppend(xs, ys[..|ys| - 1], a, side);
      assert (xs + ys)[..|xs + ys| - 1] == xs + ys[..|ys| - 1];
    }
  }

  lemma {:induction false} NetOfStranger(lines: seq<LedgerLine>, a: AccountRef, side: Side)
    requires forall i :: 0 <= i < |lines| ==> lines[i].account != a
    ensures Net(lines, a, side) == 0
  {
    if lines == [] {
    } else {
      NetOfStranger(lines[..|lines| - 1], a, side);
    }
  }

  /** Every balance seen from the debit side. */
  function DebitView(accounts: map<AccountRef, Account>): map<AccountRef, int> {
    map a | a in accounts :: Signed(accounts[a].normalSide, Debit, accounts[a].balance)
  }

  function DebitNet(accounts: map<AccountRef, Account>, lines: seq<LedgerLine>): map<AccountRef, int> {
    map a | a in accounts :: Net(lines, a, Debit)
  }

  /** Lines spread over known accounts move the debit view by debits minus credits in total. */
  lemma {:induction false} DebitNetTotal(accounts: map<AccountRef, Account>, lines: seq<LedgerLine>)
    requires AllKnown(accounts, lines)
    ensures Sum(DebitNet(accounts, lines)) == Total(lines, Debit) - Total(lines, Credit)
  {
    if lines == [] {
      SumOfPart(DebitNet(accounts, []), map[]);
    } else {
      var init, last := lines[..|lines| - 1], lines[|lines| - 1];
      DebitNetTotal(accounts, init);
      var before := DebitNet(accounts, init);
      var a := last.account;
      assert DebitNet(accounts, lines) == before[a := before[a] + Signed(last.direction, Debit, last.amount)];
      SumUpdate(before, a, before[a] + Signed(last.direction, Debit, last.amount));
    }
  }

  lemma {:induction false} NetMirrored(lines: seq<LedgerLine>, a: AccountRef)
    ensures Net(lines, a, Credit) == -Net(lines, a, Debit)
  {
    if lines == [] {
    } else {
      NetMirrored(lines[..|lines| - 1], a);
    }
  }

  lemma MovedDebitView(accounts: map<AccountRef, Account>, lines: seq<LedgerLine>)
    requires AllKnown(accounts, lines)
    ensures Sum(DebitView(Moved(accounts, lines))) ==
            Sum(DebitView(accounts)) + Total(lines, Debit) - Total(lines, Credit)
  {
    DebitNetTotal(accounts, lines);
    forall a | a in accounts {
      NetMirrored(lines, a);
    }
    SumAdd(DebitView(accounts), DebitNet(accounts, lines), DebitView(Moved(accounts, lines)));
  }

  /** The lines of one transaction. */
  function LinesOf(entries: seq<LedgerEntry>, key: Key): seq<LedgerLine> {
    if entries == [] then []
    else
      var last := entries[|entries| - 1];
      LinesOf(entries[..|entries| - 1], key) + if last.transaction == key then [last.line] else []
  }

  /** balance_cached is what reconcile_balance recomputes from the entries. */
  ghost predicate CacheAgrees(t: Tenant) {
    forall a :: a in t.accounts ==> t.accounts[a].balance == Net(Lines(t.entries), a, t.accounts[a].normalSide)
  }

  ghost predicate BooksBalance(t: Tenant) {
    Sum(DebitView(t.accounts)) == 0
  }

  ghost predicate EntriesKnown(t: Tenant) {
    forall i :: 0 <= i < |t.entries| ==>
      t.entries[i].line.account in t.accounts && t.entries[i].transaction in t.transactions
  }

  /** The entries of each transaction have debits and credits equal to its amount. */
  ghost predicate EachBalanced(t: Tenant) {
    forall key :: key in t.transactions ==>
      Total(LinesOf(t.entries, key), Debit) == Total(LinesOf(t.entries, key), Credit) == t.transactions[key].amount
  }

  /** The ledger's own invariant; no condition on keys, amounts or accounts is needed to keep it. */
  ghost predicate LedgerOk(t: Tenant) {
    CacheAgrees(t) && BooksBalance(t) && EntriesKnown(t) && EachBalanced(t)
  }

  lemma {:induction false} LinesOfStranger(entries: seq<LedgerEntry>, key: Key)
    requires forall i :: 0 <= i < |entries| ==> entries[i].transaction != key
    ensures LinesOf(entries, key) == []
  {
    if entries == [] {
    } else {
      LinesOfStranger(entries[..|entries| - 1], key);
    }
  }

  lemma {:induction false} LinesOfAppend(xs: seq<LedgerEntry>, ys: seq<LedgerEntry>, key: Key)
    ensures LinesOf(xs + ys, key) == LinesOf(xs, key) + LinesOf(ys, key)
  {
    if ys == [] {
      assert xs + ys == xs;
    } else {
      LinesOfAppend(xs, ys[..|ys| - 1], key);
      assert (xs + ys)[..|xs + ys| - 1] == xs + ys[..|ys| - 1];
    }
  }

  lemma {:induction false} LinesOfEntries(key: Key, lines: seq<LedgerLine>)
    ensures LinesOf(Entries(key, lines), key) == lines
  {
    if lines == [] {
    } else {
      var init := lines[..|lines| - 1];
      LinesOfEntries(key, init);
      assert Entries(key, lines)[..|lines| - 1] == Entries(key, init);
    }
  }

  lemma LinesOfPosting(entries: seq<LedgerEntry>, key: Key, lines: seq<LedgerLine>, other: Key)
    ensures LinesOf(entries + Entries(key, lines), other) ==
            LinesOf(entries, other) + if other == key then lines else []
  {
    LinesOfAppend(entries, Entries(key, lines), other);
    if other == key {
      LinesOfEntries(key, lines);
    } else {
      LinesOfStranger(Entries(key, lines), other);
    }
  }

  lemma PostKeepsLedger(t: Tenant, kind: Kind, key: Key, lines: seq<LedgerLine>)
    requires LedgerOk(t) && Posted(t, kind, key, lines).Ok?
    ensures LedgerOk(Posted(t, kind, key, lines).value)
  {
    if key !in t.transactions {
      PostKeepsCache(t, kind, key, lines);
      MovedDebitView(t.accounts, lines);
      PostKeepsEachBalanced(t, kind, key, lines);
    }
  }

  lemma PostKeepsCache(t: Tenant, kind: Kind, key: Key, lines: seq<LedgerLine>)
    requires CacheAgrees(t) && key !in t.transactions && Posted(t, kind, key, lines).Ok?
    ensures CacheAgrees(Posted(t, kind, key, lines).value)
  {
    assert Lines(t.entries + Entries(key, lines)) == Lines(t.entries) + lines;
    forall a | a in t.accounts {
      NetAppend(Lines(t.entries), lines, a, t.accounts[a].normalSide);
    }
  }

  lemma PostKeepsEachBalanced(t: Tenant, kind: Kind, key: Key, lines: seq<LedgerLine>)
    requires EntriesKnown(t) && EachBalanced(t) && key !in t.transactions && Posted(t, kind, key, lines).Ok?
    ensures EachBalanced(Posted(t, kind, key, lines).value)
  {
    var after := Posted(t, kind, key, lines).value;
    forall other | other in after.transactions
      ensures LinesOf(after.entries, other) == if other == key then lines else LinesOf(t.entries, other)
    {
      LinesOfPosting(t.entries, key, lines, other);
      LinesOfStranger(t.entries, key);
    }
  }

  lemma OpeningKeepsBooks(accounts: map<AccountRef, Account>, a: AccountRef, side: Side)
    requires a !in accounts
    ensures Sum(DebitView(accounts[a := Account(side, 0)])) == Sum(DebitView(accounts))
  {
    assert DebitView(accounts[a := Account(side, 0)]) == DebitView(accounts)[a := 0];
    SumUpdate(DebitView(accounts), a, 0);
  }

  /** A new account, with no entry yet and a zero balance, changes nothing for the ledger. */
  lemma OpeningKeepsLedger(t: Tenant, a: AccountRef, side: Side, after: Tenant)
    requires LedgerOk(t) && a !in t.accounts && after.accounts == t.accounts[a := Account(side, 0)]
    requires after.entries == t.entries && after.transactions == t.transactions
    ensures LedgerOk(after)
  {
    NetOfStranger(Lines(t.entries), a, side);
    OpeningKeepsBooks(t.accounts, a, side);
  }

  // ------------------------------------------------------------ replays

  datatype Posting = Posting(kind: Kind, key: Key, lines: seq<LedgerLine>)

  /** Successive calls of post_transaction, up to the first one that raises. */
  function PostAll(t: Tenant, calls: seq<Posting>): Result<Tenant>
    decreases |calls|
  {
    if calls == [] then Ok(t)
    else
      match Posted(t, calls[0].kind, calls[0].key, calls[0].lines)
      case Err(e) => Err(e)
      case Ok(after) => PostAll(after, calls[1..])
  }

  /** The calls whose key was neither known before nor used by an earlier call. */
  function FirstUses(calls: seq<Posting>, seen: set<Key>): seq<Posting> {
    if calls == [] then []
    else if calls[0].key in seen then FirstUses(calls[1..], seen)
    else [calls[0]] + FirstUses(calls[1..], seen + {calls[0].key})
  }

  /** Replays are invisible: successful calls end where their first uses alone would have. */
  lemma {:induction false} ReplayIsIdempotent(t: Tenant, calls: seq<Posting>)
    requires PostAll(t, calls).Ok?
    ensures PostAll(t, FirstUses(calls, t.transactions.Keys)) == PostAll(t, calls)
    decreases |calls|
  {
    if calls == [] {
    } else {
      var call := calls[0];
      var after := Posted(t, call.kind, call.key, call.lines).value;
      ReplayIsIdempotent(after, calls[1..]);
      assert after.transactions.Keys == t.transactions.Keys + {call.key};
      if call.key !in t.transactions {
        var rest := FirstUses(calls[1..], after.transactions.Keys);
        assert ([call] + rest)[1..] == rest;
      } else {
        assert after.transactions.Keys == t.transactions.Keys;
      }
    }
  }
}
