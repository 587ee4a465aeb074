/** Usage metering and invoicing: what one scheduler tick writes, and how an invoice is computed. */
module Billing {
  import opened Wrappers
  import opened Money
  import opened Reals

  // ------------------------------------------------------------ rows

  datatype Metric = CpuHours | StorageGbHours | ConnectionCount | EgressGb

  const Metrics: seq<Metric> := [CpuHours, StorageGbHours, ConnectionCount, EgressGb]

  /** Times are in microseconds. */
  const Second: int := 1_000_000
  const TickInterval: int := 60 * Second
  const BillingPeriod: int := 30 * 24 * 3600 * Second

  datatype UsageRecord = UsageRecord(database: nat, metric: Metric, value: real, start: int, end: int)

  /** Prices are in cents; a metric without a rate is not billed. */
  datatype Pricing = Pricing(baseFee: real, rates: map<Metric, real>)

  /** metric: None for the base fee */
  datatype LineItem = LineItem(metric: Option<Metric>, quantity: real, unitPrice: real, amount: real)

  datatype InvoiceStatus = Finalized | InvoicePaid

  /** pricing: the plan's prices when the invoice was computed */
  datatype Invoice = Invoice(start: int, end: int, status: InvoiceStatus, total: real, lines: seq<LineItem>,
                             pricing: Pricing)

  datatype SubscriptionStatus = InForce | PastDue

  /** An organization's subscription, with its invoices in the order they were made.
      since: where its first period began. */
  datatype Account = Account(since: int, start: int, end: int, status: SubscriptionStatus, pricing: Pricing,
                             invoices: seq<Invoice>)

  datatype Provider = NowPayments | FedaPay

  datatype PaymentKey = PaymentKey(provider: Provider, id: nat)

  datatype InvoiceRef = InvoiceRef(org: nat, invoice: nat)

  datatype PaymentStatus = PaymentPending | PaymentSucceeded | PaymentFailed

  datatype Payment = Payment(invoice: InvoiceRef, status: PaymentStatus)

  /** databases: every database ever created, with its organization. paidEvents: each invoice.paid emitted. */
  datatype Books = Books(databases: map<nat, nat>, records: seq<UsageRecord>, accounts: map<nat, Account>,
                         payments: map<PaymentKey, Payment>, paidEvents: seq<InvoiceRef>)

  class BillingDb {
    var databases: map<nat, nat>
    var records: seq<UsageRecord>
    var accounts: map<nat, Account>
    var payments: map<PaymentKey, Payment>
    var paidEvents: seq<InvoiceRef>

    function State(): Books
      reads this
    {
      Books(databases, records, accounts, payments, paidEvents)
    }
  }

  // ------------------------------------------------------------ usage

  predicate Counts(databases: map<nat, nat>, r: UsageRecord, org: nat, metric: Metric, from: int, to: int) {
    r.database in databases && databases[r.database] == org && r.metric == metric && from <= r.start < to
  }

  /** What the organization used of a metric in the records that start within [from, to). */
  function Usage(databases: map<nat, nat>, records: seq<UsageRecord>,
                 org: nat, metric: Metric, from: int, to: int): real
  {
    if records == [] then 0.0
    else
      var last := records[|records| - 1];
      Usage(databases, records[..|records| - 1], org, metric, from, to)
      + if Counts(databases, last, org, metric, from, to) then last.value else 0.0
  }

  /** One RUNNING database whose agent answered. */
  datatype Reading = Reading(database: nat, storageGb: real, cpuLimit: nat, connections: nat)

  const HoursElapsed: real := (TickInterval / Second) as real / 3600.0

  function RecordsOf(reading: Reading, now: int): seq<UsageRecord> {
    [UsageRecord(reading.database, StorageGbHours, Times(reading.storageGb, HoursElapsed), now - TickInterval, now),
     UsageRecord(reading.database, CpuHours, Times(reading.cpuLimit as real, HoursElapsed), now - TickInterval, now),
     UsageRecord(reading.database, ConnectionCount, reading.connections as real, now - TickInterval, now)]
  }

  function Metered(records: seq<UsageRecord>, readings: seq<Reading>, now: int): seq<UsageRecord> {
    if readings == [] then records
    else Metered(records, readings[..|readings| - 1], now) + RecordsOf(readings[|readings| - 1], now)
  }

  method MeterUsage(db: BillingDb, readings: seq<Reading>, now: int)
    modifies db
    ensures db.State() == old(db.State()).(records := Metered(old(db.records), readings, now))
  {
    ghost var before := db.State();
    for i := 0 to |readings|
      invariant db.State() == before.(records := Metered(before.records, readings[..i], now))
    {
      assert readings[..i + 1][..i] == readings[..i];
      var periodStart := now - TickInterval;
      var d := readings[i].database;
      var cpu := Times(readings[i].cpuLimit as real, HoursElapsed);
      var storage := Times(readings[i].storageGb, HoursElapsed);
      db.records := db.records + [UsageRecord(d, StorageGbHours, storage, periodStart, now)]
                    + [UsageRecord(d, CpuHours, cpu, periodStart, now)]
                    + [UsageRecord(d, ConnectionCount, readings[i].connections as real, periodStart, now)];
      assert db.records == Metered(before.records, readings[..i], now) + RecordsOf(readings[i], now);
    }
    assert readings[..|readings|] == readings;
  }

  // ------------------------------------------------------------ one invoice

  function BaseLines(pricing: Pricing): seq<LineItem> {
    if pricing.baseFee > 0.0 then [LineItem(None, 1.0, pricing.baseFee, pricing.baseFee)] else []
  }

  function UsageLines(pricing: Pricing, metric: Metric, quantity: real): seq<LineItem> {
    if metric !in pricing.rates || quantity == 0.0 then []
    else
      var rate := pricing.rates[metric];
      [LineItem(Some(metric), quantity, rate, Round(Times(quantity, rate)) as real)]
  }

  /** The lines for the first count metrics. */
  function LinesFor(b: Books, org: nat, count: nat): seq<LineItem>
    requires org in b.accounts && count <= |Metrics|
  {
    var a := b.accounts[org];
    if count == 0 then BaseLines(a.pricing)
    else
      var metric := Metrics[count - 1];
      LinesFor(b, org, count - 1)
      + UsageLines(a.pricing, metric, Usage(b.databases, b.records, org, metric, a.start, a.end))
  }

  function TotalOf(lines: seq<LineItem>): real {
    if lines == [] then 0.0 else TotalOf(lines[..|lines| - 1]) + lines[|lines| - 1].amount
  }

  function NewInvoice(b: Books, org: nat): Invoice
    requires org in b.accounts
  {
    var a := b.accounts[org];
    var lines := LinesFor(b, org, |Metrics|);
    Invoice(a.start, a.end, Finalized, TotalOf(lines), lines, a.pricing)
  }

  function Invoiced(b: Books, org: nat): Account
    requires org in b.accounts
  {
    var a := b.accounts[org];
    a.(invoices := a.invoices + [NewInvoice(b, org)], start := a.end, end := a.end + BillingPeriod)
  }

  predicate HasDatabase(databases: map<nat, nat>, org: nat) {
    exists d :: d in databases && databases[d] == org
  }

  lemma {:induction false} NoDatabaseNoUsage(b: Books, org: nat, metric: Metric, from: int, to: int)
    requires !HasDatabase(b.databases, org)
    ensures Usage(b.databases, b.records, org, metric, from, to) == 0.0
    decreases |b.records|
  {
    if b.records == [] {
    } else {
      NoDatabaseNoUsage(b.(records := b.records[..|b.records| - 1]), org, metric, from, to);
    }
  }

  lemma {:induction false} NoDatabaseNoLines(b: Books, org: nat, count: nat)
    requires org in b.accounts && !HasDatabase(b.databases, org) && count <= |Metrics|
    ensures LinesFor(b, org, count) == BaseLines(b.accounts[org].pricing)
  {
    if count == 0 {
    } else {
      NoDatabaseNoLines(b, org, count - 1);
      NoDatabaseNoUsage(b, org, Metrics[count - 1], b.accounts[org].start, b.accounts[org].end);
    }
  }

  lemma TotalOneMore(lines: seq<LineItem>, line: LineItem)
    ensures TotalOf(lines + [line]) == TotalOf(lines) + line.amount
  {
    assert (lines + [line])[..|lines|] == lines;
  }

  /** The accumulation of line items and total. */
  method ComputeLines(b: Books, org: nat) returns (lines: seq<LineItem>, total: real)
    requires org in b.accounts
    ensures lines == LinesFor(b, org, |Metrics|) && total == TotalOf(lines)
  {
    var a := b.accounts[org];
    total, lines := 0.0, [];
    if a.pricing.baseFee > 0.0 {
      lines := [LineItem(None, 1.0, a.pricing.baseFee, a.pricing.baseFee)];
      total := a.pricing.baseFee;
    }
    var databaseIds := set d | d in b.databases && b.databases[d] == org;
    if databaseIds == {} {
      assert forall d :: d in b.databases && b.databases[d] == org ==> d in databaseIds;
      NoDatabaseNoLines(b, org, |Metrics|);
      return;
    }
    for i := 0 to |Metrics|
      invariant lines == LinesFor(b, org, i) && total == TotalOf(lines)
    {
      var metric := Metrics[i];
      if metric in a.pricing.rates {
        var rate := a.pricing.rates[metric];
        var quantity := Usage(b.databases, b.records, org, metric, a.start, a.end);
        if quantity != 0.0 {
          var amount := Round(Times(quantity, rate)) as real;
          TotalOneMore(lines, LineItem(Some(metric), quantity, rate, amount));
          lines := lines + [LineItem(Some(metric), quantity, rate, amount)];
          total := total + amount;
        }
      }
    }
  }

  method ComputeInvoiceForSubscription(db: BillingDb, org: nat)
    requires org in db.accounts
    modifies db
    ensures db.State() == old(db.State()).(accounts := old(db.accounts)[org := Invoiced(old(db.State()), org)])
  {
    var a := db.accounts[org];
    var lines, total := ComputeLines(db.State(), org);
    var invoice := Invoice(a.start, a.end, Finalized, total, lines, a.pricing);
    db.accounts := db.accounts[org := a.(invoices := a.invoices + [invoice],
                                         start := a.end, end := a.end + BillingPeriod)];
  }

  // ------------------------------------------------------------ all due subscriptions

  predicate IsDue(a: Account, now: int) {
    a.end <= now && a.status == InForce
  }

  predicate HasUnpaid(invoices: seq<Invoice>) {
    exists i :: 0 <= i < |invoices| && invoices[i].status == Finalized
  }

  /** A due subscription is invoiced, unless its last period is still unpaid: then it is suspended. */
  function AfterBilling(b: Books, org: nat, now: int): Account
    requires org in b.accounts
  {
    var a := b.accounts[org];
    if !IsDue(a, now) then a
    else if HasUnpaid(a.invoices) then a.(status := PastDue)
    else Invoiced(b, org)
  }

  function Billed(b: Books, now: int): Books {
    b.(accounts := map org | org in b.accounts :: AfterBilling(b, org, now))
  }

  /** The books while some due organizations are still to be looked at. */
  function BilledBut(b: Books, due: set<nat>, now: int): (after: Books)
    ensures after.accounts.Keys == b.accounts.Keys
  {
    b.(accounts := map org | org in b.accounts :: if org in due then b.accounts[org] else AfterBilling(b, org, now))
  }

  lemma BilledOneMore(b: Books, due: set<nat>, org: nat, now: int)
    requires org in due && org in b.accounts
    ensures
      BilledBut(b, due - {org}, now) ==
      BilledBut(b, due, now).(accounts := BilledBut(b, due, now).accounts[org := AfterBilling(b, org, now)])
  {
  }

  lemma BilledNobodyOrAll(b: Books, due: set<nat>, now: int)
    requires forall org :: org in due <==> org in b.accounts && IsDue(b.accounts[org], now)
    ensures BilledBut(b, due, now) == b && BilledBut(b, {}, now) == Billed(b, now)
  {
    assert BilledBut(b, due, now).accounts == b.accounts;
    assert BilledBut(b, {}, now).accounts == Billed(b, now).accounts;
  }

  method GenerateDueInvoices(db: BillingDb, now: int) returns (generated: nat)
    modifies db
    ensures db.State() == Billed(old(db.State()), now)
  {
    ghost var before := db.State();
    generated := 0;
    var due := set org | org in db.accounts && IsDue(db.accounts[org], now);
    BilledNobodyOrAll(before, due, now);
    while due != {}
      invariant forall org :: org in due ==> org in before.accounts && IsDue(before.accounts[org], now)
      invariant db.State() == BilledBut(before, due, now)
      decreases due
    {
      var org :| org in due;
      var a := db.accounts[org];
      BilledOneMore(before, due, org, now);
      if exists i :: 0 <= i < |a.invoices| && a.invoices[i].status == Finalized {
        db.accounts := db.accounts[org := a.(status := PastDue)];
      } else {
        InvoicedLooksAtOneAccount(before, db.State(), org);
        ComputeInvoiceForSubscription(db, org);
        generated := generated + 1;
      }
      due := due - {org};
    }
  }

  lemma {:induction false} LinesLookAtOneAccount(b: Books, c: Books, org: nat, count: nat)
    requires org in b.accounts && org in c.accounts && b.accounts[org] == c.accounts[org] && count <= |Metrics|
    requires b.databases == c.databases && b.records == c.records
    ensures LinesFor(b, org, count) == LinesFor(c, org, count)
  {
    if count == 0 {
    } else {
      LinesLookAtOneAccount(b, c, org, count - 1);
    }
  }

  lemma InvoicedLooksAtOneAccount(b: Books, c: Books, org: nat)
    requires org in b.accounts && org in c.accounts && b.accounts[org] == c.accounts[org]
    requires b.databases == c.databases && b.records == c.records
    ensures Invoiced(b, org) == Invoiced(c, org)
  {
    LinesLookAtOneAccount(b, c, org, |Metrics|);
  }
}
