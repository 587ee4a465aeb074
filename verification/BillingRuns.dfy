/** Whole runs of metering, invoicing, payments and webhooks: periods tile, usage is billed once, suspension and
    payment stay in step. */
module BillingRuns {
  import opened Wrappers
  import opened Reals
  import opened Payments
  import B = Billing

  type Books = B.Books
  type Account = B.Account

  datatype Event =
    | Onboard(org: nat, now: int, pricing: B.Pricing)
    | NewDatabase(database: nat, org: nat)
    | ChangePlan(org: nat, pricing: B.Pricing)
    | Meter(now: int, readings: seq<B.Reading>)
    | Generate(now: int)
    | Pay(ref: B.InvoiceRef)
    | Initiate(key: B.PaymentKey, ref: B.InvoiceRef)
    | Deliver(m: Message)

  /** billedAt: when invoices were last generated. */
  datatype World = World(books: Books, billedAt: Option<int>)

  const Start := World(B.Books(map[], [], map[], map[], []), None)

  function BooksAfter(b: Books, e: Event): Books {
    match e
    case Onboard(org, now, pricing) =>
      if org in b.accounts then b
      else b.(accounts := b.accounts[org := B.Account(now, now, now + B.BillingPeriod, B.InForce, pricing, [])])
    case NewDatabase(d, org) => if d in b.databases then b else b.(databases := b.databases[d := org])
    case ChangePlan(org, pricing) =>
      if org in b.accounts then b.(accounts := b.accounts[org := b.accounts[org].(pricing := pricing)]) else b
    case Meter(now, readings) => b.(records := B.Metered(b.records, readings, now))
    case Generate(now) => B.Billed(b, now)
    case Pay(ref) => PaidManually(b, ref)
    case Initiate(key, ref) => Initiated(b, key, ref)
    case Deliver(m) => Delivered(b, m)
  }

  function Next(w: World, e: Event): World {
    World(BooksAfter(w.books, e), if e.Generate? then Some(e.now) else w.billedAt)
  }

  /** The scheduler: metering comes at least a tick after the last invoicing, the clock never goes back, and the
      databases it meters exist. */
  predicate Timely(w: World, e: Event) {
    match e
    case Meter(now, readings) =>
      && (w.billedAt.Some? ==> now >= w.billedAt.value + B.TickInterval)
      && (forall i :: 0 <= i < |readings| ==> readings[i].database in w.books.databases)
    case Generate(now) => w.billedAt.Some? ==> now >= w.billedAt.value
    case _ => true
  }

  // ------------------------------------------------------------ the invariant, account by account

  /** Periods of 30 days, end to end from the first, the current one next in line. */
  predicate Tiled(a: Account) {
    && a.start == a.since + |a.invoices| * B.BillingPeriod
    && a.end == a.start + B.BillingPeriod
    && forall k :: 0 <= k < |a.invoices| ==>
         && a.invoices[k].start == a.since + k * B.BillingPeriod
         && a.invoices[k].end == a.invoices[k].start + B.BillingPeriod
  }

  /** Only the latest invoice can be unpaid, and a suspended account has one. */
  predicate Suspendable(a: Account) {
    && (forall k :: 0 <= k < |a.invoices| - 1 ==> a.invoices[k].status == B.InvoicePaid)
    && (a.status == B.PastDue ==> a.invoices != [] && a.invoices[|a.invoices| - 1].status == B.Finalized)
  }

  function BilledQuantity(lines: seq<B.LineItem>, metric: B.Metric): real {
    if lines == [] then 0.0
    else
      var last := lines[|lines| - 1];
      BilledQuantity(lines[..|lines| - 1], metric) + if last.metric == Some(metric) then last.quantity else 0.0
  }

  /** What an invoice says was used is what the records of its period still say. */
  ghost predicate Exact(b: Books, org: nat, invoice: B.Invoice) {
    forall metric: B.Metric ::
      BilledQuantity(invoice.lines, metric) ==
      if metric in invoice.pricing.rates
      then B.Usage(b.databases, b.records, org, metric, invoice.start, invoice.end) else 0.0
  }

  function BaseFee(pricing: B.Pricing): real {
    if pricing.baseFee > 0.0 then pricing.baseFee else 0.0
  }

  /** The unrounded price of the billed quantities of the first count metrics, and the base fee. */
  function ExactCharge(pricing: B.Pricing, lines: seq<B.LineItem>, count: nat): real
    requires count <= |B.Metrics|
  {
    if count == 0 then BaseFee(pricing)
    else
      var metric := B.Metrics[count - 1];
      ExactCharge(pricing, lines, count - 1)
      + if metric in pricing.rates then Times(BilledQuantity(lines, metric), pricing.rates[metric]) else 0.0
  }

  function UsageLineCount(lines: seq<B.LineItem>): nat {
    if lines == [] then 0
    else UsageLineCount(lines[..|lines| - 1]) + if lines[|lines| - 1].metric.Some? then 1 else 0
  }

  /** Off by half a cent per line at most. */
  predicate Near(total: real, exact: real, lines: nat) {
    -(lines as real / 2.0) <= total - exact <= lines as real / 2.0
  }

  /** The total is within half a cent per usage line of the exact charge. */
  predicate Fair(invoice: B.Invoice) {
    Near(invoice.total, ExactCharge(invoice.pricing, invoice.lines, |B.Metrics|), UsageLineCount(invoice.lines))
  }

  ghost predicate AllExact(b: Books, org: nat, a: Account) {
    forall k :: 0 <= k < |a.invoices| ==> Exact(b, org, a.invoices[k]) && Fair(a.invoices[k])
  }

  predicate InvoicedInThePast(a: Account, billedAt: Option<int>) {
    a.invoices != [] ==> billedAt.Some? && a.start <= billedAt.value
  }

  ghost predicate AccountOk(w: World, org: nat)
    requires org in w.books.accounts
  {
    var a := w.books.accounts[org];
    Tiled(a) && Suspendable(a) && AllExact(w.books, org, a) && InvoicedInThePast(a, w.billedAt)
  }

  function Emissions(events: seq<B.InvoiceRef>, ref: B.InvoiceRef): nat {
    if events == [] then 0
    else Emissions(events[..|events| - 1], ref) + if events[|events| - 1] == ref then 1 else 0
  }

  predicate IsPaid(b: Books, ref: B.InvoiceRef) {
    Known(b, ref) && InvoiceOf(b, ref).status == B.InvoicePaid
  }

  predicate RecordsKnown(b: Books) {
    forall i :: 0 <= i < |b.records| ==> b.records[i].database in b.databases
  }

  predicate PaymentsKnown(b: Books) {
    forall key :: key in b.payments ==> Known(b, b.payments[key].invoice)
  }

  /** invoice.paid has been emitted once for each paid invoice, and for no other. */
  ghost predicate EmittedOnce(b: Books) {
    forall ref :: Emissions(b.paidEvents, ref) == if IsPaid(b, ref) then 1 else 0
  }

  ghost predicate Inv(w: World) {
    && (forall org :: org in w.books.accounts ==> AccountOk(w, org))
    && RecordsKnown(w.books) && PaymentsKnown(w.books) && EmittedOnce(w.books)
  }

  // ------------------------------------------------------------ usage

  lemma {:induction false} UsageAppend(databases: map<nat, nat>, xs: seq<B.UsageRecord>,
                                       ys: seq<B.UsageRecord>, org: nat,
                                       metric: B.Metric, from: int, to: int)
    ensures B.Usage(databases, xs + ys, org, metric, from, to) ==
            B.Usage(databases, xs, org, metric, from, to) + B.Usage(databases, ys, org, metric, from, to)
  {
    if ys == [] {
      assert xs + ys == xs;
    } else {
      UsageAppend(databases, xs, ys[..|ys| - 1], org, metric, from, to);
      assert (xs + ys)[..|xs + ys| - 1] == xs + ys[..|ys| - 1];
    }
  }

  /** Two neighbouring windows count what the joint window counts. */
  lemma {:induction false} UsageSplits(databases: map<nat, nat>, records: seq<B.UsageRecord>, org: nat,
                                       metric: B.Metric,
                                       from: int, mid: int, to: int)
    requires from <= mid <= to
    ensures B.Usage(databases, records, org, metric, from, to) ==
            B.Usage(databases, records, org, metric, from, mid) + B.Usage(databases, records, org, metric, mid, to)
  {
    if records == [] {
    } else {
      UsageSplits(databases, records[..|records| - 1], org, metric, from, mid, to);
    }
  }

  lemma {:induction false} NoneCounts(databases: map<nat, nat>, records: seq<B.UsageRecord>, org: nat, metric: B.Metric,
                                      from: int, to: int)
    requires forall i :: 0 <= i < |records| ==> !B.Counts(databases, records[i], org, metric, from, to)
    ensures B.Usage(databases, records, org, metric, from, to) == 0.0
  {
    if records == [] {
    } else {
      NoneCounts(databases, records[..|records| - 1], org, metric, from, to);
    }
  }

  lemma {:induction false} LaterRecordsDoNotCount(databases: map<nat, nat>, records: seq<B.UsageRecord>,
                                                  readings: seq<B.Reading>,
                                                  now: int, org: nat, metric: B.Metric, from: int, to: int)
    requires to <= now - B.TickInterval
    ensures B.Usage(databases, B.Metered(records, readings, now), org, metric, from, to) ==
            B.Usage(databases, records, org, metric, from, to)
  {
    if readings == [] {
    } else {
      var last := B.RecordsOf(readings[|readings| - 1], now);
      LaterRecordsDoNotCount(databases, records, readings[..|readings| - 1], now, org, metric, from, to);
      UsageAppend(databases, B.Metered(records, readings[..|readings| - 1], now), last, org, metric, from, to);
      NoneCounts(databases, last, org, metric, from, to);
    }
  }

  lemma {:induction false} NewDatabaseHasNoUsage(databases: map<nat, nat>, records: seq<B.UsageRecord>,
                                                 d: nat, owner: nat,
                                                 org: nat, metric: B.Metric, from: int, to: int)
    requires d !in databases && forall i :: 0 <= i < |records| ==> records[i].database in databases
    ensures B.Usage(databases[d := owner], records, org, metric, from, to) ==
            B.Usage(databases, records, org, metric, from, to)
  {
    if records == [] {
    } else {
      NewDatabaseHasNoUsage(databases, records[..|records| - 1], d, owner, org, metric, from, to);
    }
  }

  lemma {:induction false} BilledAppend(xs: seq<B.LineItem>, ys: seq<B.LineItem>, metric: B.Metric)
    ensures BilledQuantity(xs + ys, metric) == BilledQuantity(xs, metric) + BilledQuantity(ys, metric)
  {
    if ys == [] {
      assert xs + ys == xs;
    } else {
      BilledAppend(xs, ys[..|ys| - 1], metric);
      assert (xs + ys)[..|xs + ys| - 1] == xs + ys[..|ys| - 1];
    }
  }

  function Position(metric: B.Metric): (i: nat)
    ensures i < |B.Metrics| && B.Metrics[i] == metric
  {
    match metric
    case CpuHours => 0
    case StorageGbHours => 1
    case ConnectionCount => 2
    case EgressGb => 3
  }

  lemma UsageLinesBill(pricing: B.Pricing, m: B.Metric, quantity: real, metric: B.Metric)
    ensures BilledQuantity(B.UsageLines(pricing, m, quantity), metric) ==
            if m == metric && m in pricing.rates then quantity else 0.0
  {
    var lines := B.UsageLines(pricing, m, quantity);
    if lines != [] {
      assert lines[..0] == [];
      assert BilledQuantity(lines, metric) == BilledQuantity([], metric) + if m == metric then quantity else 0.0;
    }
  }

  lemma BaseLinesBillNoUsage(pricing: B.Pricing, metric: B.Metric)
    ensures BilledQuantity(B.BaseLines(pricing), metric) == 0.0
  {
  }

  /** The lines of a fresh invoice carry exactly the period's usage of every priced metric. */
  lemma {:induction false} LinesBillTheUsage(b: Books, org: nat, count: nat, metric: B.Metric)
    requires org in b.accounts && count <= |B.Metrics|
    ensures
      var a := b.accounts[org];
      BilledQuantity(B.LinesFor(b, org, count), metric) ==
      if metric in a.pricing.rates && Position(metric) < count
      then B.Usage(b.databases, b.records, org, metric, a.start, a.end) else 0.0
  {
    var a := b.accounts[org];
    if count == 0 {
      BaseLinesBillNoUsage(a.pricing, metric);
    } else {
      var m := B.Metrics[count - 1];
      var quantity := B.Usage(b.databases, b.records, org, m, a.start, a.end);
      LinesBillTheUsage(b, org, count - 1, metric);
      UsageLinesBill(a.pricing, m, quantity, metric);
      BilledAppend(B.LinesFor(b, org, count - 1), B.UsageLines(a.pricing, m, quantity), metric);
      assert m == metric <==> Position(metric) == count - 1;
    }
  }

  lemma NewInvoiceIsExact(b: Books, org: nat)
    requires org in b.accounts
    ensures Exact(b, org, B.NewInvoice(b, org))
  {
    var invoice := B.NewInvoice(b, org);
    forall metric: B.Metric
      ensures BilledQuantity(invoice.lines, metric) ==
              if metric in invoice.pricing.rates
              then B.Usage(b.databases, b.records, org, metric, invoice.start, invoice.end) else 0.0
    {
      LinesBillTheUsage(b, org, |B.Metrics|, metric);
    }
  }

  // ------------------------------------------------------------ totals

  lemma {:induction false} TotalAppend(xs: seq<B.LineItem>, ys: seq<B.LineItem>)
    ensures B.TotalOf(xs + ys) == B.TotalOf(xs) + B.TotalOf(ys)
    ensures UsageLineCount(xs + ys) == UsageLineCount(xs) + UsageLineCount(ys)
  {
    if ys == [] {
      assert xs + ys == xs;
    } else {
      TotalAppend(xs, ys[..|ys| - 1]);
      assert (xs + ys)[..|xs + ys| - 1] == xs + ys[..|ys| - 1];
    }
  }

  lemma NearSum(total: real, exact: real, lines: nat, more: real, exactMore: real, moreLines: nat)
    requires Near(total, exact, lines) && Near(more, exactMore, moreLines)
    ensures Near(total + more, exact + exactMore, lines + moreLines)
  {
  }

  function MetricCharge(pricing: B.Pricing, metric: B.Metric, quantity: real): real {
    if metric in pricing.rates then Times(quantity, pricing.rates[metric]) else 0.0
  }

  /** One usage line is off by half a cent at most, and a skipped one by nothing. */
  lemma UsageLinesAreNear(pricing: B.Pricing, metric: B.Metric, quantity: real)
    ensures
      var lines := B.UsageLines(pricing, metric, quantity);
      Near(B.TotalOf(lines), MetricCharge(pricing, metric, quantity), UsageLineCount(lines))
  {
    var lines := B.UsageLines(pricing, metric, quantity);
    if lines != [] {
      assert lines[..0] == [];
      assert B.TotalOf(lines) == B.TotalOf([]) + lines[0].amount;
      assert UsageLineCount(lines) == UsageLineCount([]) + 1;
    } else if metric in pricing.rates {
      assert Times(0.0, pricing.rates[metric]) == 0.0;
    }
  }

  lemma {:induction false} LinesAreNear(b: Books, org: nat, all: seq<B.LineItem>, count: nat)
    requires org in b.accounts && count <= |B.Metrics|
    requires all == B.LinesFor(b, org, |B.Metrics|)
    ensures
      var lines := B.LinesFor(b, org, count);
      Near(B.TotalOf(lines), ExactCharge(b.accounts[org].pricing, all, count), UsageLineCount(lines))
  {
    var a := b.accounts[org];
    if count == 0 {
      BaseLinesTotal(a.pricing);
    } else {
      var metric := B.Metrics[count - 1];
      var quantity := B.Usage(b.databases, b.records, org, metric, a.start, a.end);
      var before, more := B.LinesFor(b, org, count - 1), B.UsageLines(a.pricing, metric, quantity);
      LinesAreNear(b, org, all, count - 1);
      LinesBillTheUsage(b, org, |B.Metrics|, metric);
      UsageLinesAreNear(a.pricing, metric, quantity);
      TotalAppend(before, more);
      NearSum(B.TotalOf(before), ExactCharge(a.pricing, all, count - 1), UsageLineCount(before),
              B.TotalOf(more), MetricCharge(a.pricing, metric, quantity), UsageLineCount(more));
    }
  }

  lemma BaseLinesTotal(pricing: B.Pricing)
    ensures B.TotalOf(B.BaseLines(pricing)) == BaseFee(pricing) && UsageLineCount(B.BaseLines(pricing)) == 0
  {
    var lines := B.BaseLines(pricing);
    if lines != [] {
      assert lines[..0] == [];
      assert B.TotalOf(lines) == B.TotalOf([]) + lines[0].amount;
    }
  }

  lemma NewInvoiceIsFair(b: Books, org: nat)
    requires org in b.accounts
    ensures Fair(B.NewInvoice(b, org))
  {
    LinesAreNear(b, org, B.LinesFor(b, org, |B.Metrics|), |B.Metrics|);
  }

  // ------------------------------------------------------------ every event keeps the invariant

  lemma StaysExact(b: Books, c: Books, org: nat, invoice: B.Invoice, after: B.Invoice)
    requires Exact(b, org, invoice) && Fair(invoice) && b.databases == c.databases && b.records == c.records
    requires after.(status := invoice.status) == invoice
    ensures Exact(c, org, after) && Fair(after)
  {
  }

  /** An account may change its prices or the status of one invoice, or of itself, without touching what was billed. */
  lemma StatusesDoNotBill(w: World, after: World, org: nat)
    requires org in w.books.accounts && org in after.books.accounts && AccountOk(w, org)
    requires after.books.databases == w.books.databases && after.books.records == w.books.records
    requires after.billedAt == w.billedAt
    requires
      var a, c := w.books.accounts[org], after.books.accounts[org];
      && c.since == a.since && c.start == a.start && c.end == a.end && |c.invoices| == |a.invoices|
      && (forall k :: 0 <= k < |a.invoices| ==> c.invoices[k].(status := a.invoices[k].status) == a.invoices[k])
      && Suspendable(c)
    ensures AccountOk(after, org)
  {
    var a, c := w.books.accounts[org], after.books.accounts[org];
    forall k | 0 <= k < |a.invoices| ensures Exact(after.books, org, c.invoices[k]) && Fair(c.invoices[k]) {
      StaysExact(w.books, after.books, org, a.invoices[k], c.invoices[k]);
    }
  }

  /** Paying the one unpaid invoice puts the account back in force. */
  lemma SettlingReactivates(a: Account, i: nat)
    requires Suspendable(a) && i < |a.invoices| && a.invoices[i].status == B.Finalized
    ensures Suspendable(Settled(a, i))
    ensures Settled(a, i).status == B.InForce && !B.HasUnpaid(Settled(a, i).invoices)
    ensures i == |a.invoices| - 1
  {
  }

  lemma EmissionsOneMore(events: seq<B.InvoiceRef>, ref: B.InvoiceRef, r: B.InvoiceRef)
    ensures Emissions(events + [ref], r) == Emissions(events, r) + if ref == r then 1 else 0
  {
    assert (events + [ref])[..|events|] == events;
  }

  lemma MarkingKeepsInv(w: World, ref: B.InvoiceRef)
    requires Inv(w) && Payable(w.books, ref)
    ensures Inv(World(MarkedPaid(w.books, ref), w.billedAt))
  {
    var after := World(MarkedPaid(w.books, ref), w.billedAt);
    assert AccountOk(w, ref.org);
    SettlingReactivates(w.books.accounts[ref.org], ref.invoice);
    forall org | org in after.books.accounts ensures AccountOk(after, org) {
      assert AccountOk(w, org);
      StatusesDoNotBill(w, after, org);
    }
    forall r ensures Emissions(after.books.paidEvents, r) == if IsPaid(after.books, r) then 1 else 0 {
      EmissionsOneMore(w.books.paidEvents, ref, r);
    }
  }

  lemma PaymentRowsKeepInv(w: World, after: World)
    requires Inv(w) && after == w.(books := w.books.(payments := after.books.payments)) && PaymentsKnown(after.books)
    ensures Inv(after)
  {
    forall org | org in after.books.accounts ensures AccountOk(after, org) {
      assert AccountOk(w, org);
      StatusesDoNotBill(w, after, org);
    }
    forall r ensures Emissions(after.books.paidEvents, r) == if IsPaid(after.books, r) then 1 else 0 {
    }
  }

  lemma DeliveryKeepsInv(w: World, m: Message)
    requires Inv(w)
    ensures Inv(Next(w, Deliver(m)))
  {
    var key := KeyOf(m);
    if m.authentic && key in w.books.payments && w.books.payments[key].status == B.PaymentPending {
      var payment := w.books.payments[key];
      var succeeded := w.(books :=
        w.books.(payments := w.books.payments[key := payment.(status := B.PaymentSucceeded)]));
      var failed := w.(books := w.books.(payments := w.books.payments[key := payment.(status := B.PaymentFailed)]));
      PaymentRowsKeepInv(w, succeeded);
      PaymentRowsKeepInv(w, failed);
      if Payable(succeeded.books, payment.invoice) {
        MarkingKeepsInv(succeeded, payment.invoice);
      }
    }
  }

  lemma InvoicingKeepsAccount(w: World, after: World, org: nat, now: int)
    requires org in w.books.accounts && AccountOk(w, org) && org in after.books.accounts
    requires after.books.databases == w.books.databases && after.books.records == w.books.records
    requires after.books.accounts[org] == B.AfterBilling(w.books, org, now) && after.billedAt == Some(now)
    requires w.billedAt.Some? ==> now >= w.billedAt.value
    ensures AccountOk(after, org)
  {
    var a, c := w.books.accounts[org], after.books.accounts[org];
    forall k | 0 <= k < |a.invoices| ensures Exact(after.books, org, a.invoices[k]) && Fair(a.invoices[k]) {
      StaysExact(w.books, after.books, org, a.invoices[k], a.invoices[k]);
    }
    if B.IsDue(a, now) && !B.HasUnpaid(a.invoices) {
      NewInvoiceIsExact(w.books, org);
      NewInvoiceIsFair(w.books, org);
      StaysExact(w.books, after.books, org, B.NewInvoice(w.books, org), B.NewInvoice(w.books, org));
    }
  }

  lemma GeneratingKeepsInv(w: World, now: int)
    requires Inv(w) && Timely(w, Generate(now))
    ensures Inv(Next(w, Generate(now)))
  {
    var after := Next(w, Generate(now));
    forall org | org in after.books.accounts ensures AccountOk(after, org) {
      InvoicingKeepsAccount(w, after, org, now);
    }
    forall r ensures IsPaid(after.books, r) == IsPaid(w.books, r) {
    }
    forall key | key in after.books.payments ensures Known(after.books, after.books.payments[key].invoice) {
      assert Known(w.books, w.books.payments[key].invoice);
    }
  }

  lemma MeteringKeepsInv(w: World, now: int, readings: seq<B.Reading>)
    requires Inv(w) && Timely(w, Meter(now, readings))
    ensures Inv(Next(w, Meter(now, readings)))
  {
    var after := Next(w, Meter(now, readings));
    forall org | org in after.books.accounts ensures AccountOk(after, org) {
      var a := w.books.accounts[org];
      assert AccountOk(w, org);
      forall k | 0 <= k < |a.invoices| ensures Exact(after.books, org, a.invoices[k]) && Fair(a.invoices[k]) {
        MeteringIsLater(w, org, k, now);
        forall metric: B.Metric {
          LaterRecordsDoNotCount(w.books.databases, w.books.records, readings, now, org, metric,
                                 a.invoices[k].start, a.invoices[k].end);
        }
        assert Exact(w.books, org, a.invoices[k]);
      }
    }
    MeteredRecordsAreKnown(w.books, readings, now);
    forall r ensures IsPaid(after.books, r) == IsPaid(w.books, r) {
    }
  }

  /** What is metered now starts after every period invoiced so far. */
  lemma MeteringIsLater(w: World, org: nat, k: nat, now: int)
    requires org in w.books.accounts && AccountOk(w, org) && k < |w.books.accounts[org].invoices|
    requires w.billedAt.Some? ==> now >= w.billedAt.value + B.TickInterval
    ensures w.books.accounts[org].invoices[k].end <= now - B.TickInterval
  {
  }

  lemma {:induction false} MeteredRecordsAreKnown(b: Books, readings: seq<B.Reading>, now: int)
    requires RecordsKnown(b) && forall i :: 0 <= i < |readings| ==> readings[i].database in b.databases
    ensures RecordsKnown(b.(records := B.Metered(b.records, readings, now)))
  {
    if readings == [] {
    } else {
      MeteredRecordsAreKnown(b, readings[..|readings| - 1], now);
    }
  }

  lemma NewDatabaseKeepsInv(w: World, d: nat, owner: nat)
    requires Inv(w)
    ensures Inv(Next(w, NewDatabase(d, owner)))
  {
    var after := Next(w, NewDatabase(d, owner));
    forall org | org in after.books.accounts ensures AccountOk(after, org) {
      var a := w.books.accounts[org];
      assert AccountOk(w, org);
      forall k | 0 <= k < |a.invoices| ensures Exact(after.books, org, a.invoices[k]) && Fair(a.invoices[k]) {
        if d !in w.books.databases {
          forall metric: B.Metric {
            NewDatabaseHasNoUsage(w.books.databases, w.books.records, d, owner, org, metric,
                                  a.invoices[k].start, a.invoices[k].end);
          }
        }
        assert Exact(w.books, org, a.invoices[k]);
      }
    }
    forall r ensures IsPaid(after.books, r) == IsPaid(w.books, r) {
    }
  }

  /** A new account, without invoices. */
  lemma OnboardingKeepsInv(w: World, org: nat, now: int, pricing: B.Pricing)
    requires Inv(w)
    ensures Inv(Next(w, Onboard(org, now, pricing)))
  {
    var after := Next(w, Onboard(org, now, pricing));
    forall o | o in after.books.accounts ensures AccountOk(after, o) {
      if o in w.books.accounts {
        assert AccountOk(w, o);
        StatusesDoNotBill(w, after, o);
      }
    }
    SameInvoicesKeepInv(w, after);
  }

  lemma PlansKeepInv(w: World, org: nat, pricing: B.Pricing)
    requires Inv(w)
    ensures Inv(Next(w, ChangePlan(org, pricing)))
  {
    var after := Next(w, ChangePlan(org, pricing));
    forall o | o in after.books.accounts ensures AccountOk(after, o) {
      assert AccountOk(w, o);
      StatusesDoNotBill(w, after, o);
    }
    SameInvoicesKeepInv(w, after);
  }

  lemma SameInvoicesKeepInv(w: World, after: World)
    requires Inv(w) && after.books == w.books.(accounts := after.books.accounts)
    requires forall org :: org in after.books.accounts ==> AccountOk(after, org)
    requires forall org :: org in w.books.accounts ==>
               org in after.books.accounts && after.books.accounts[org].invoices == w.books.accounts[org].invoices
    requires forall org :: org in after.books.accounts && org !in w.books.accounts ==>
               after.books.accounts[org].invoices == []
    ensures Inv(after)
  {
    forall r ensures IsPaid(after.books, r) == IsPaid(w.books, r) {
    }
    forall key | key in after.books.payments ensures Known(after.books, after.books.payments[key].invoice) {
      assert Known(w.books, w.books.payments[key].invoice);
    }
  }

  lemma NextKeepsInv(w: World, e: Event)
    requires Inv(w) && Timely(w, e)
    ensures Inv(Next(w, e))
  {
    match e {
      case Meter(now, readings) => MeteringKeepsInv(w, now, readings);
      case Generate(now) => GeneratingKeepsInv(w, now);
      case Pay(ref) => if Payable(w.books, ref) { MarkingKeepsInv(w, ref); }
      case Initiate(key, ref) => PaymentRowsKeepInv(w, Next(w, e));
      case Deliver(m) => DeliveryKeepsInv(w, m);
      case NewDatabase(d, org) => NewDatabaseKeepsInv(w, d, org);
      case Onboard(org, now, pricing) => OnboardingKeepsInv(w, org, now, pricing);
      case ChangePlan(org, pricing) => PlansKeepInv(w, org, pricing);
    }
  }

  function Run(w: World, events: seq<Event>): World
    decreases |events|
  {
    if events == [] then w else Run(Next(w, events[0]), events[1..])
  }

  predicate AllTimely(w: World, events: seq<Event>)
    decreases |events|
  {
    events == [] || (Timely(w, events[0]) && AllTimely(Next(w, events[0]), events[1..]))
  }

  lemma {:induction false} RunKeepsInv(w: World, events: seq<Event>)
    requires Inv(w) && AllTimely(w, events)
    ensures Inv(Run(w, events))
    decreases |events|
  {
    if events == [] {
    } else {
      NextKeepsInv(w, events[0]);
      RunKeepsInv(Next(w, events[0]), events[1..]);
    }
  }

  // ------------------------------------------------------------ paid is for good

  lemma PaidStaysPaidOnce(w: World, e: Event, ref: B.InvoiceRef)
    requires IsPaid(w.books, ref)
    ensures IsPaid(Next(w, e).books, ref)
  {
  }

  lemma {:induction false} PaidStaysPaid(w: World, events: seq<Event>, ref: B.InvoiceRef)
    requires IsPaid(w.books, ref)
    ensures IsPaid(Run(w, events).books, ref)
    decreases |events|
  {
    if events == [] {
    } else {
      PaidStaysPaidOnce(w, events[0], ref);
      PaidStaysPaid(Next(w, events[0]), events[1..], ref);
    }
  }
}
