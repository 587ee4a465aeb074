/** What the invariant of every billing run means to a customer. */
module BillingLaws {
  import opened Reals
  import opened Payments
  import opened BillingRuns
  import B = Billing

  function Reached(events: seq<Event>): World
    requires AllTimely(Start, events)
  {
    Run(Start, events)
  }

  lemma ReachedIsOk(events: seq<Event>)
    requires AllTimely(Start, events)
    ensures Inv(Reached(events))
  {
    RunKeepsInv(Start, events);
  }

  // ------------------------------------------------------------ usage is billed exactly once

  predicate InPeriod(r: B.UsageRecord, invoice: B.Invoice) {
    invoice.start <= r.start < invoice.end
  }

  lemma SomePeriodCovers(a: BillingRuns.Account, r: B.UsageRecord) returns (k: nat)
    requires Tiled(a) && a.since <= r.start < a.start
    ensures k < |a.invoices| && InPeriod(r, a.invoices[k])
  {
    k := (r.start - a.since) / B.BillingPeriod;
    assert k * B.BillingPeriod <= r.start - a.since < (k + 1) * B.BillingPeriod;
  }

  lemma PeriodsAreApart(a: BillingRuns.Account, i: nat, j: nat)
    requires Tiled(a) && i < j < |a.invoices|
    ensures a.since <= a.invoices[i].start && a.invoices[i].end <= a.invoices[j].start && a.invoices[j].end <= a.start
  {
  }

  /** A record lies in the period of exactly one invoice if it starts between the first period's beginning and the
      current one's, and of none otherwise. */
  lemma RecordsFallInOnePeriod(events: seq<Event>, org: nat, r: B.UsageRecord)
    requires AllTimely(Start, events) && org in Reached(events).books.accounts
    ensures
      var a := Reached(events).books.accounts[org];
      && (a.since <= r.start < a.start <==> exists k :: 0 <= k < |a.invoices| && InPeriod(r, a.invoices[k]))
      && forall i, j :: 0 <= i < j < |a.invoices| ==> !(InPeriod(r, a.invoices[i]) && InPeriod(r, a.invoices[j]))
  {
    ReachedIsOk(events);
    assert AccountOk(Reached(events), org);
    CoveredOnce(Reached(events).books.accounts[org], r);
  }

  lemma CoveredOnce(a: BillingRuns.Account, r: B.UsageRecord)
    requires Tiled(a)
    ensures a.since <= r.start < a.start <==> exists k :: 0 <= k < |a.invoices| && InPeriod(r, a.invoices[k])
    ensures forall i, j :: 0 <= i < j < |a.invoices| ==> !(InPeriod(r, a.invoices[i]) && InPeriod(r, a.invoices[j]))
  {
    if a.since <= r.start < a.start {
      var k := SomePeriodCovers(a, r);
    }
    forall i, j | 0 <= i < j < |a.invoices| ensures !(InPeriod(r, a.invoices[i]) && InPeriod(r, a.invoices[j])) {
      PeriodsAreApart(a, i, j);
    }
  }

  /** The periods of an organization's invoices follow one another without gap or overlap, 30 days each, up to the
      current period. */
  lemma PeriodsTileTime(events: seq<Event>, org: nat, k: nat)
    requires AllTimely(Start, events) && org in Reached(events).books.accounts
    requires k < |Reached(events).books.accounts[org].invoices|
    ensures
      var a := Reached(events).books.accounts[org];
      && a.invoices[k].end == a.invoices[k].start + B.BillingPeriod
      && a.invoices[k].end == (if k + 1 < |a.invoices| then a.invoices[k + 1].start else a.start)
      && a.invoices[0].start == a.since
      && a.end == a.start + B.BillingPeriod
  {
    ReachedIsOk(events);
    assert AccountOk(Reached(events), org);
  }

  /** Whatever is metered later, an invoice keeps billing exactly the usage recorded for its period, and its total
      is within half a cent per usage line of the unrounded price. */
  lemma InvoicesStayExact(events: seq<Event>, org: nat, k: nat)
    requires AllTimely(Start, events) && org in Reached(events).books.accounts
    requires k < |Reached(events).books.accounts[org].invoices|
    ensures
      var b := Reached(events).books;
      Exact(b, org, b.accounts[org].invoices[k]) && Fair(b.accounts[org].invoices[k])
  {
    ReachedIsOk(events);
    assert AccountOk(Reached(events), org);
  }

  function BilledSoFar(invoices: seq<B.Invoice>, metric: B.Metric): real {
    if invoices == [] then 0.0
    else BilledSoFar(invoices[..|invoices| - 1], metric) + BilledQuantity(invoices[|invoices| - 1].lines, metric)
  }

  lemma LastBilled(b: BillingRuns.Books, org: nat, invoice: B.Invoice, metric: B.Metric)
    requires Exact(b, org, invoice) && metric in invoice.pricing.rates
    ensures BilledQuantity(invoice.lines, metric) ==
            B.Usage(b.databases, b.records, org, metric, invoice.start, invoice.end)
  {
  }

  lemma {:induction false} BilledUpTo(b: BillingRuns.Books, a: BillingRuns.Account, org: nat,
                                      metric: B.Metric, count: nat)
    requires Tiled(a) && AllExact(b, org, a) && count <= |a.invoices|
    requires forall k :: 0 <= k < count ==> metric in a.invoices[k].pricing.rates
    ensures
      BilledSoFar(a.invoices[..count], metric) ==
      B.Usage(b.databases, b.records, org, metric, a.since, a.since + count * B.BillingPeriod)
  {
    if count == 0 {
      NoneCounts(b.databases, b.records, org, metric, a.since, a.since);
    } else {
      BilledUpTo(b, a, org, metric, count - 1);
      assert a.invoices[..count][..count - 1] == a.invoices[..count - 1];
      var last := a.invoices[count - 1];
      LastBilled(b, org, last, metric);
      UsageSplits(b.databases, b.records, org, metric, a.since, last.start, last.end);
    }
  }

  /** All the usage of a metric that was always priced, and nothing else, has been billed when a period ends. */
  lemma UsageIsConserved(events: seq<Event>, org: nat, metric: B.Metric)
    requires AllTimely(Start, events) && org in Reached(events).books.accounts
    requires
      var a := Reached(events).books.accounts[org];
      forall k :: 0 <= k < |a.invoices| ==> metric in a.invoices[k].pricing.rates
    ensures
      var b := Reached(events).books;
      var a := b.accounts[org];
      BilledSoFar(a.invoices, metric) == B.Usage(b.databases, b.records, org, metric, a.since, a.start)
  {
    ReachedIsOk(events);
    var a := Reached(events).books.accounts[org];
    assert AccountOk(Reached(events), org);
    BilledUpTo(Reached(events).books, a, org, metric, |a.invoices|);
    assert a.invoices[..|a.invoices|] == a.invoices;
  }

  /** A database metered within a minute of its organization's creation leaves a record that no invoice covers. */
  lemma EarlyUsageIsNeverBilled(pricing: B.Pricing, later: seq<Event>)
    ensures
      var first := [Onboard(0, 0, pricing), NewDatabase(0, 0), Meter(30 * B.Second, [B.Reading(0, 1.0, 1, 1)])];
      AllTimely(Start, first + later) ==>
        var b := Reached(first + later).books;
        && 0 in b.accounts && |b.records| > 0
        && b.records[0] in B.RecordsOf(B.Reading(0, 1.0, 1, 1), 30 * B.Second)
        && b.records[0].database in b.databases && b.databases[b.records[0].database] == 0
        && forall k :: 0 <= k < |b.accounts[0].invoices| ==> !InPeriod(b.records[0], b.accounts[0].invoices[k])
  {
    var reading := B.Reading(0, 1.0, 1, 1);
    var first := [Onboard(0, 0, pricing), NewDatabase(0, 0), Meter(30 * B.Second, [reading])];
    var w1 := Next(Start, first[0]);
    var w2 := Next(w1, first[1]);
    var w3 := Next(w2, first[2]);
    if AllTimely(Start, first + later) {
      assert (first + later)[1..] == first[1..] + later;
      assert (first[1..] + later)[1..] == first[2..] + later;
      assert (first[2..] + later)[1..] == later;
      assert [reading][..0] == [];
      assert w3.books.records == B.Metered([], [], 30 * B.Second) + B.RecordsOf(reading, 30 * B.Second);
      assert Run(Start, first + later) == Run(w1, first[1..] + later);
      assert Run(w1, first[1..] + later) == Run(w2, first[2..] + later);
      assert Run(w2, first[2..] + later) == Run(w3, later);
      RowsStay(w3, later, 0, 0);
      RecordsFallInOnePeriod(first + later, 0, w3.books.records[0]);
    }
  }

  /** Rows are only ever added: a record, a database and the beginning of an account stay what they are. */
  lemma {:induction false} RowsStay(w: World, events: seq<Event>, org: nat, d: nat)
    requires org in w.books.accounts && d in w.books.databases
    ensures
      var after := Run(w, events).books;
      && w.books.records <= after.records
      && org in after.accounts && after.accounts[org].since == w.books.accounts[org].since
      && d in after.databases && after.databases[d] == w.books.databases[d]
    decreases |events|
  {
    if events == [] {
    } else {
      RowsStayOnce(w, events[0], org, d);
      RowsStay(Next(w, events[0]), events[1..], org, d);
    }
  }

  lemma RowsStayOnce(w: World, e: Event, org: nat, d: nat)
    requires org in w.books.accounts && d in w.books.databases
    ensures
      var after := Next(w, e).books;
      && w.books.records <= after.records
      && org in after.accounts && after.accounts[org].since == w.books.accounts[org].since
      && d in after.databases && after.databases[d] == w.books.databases[d]
  {
    if e.Meter? {
      MeteringAppends(w.books.records, e.readings, e.now);
    }
  }

  lemma {:induction false} MeteringAppends(records: seq<B.UsageRecord>, readings: seq<B.Reading>, now: int)
    ensures records <= B.Metered(records, readings, now)
  {
    if readings == [] {
    } else {
      MeteringAppends(records, readings[..|readings| - 1], now);
    }
  }

  /** One reading of a database adds a minute of its cpu limit and of its storage, and its open connections, to its
      organization's usage in the period that holds the minute's start, and never any egress. */
  lemma ReadingAddsOneMinute(databases: map<nat, nat>, records: seq<B.UsageRecord>, reading: B.Reading, now: int,
                             metric: B.Metric, from: int, to: int)
    requires reading.database in databases && from <= now - B.TickInterval < to
    ensures
      var org := databases[reading.database];
      B.Usage(databases, B.Metered(records, [reading], now), org, metric, from, to) ==
      B.Usage(databases, records, org, metric, from, to) +
      match metric
      case CpuHours => reading.cpuLimit as real / 60.0
      case StorageGbHours => reading.storageGb / 60.0
      case ConnectionCount => reading.connections as real
      case EgressGb => 0.0
  {
    var org := databases[reading.database];
    var added := B.RecordsOf(reading, now);
    assert [reading][..0] == [];
    assert B.Metered(records, [reading], now) == records + added;
    UsageAppend(databases, records, added, org, metric, from, to);
    UsageOfThree(databases, added[0], added[1], added[2], org, metric, from, to);
    HoursOfAMinute(reading.cpuLimit as real);
    HoursOfAMinute(reading.storageGb);
  }

  lemma HoursOfAMinute(x: real)
    ensures Times(x, B.HoursElapsed) == x / 60.0
  {
    assert B.HoursElapsed == 1.0 / 60.0;
  }

  function Counted(databases: map<nat, nat>, r: B.UsageRecord, org: nat, metric: B.Metric, from: int, to: int): real {
    if B.Counts(databases, r, org, metric, from, to) then r.value else 0.0
  }

  lemma UsageOfOne(databases: map<nat, nat>, x: B.UsageRecord, org: nat, metric: B.Metric, from: int, to: int)
    ensures B.Usage(databases, [x], org, metric, from, to) == Counted(databases, x, org, metric, from, to)
  {
    assert [x][..0] == [];
  }

  lemma UsageOfThree(databases: map<nat, nat>, x: B.UsageRecord, y: B.UsageRecord, z: B.UsageRecord, org: nat,
                     metric: B.Metric, from: int, to: int)
    ensures B.Usage(databases, [x, y, z], org, metric, from, to) ==
            Counted(databases, x, org, metric, from, to) + Counted(databases, y, org, metric, from, to)
            + Counted(databases, z, org, metric, from, to)
  {
    UsageAppend(databases, [x, y], [z], org, metric, from, to);
    UsageAppend(databases, [x], [y], org, metric, from, to);
    assert [x, y, z] == [x] + [y] + [z] && [x, y] == [x] + [y];
    UsageOfOne(databases, x, org, metric, from, to);
    UsageOfOne(databases, y, org, metric, from, to);
    UsageOfOne(databases, z, org, metric, from, to);
  }

  // ------------------------------------------------------------ suspension

  /** At most one invoice of an organization is unpaid, the latest; a suspended organization has exactly one; and
      invoice.paid is emitted for an invoice once if it is paid and never if it is not. */
  lemma OneUnpaidInvoiceAtMost(events: seq<Event>, org: nat)
    requires AllTimely(Start, events) && org in Reached(events).books.accounts
    ensures
      var b := Reached(events).books;
      var a := b.accounts[org];
      && (forall i, j :: 0 <= i < |a.invoices| && 0 <= j < |a.invoices| && i != j ==>
            !(a.invoices[i].status == B.Finalized && a.invoices[j].status == B.Finalized))
      && (a.status == B.PastDue ==> B.HasUnpaid(a.invoices))
      && (forall k: nat :: k < |a.invoices| ==>
            Emissions(b.paidEvents, B.InvoiceRef(org, k)) == if a.invoices[k].status == B.InvoicePaid then 1 else 0)
  {
    ReachedIsOk(events);
    assert AccountOk(Reached(events), org);
  }

  /** Whichever way the open invoice gets paid, the organization is back in force and owes nothing. */
  lemma PayingRestoresService(events: seq<Event>, ref: B.InvoiceRef)
    requires AllTimely(Start, events) && Payable(Reached(events).books, ref)
    ensures
      var a := MarkedPaid(Reached(events).books, ref).accounts[ref.org];
      a.status == B.InForce && !B.HasUnpaid(a.invoices)
  {
    ReachedIsOk(events);
    assert AccountOk(Reached(events), ref.org);
    SettlingReactivates(Reached(events).books.accounts[ref.org], ref.invoice);
  }

  /** The scheduler suspends exactly the due organizations whose last invoice is unpaid, and invoices the other due
      ones; nothing else moves. */
  lemma BillingSuspendsExactlyDebtors(events: seq<Event>, now: int, org: nat)
    requires AllTimely(Start, events) && org in Reached(events).books.accounts
    ensures
      var a := Reached(events).books.accounts[org];
      var after := B.Billed(Reached(events).books, now).accounts[org];
      var owes := a.invoices != [] && a.invoices[|a.invoices| - 1].status == B.Finalized;
      && (after.status == B.PastDue <==> a.status == B.PastDue || (a.end <= now && owes))
      && (|after.invoices| == |a.invoices| + 1 <==> a.status == B.InForce && a.end <= now && !owes)
      && (|after.invoices| == |a.invoices| ==> after.invoices == a.invoices && after.start == a.start)
      && a.invoices <= after.invoices && after.pricing == a.pricing && after.since == a.since
  {
    ReachedIsOk(events);
    assert AccountOk(Reached(events), org);
  }

  /** The event pays the invoice: it is open, and an administrator settles it, or the gateway authentically reports
      the money for a payment still pending that was opened for it. */
  predicate Pays(w: World, e: Event, ref: B.InvoiceRef) {
    && Payable(w.books, ref)
    && match e
       case Pay(r) => r == ref
       case Deliver(m) =>
         && m.authentic && Settles(m)
         && KeyOf(m) in w.books.payments && w.books.payments[KeyOf(m)] == B.Payment(ref, B.PaymentPending)
       case _ => false
  }

  lemma CompletionPays(w: World, key: B.PaymentKey, ref: B.InvoiceRef)
    requires Inv(w) && key in w.books.payments && w.books.payments[key].status == B.PaymentPending
    ensures IsPaid(Completed(w.books, key), ref) <==>
              IsPaid(w.books, ref) || (Payable(w.books, ref) && w.books.payments[key].invoice == ref)
  {
    assert Known(w.books, w.books.payments[key].invoice);
  }

  lemma WebhookPaysExactly(w: World, m: Message, ref: B.InvoiceRef)
    requires Inv(w)
    ensures IsPaid(Delivered(w.books, m), ref) <==> IsPaid(w.books, ref) || Pays(w, Deliver(m), ref)
  {
    if KeyOf(m) in w.books.payments && w.books.payments[KeyOf(m)].status == B.PaymentPending {
      CompletionPays(w, KeyOf(m), ref);
    }
  }

  lemma BillingPaysNothing(w: World, now: int, ref: B.InvoiceRef)
    ensures IsPaid(B.Billed(w.books, now), ref) <==> IsPaid(w.books, ref)
  {
  }

  lemma EventPaysExactly(w: World, e: Event, ref: B.InvoiceRef)
    requires Inv(w)
    ensures IsPaid(Next(w, e).books, ref) <==> IsPaid(w.books, ref) || Pays(w, e, ref)
  {
    match e {
      case Deliver(m) => WebhookPaysExactly(w, m, ref);
      case Generate(now) => BillingPaysNothing(w, now, ref);
      case _ =>
    }
  }

  predicate PaidAlong(w: World, events: seq<Event>, ref: B.InvoiceRef)
    decreases |events|
  {
    events != [] && (Pays(w, events[0], ref) || PaidAlong(Next(w, events[0]), events[1..], ref))
  }

  /** An invoice is paid after a run exactly when it was paid before or some event of the run pays it: no other
      message, and no billing, ever marks an invoice paid. */
  lemma {:induction false} PaidExactlyByItsPayments(w: World, events: seq<Event>, ref: B.InvoiceRef)
    requires Inv(w) && AllTimely(w, events)
    ensures IsPaid(Run(w, events).books, ref) <==> IsPaid(w.books, ref) || PaidAlong(w, events, ref)
    decreases |events|
  {
    if events == [] {
    } else {
      EventPaysExactly(w, events[0], ref);
      NextKeepsInv(w, events[0]);
      PaidExactlyByItsPayments(Next(w, events[0]), events[1..], ref);
    }
  }

  // ------------------------------------------------------------ repeated webhooks

  /** The message has been acted on, or never will be. */
  predicate Spent(b: BillingRuns.Books, m: Message) {
    && (m.authentic ==> KeyOf(m) in b.payments)
    && (m.authentic && (Settles(m) || Refuses(m)) ==> b.payments[KeyOf(m)].status != B.PaymentPending)
  }

  lemma SpentMessagesDoNothing(b: BillingRuns.Books, m: Message)
    requires Spent(b, m)
    ensures Delivered(b, m) == b
  {
  }

  lemma DeliverySpends(b: BillingRuns.Books, m: Message)
    requires m.authentic ==> KeyOf(m) in b.payments
    ensures Spent(Delivered(b, m), m)
  {
  }

  lemma SpentStaysSpent(w: World, e: Event, m: Message)
    requires Spent(w.books, m)
    ensures Spent(Next(w, e).books, m)
  {
  }

  /** The run without the webhook messages that repeat one delivered after its payment's row existed. */
  function Deduplicated(w: World, seen: set<Message>, events: seq<Event>): seq<Event>
    decreases |events|
  {
    if events == [] then []
    else
      var e := events[0];
      if e.Deliver? && e.m in seen then Deduplicated(w, seen, events[1..])
      else
        var nowSeen := if e.Deliver? && (e.m.authentic ==> KeyOf(e.m) in w.books.payments) then seen + {e.m} else seen;
        [e] + Deduplicated(Next(w, e), nowSeen, events[1..])
  }

  /** Dropping those messages changes nothing: not a payment, an invoice, a subscription or an emitted event. */
  lemma {:induction false} RepeatedWebhooksChangeNothing(w: World, seen: set<Message>, events: seq<Event>)
    requires forall m :: m in seen ==> Spent(w.books, m)
    ensures Run(w, Deduplicated(w, seen, events)) == Run(w, events)
    decreases |events|
  {
    if events == [] {
    } else {
      var e := events[0];
      if e.Deliver? && e.m in seen {
        SpentMessagesDoNothing(w.books, e.m);
        assert Next(w, e) == w;
        RepeatedWebhooksChangeNothing(w, seen, events[1..]);
      } else {
        forall m | m in seen ensures Spent(Next(w, e).books, m) {
          SpentStaysSpent(w, e, m);
        }
        var nowSeen := if e.Deliver? && (e.m.authentic ==> KeyOf(e.m) in w.books.payments) then seen + {e.m} else seen;
        if nowSeen != seen {
          DeliverySpends(w.books, e.m);
        }
        RepeatedWebhooksChangeNothing(Next(w, e), nowSeen, events[1..]);
        var rest := Deduplicated(Next(w, e), nowSeen, events[1..]);
        assert ([e] + rest)[1..] == rest;
      }
    }
  }
}
