/** From readings to invoices: everything metered in a period is billed, reading by reading. */
module Metering {
  import opened Reals
  import opened BillingRuns
  import opened BillingLaws
  import B = Billing

  /** What one minute of a database comes to: hours of cpu limit and of storage, open connections, no egress. */
  function MinuteOf(reading: B.Reading, metric: B.Metric): real {
    match metric
    case CpuHours => reading.cpuLimit as real / 60.0
    case StorageGbHours => reading.storageGb / 60.0
    case ConnectionCount => reading.connections as real
    case EgressGb => 0.0
  }

  /** The minutes of all the readings of an organization's databases. */
  function MinutesOf(databases: map<nat, nat>, readings: seq<B.Reading>, org: nat, metric: B.Metric): real {
    if readings == [] then 0.0
    else
      var last := readings[|readings| - 1];
      MinutesOf(databases, readings[..|readings| - 1], org, metric)
      + if last.database in databases && databases[last.database] == org then MinuteOf(last, metric) else 0.0
  }

  lemma ReadingAdds(databases: map<nat, nat>, records: seq<B.UsageRecord>, reading: B.Reading, now: int,
                    org: nat, metric: B.Metric, from: int, to: int)
    ensures
      var counts := reading.database in databases && databases[reading.database] == org
                    && from <= now - 60 * B.Second < to;
      B.Usage(databases, records + B.RecordsOf(reading, now), org, metric, from, to) ==
      B.Usage(databases, records, org, metric, from, to) + if counts then MinuteOf(reading, metric) else 0.0
  {
    var added := B.RecordsOf(reading, now);
    UsageAppend(databases, records, added, org, metric, from, to);
    UsageOfThree(databases, added[0], added[1], added[2], org, metric, from, to);
    HoursOfAMinute(reading.cpuLimit as real);
    HoursOfAMinute(reading.storageGb);
  }

  /** The minute that a reading was taken of. */
  predicate IsOf(r: B.UsageRecord, reading: B.Reading, now: int) {
    r.database == reading.database && r.start == now - 60 * B.Second && r.end == now
  }

  /** A tick writes three records for every reading, for the minute that ends now, and keeps those before. */
  lemma {:induction false} MeteringWritesThreeEach(records: seq<B.UsageRecord>, readings: seq<B.Reading>, now: int)
    ensures |B.Metered(records, readings, now)| == |records| + 3 * |readings|
    ensures records <= B.Metered(records, readings, now)
    ensures
      var after := B.Metered(records, readings, now);
      forall k :: |records| <= k < |after| ==> IsOf(after[k], readings[(k - |records|) / 3], now)
  {
    if readings == [] {
    } else {
      var init := readings[..|readings| - 1];
      MeteringWritesThreeEach(records, init, now);
      var before, after := B.Metered(records, init, now), B.Metered(records, readings, now);
      forall k | |records| <= k < |after| ensures IsOf(after[k], readings[(k - |records|) / 3], now) {
        if k < |before| {
          assert after[k] == before[k] && (k - |records|) / 3 < |init|;
        } else {
          assert after[k] == B.RecordsOf(readings[|init|], now)[k - |before|] && (k - |records|) / 3 == |init|;
        }
      }
    }
  }

  /** An organization's usage grows by the minutes of all its readings, in the windows that hold the minute's start,
      and by nothing else. */
  lemma {:induction false} MeteringAddsEveryReading(databases: map<nat, nat>, records: seq<B.UsageRecord>,
                                                    readings: seq<B.Reading>, now: int, org: nat, metric: B.Metric,
                                                    from: int, to: int)
    ensures
      B.Usage(databases, B.Metered(records, readings, now), org, metric, from, to) ==
      B.Usage(databases, records, org, metric, from, to)
      + if from <= now - 60 * B.Second < to then MinutesOf(databases, readings, org, metric) else 0.0
  {
    if readings == [] {
    } else {
      var init, last := readings[..|readings| - 1], readings[|readings| - 1];
      MeteringAddsEveryReading(databases, records, init, now, org, metric, from, to);
      ReadingAdds(databases, B.Metered(records, init, now), last, now, org, metric, from, to);
    }
  }

  // ------------------------------------------------------------ over a run

  function MeteredBy(w: World, e: Event, org: nat, metric: B.Metric, from: int, to: int): real {
    if e.Meter? && from <= e.now - 60 * B.Second < to then MinutesOf(w.books.databases, e.readings, org, metric)
    else 0.0
  }

  /** The minutes read along a run, with the owners the databases had then. */
  function MeteredAlong(w: World, events: seq<Event>, org: nat, metric: B.Metric, from: int, to: int): real
    decreases |events|
  {
    if events == [] then 0.0
    else
      MeteredBy(w, events[0], org, metric, from, to)
      + MeteredAlong(Next(w, events[0]), events[1..], org, metric, from, to)
  }

  lemma EventMeters(w: World, e: Event, org: nat, metric: B.Metric, from: int, to: int)
    requires RecordsKnown(w.books)
    ensures
      var after := Next(w, e).books;
      B.Usage(after.databases, after.records, org, metric, from, to) ==
      B.Usage(w.books.databases, w.books.records, org, metric, from, to) + MeteredBy(w, e, org, metric, from, to)
  {
    match e {
      case Meter(now, readings) =>
        MeteringAddsEveryReading(w.books.databases, w.books.records, readings, now, org, metric, from, to);
      case NewDatabase(d, owner) =>
        if d !in w.books.databases {
          NewDatabaseHasNoUsage(w.books.databases, w.books.records, d, owner, org, metric, from, to);
        }
      case _ =>
    }
  }

  lemma {:induction false} UsageIsWhatWasMetered(w: World, events: seq<Event>, org: nat, metric: B.Metric,
                                                 from: int, to: int)
    requires Inv(w) && AllTimely(w, events)
    ensures
      var after := Run(w, events).books;
      B.Usage(after.databases, after.records, org, metric, from, to) ==
      B.Usage(w.books.databases, w.books.records, org, metric, from, to)
      + MeteredAlong(w, events, org, metric, from, to)
    decreases |events|
  {
    if events == [] {
    } else {
      EventMeters(w, events[0], org, metric, from, to);
      NextKeepsInv(w, events[0]);
      UsageIsWhatWasMetered(Next(w, events[0]), events[1..], org, metric, from, to);
    }
  }

  /** Over any run, what the invoices bill of a metric that was always priced is what was read of the organization's
      databases between its first period's start and its current one's. */
  lemma BilledIsWhatWasMetered(events: seq<Event>, org: nat, metric: B.Metric)
    requires AllTimely(Start, events) && org in Reached(events).books.accounts
    requires
      var a := Reached(events).books.accounts[org];
      forall k :: 0 <= k < |a.invoices| ==> metric in a.invoices[k].pricing.rates
    ensures
      var a := Reached(events).books.accounts[org];
      BilledSoFar(a.invoices, metric) == MeteredAlong(Start, events, org, metric, a.since, a.start)
  {
    var a := Reached(events).books.accounts[org];
    UsageIsConserved(events, org, metric);
    UsageIsWhatWasMetered(Start, events, org, metric, a.since, a.start);
  }

  // ------------------------------------------------------------ the lines of an invoice

  /** The base fee as it is; usage at the plan's price, rounded to the cent; nothing for a metric that was not used. */
  ghost predicate Itemized(b: B.Books, org: nat, line: B.LineItem)
    requires org in b.accounts
  {
    var a := b.accounts[org];
    match line.metric
    case None => line.quantity == 1.0 && line.amount == line.unitPrice == a.pricing.baseFee > 0.0
    case Some(metric) =>
      && metric in a.pricing.rates && line.unitPrice == a.pricing.rates[metric]
      && line.quantity == B.Usage(b.databases, b.records, org, metric, a.start, a.end) != 0.0
      && -0.5 <= line.amount - Times(line.quantity, line.unitPrice) <= 0.5
      && line.amount == line.amount.Floor as real
  }

  lemma {:induction false} LinesAreItemized(b: B.Books, org: nat, count: nat)
    requires org in b.accounts && count <= |B.Metrics|
    ensures
      forall i :: 0 <= i < |B.LinesFor(b, org, count)| ==> Itemized(b, org, B.LinesFor(b, org, count)[i])
  {
    if count == 0 {
    } else {
      LinesAreItemized(b, org, count - 1);
      var a, metric := b.accounts[org], B.Metrics[count - 1];
      var quantity := B.Usage(b.databases, b.records, org, metric, a.start, a.end);
      forall i | 0 <= i < |B.UsageLines(a.pricing, metric, quantity)|
        ensures Itemized(b, org, B.UsageLines(a.pricing, metric, quantity)[i])
      {
      }
    }
  }

  /** Every line of a new invoice is one of these. */
  lemma NewInvoiceIsItemized(b: B.Books, org: nat)
    requires org in b.accounts
    ensures
      var invoice := B.NewInvoice(b, org);
      forall i :: 0 <= i < |invoice.lines| ==> Itemized(b, org, invoice.lines[i])
  {
    LinesAreItemized(b, org, |B.Metrics|);
  }
}
