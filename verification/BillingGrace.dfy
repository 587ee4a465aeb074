/** How long an organization really has to pay before it is suspended. */
module BillingGrace {
  import opened Wrappers
  import opened Payments
  import opened BillingRuns
  import B = Billing

  /** The organization's last invoice is unpaid. */
  predicate Owes(a: BillingRuns.Account) {
    a.invoices != [] && a.invoices[|a.invoices| - 1].status == B.Finalized
  }

  /** Some run of the scheduler's billing comes at or after the moment. */
  predicate BilledFrom(events: seq<Event>, moment: int) {
    exists i :: 0 <= i < |events| && events[i].Generate? && events[i].now >= moment
  }

  /** The account of a debtor after an event that leaves its invoice unpaid: nothing happens to it but suspension. */
  predicate StillOwes(a: BillingRuns.Account, c: BillingRuns.Account, e: Event) {
    && c.end == a.end && |c.invoices| == |a.invoices| && Owes(c)
    && c.status == if e.Generate? && e.now >= a.end then B.PastDue else a.status
  }

  lemma BillingADebtor(w: World, now: int, org: nat)
    requires Inv(w) && org in w.books.accounts && Owes(w.books.accounts[org])
    ensures org in Next(w, Generate(now)).books.accounts
    ensures StillOwes(w.books.accounts[org], Next(w, Generate(now)).books.accounts[org], Generate(now))
  {
    assert AccountOk(w, org);
  }

  lemma MarkingADebtor(w: World, ref: B.InvoiceRef, org: nat)
    requires Inv(w) && org in w.books.accounts && Owes(w.books.accounts[org]) && Payable(w.books, ref)
    ensures
      var a, b := w.books.accounts[org], MarkedPaid(w.books, ref);
      && org in b.accounts
      && if ref.org == org then IsPaid(b, B.InvoiceRef(org, |a.invoices| - 1)) else b.accounts[org] == a
  {
    assert AccountOk(w, org);
    if ref.org == org {
      SettlingReactivates(w.books.accounts[org], ref.invoice);
    }
  }

  predicate PaysOrOwes(w: World, e: Event, org: nat)
    requires org in w.books.accounts && Owes(w.books.accounts[org])
  {
    var after, last := Next(w, e).books, |w.books.accounts[org].invoices| - 1;
    org in after.accounts
    && (IsPaid(after, B.InvoiceRef(org, last)) || StillOwes(w.books.accounts[org], after.accounts[org], e))
  }

  lemma PaymentByADebtor(w: World, ref: B.InvoiceRef, org: nat)
    requires Inv(w) && org in w.books.accounts && Owes(w.books.accounts[org])
    ensures PaysOrOwes(w, Pay(ref), org)
  {
    if Payable(w.books, ref) {
      MarkingADebtor(w, ref, org);
    }
  }

  lemma DeliveryToADebtor(w: World, m: Message, org: nat)
    requires Inv(w) && org in w.books.accounts && Owes(w.books.accounts[org])
    ensures PaysOrOwes(w, Deliver(m), org)
  {
    if KeyOf(m) in w.books.payments && Payable(w.books, w.books.payments[KeyOf(m)].invoice) {
      MarkingADebtor(w, w.books.payments[KeyOf(m)].invoice, org);
    }
  }

  lemma NothingForADebtor(w: World, e: Event, org: nat)
    requires org in w.books.accounts && Owes(w.books.accounts[org])
    requires e.Onboard? || e.NewDatabase? || e.ChangePlan? || e.Meter? || e.Initiate?
    ensures PaysOrOwes(w, e, org)
  {
  }

  /** One event in the life of a debtor: either it pays, or nothing happens to it but suspension. */
  lemma DebtorStep(w: World, e: Event, org: nat)
    requires Inv(w) && org in w.books.accounts && Owes(w.books.accounts[org])
    ensures PaysOrOwes(w, e, org)
  {
    match e {
      case Generate(now) => BillingADebtor(w, now, org);
      case Pay(ref) => PaymentByADebtor(w, ref, org);
      case Deliver(m) => DeliveryToADebtor(w, m, org);
      case _ => NothingForADebtor(w, e, org);
    }
  }

  /** An organization that does not pay is suspended exactly by the first billing at or after the end of its
      current period, whatever else happens. */
  lemma {:induction false} SuspendedExactlyFromPeriodEnd(w: World, events: seq<Event>, org: nat)
    requires Inv(w) && AllTimely(w, events) && org in w.books.accounts
    requires Owes(w.books.accounts[org])
    requires
      var ref := B.InvoiceRef(org, |w.books.accounts[org].invoices| - 1);
      !IsPaid(Run(w, events).books, ref)
    ensures
      var a := w.books.accounts[org];
      org in Run(w, events).books.accounts &&
      var c := Run(w, events).books.accounts[org];
      && c.end == a.end && |c.invoices| == |a.invoices|
      && (c.status == B.PastDue <==> a.status == B.PastDue || BilledFrom(events, a.end))
    decreases |events|
  {
    if events == [] {
    } else {
      var e, rest := events[0], events[1..];
      var ref := B.InvoiceRef(org, |w.books.accounts[org].invoices| - 1);
      DebtorStep(w, e, org);
      if IsPaid(Next(w, e).books, ref) {
        PaidStaysPaid(Next(w, e), rest, ref);
        assert false;
      } else {
        NextKeepsInv(w, e);
        SuspendedExactlyFromPeriodEnd(Next(w, e), rest, org);
        BilledFromCons(e, rest, w.books.accounts[org].end);
        assert events == [e] + rest;
      }
    }
  }

  lemma BilledFromCons(e: Event, rest: seq<Event>, moment: int)
    ensures BilledFrom([e] + rest, moment) <==> (e.Generate? && e.now >= moment) || BilledFrom(rest, moment)
  {
    var all := [e] + rest;
    if e.Generate? && e.now >= moment {
      assert all[0] == e;
    }
    if i :| 0 <= i < |rest| && rest[i].Generate? && rest[i].now >= moment {
      assert all[i + 1] == rest[i];
    }
    if i :| 0 <= i < |all| && all[i].Generate? && all[i].now >= moment {
      assert i > 0 ==> rest[i - 1] == all[i];
    }
  }

  /** Invoiced at the given moment: due, and without debts. */
  predicate InvoicedAt(w: World, now: int, org: nat) {
    org in w.books.accounts && B.IsDue(w.books.accounts[org], now) && !B.HasUnpaid(w.books.accounts[org].invoices)
  }

  /** The promised full period to pay is given exactly when the invoice is made at the very end of its period; made
      later, it is due for suspension that much sooner, and at the next tick if the next period is over as well. */
  lemma FullPeriodToPayIff(w: World, now: int, org: nat)
    requires Inv(w) && Timely(w, Generate(now)) && InvoicedAt(w, now, org)
    ensures
      var end := w.books.accounts[org].end;
      var after := Next(w, Generate(now)).books;
      && org in after.accounts && Owes(after.accounts[org])
      && (forall t :: org in B.Billed(after, t).accounts)
      && (forall t :: B.Billed(after, t).accounts[org].status == B.PastDue <==> t >= end + B.BillingPeriod)
      && ((forall t :: now <= t < now + B.BillingPeriod ==> B.Billed(after, t).accounts[org].status == B.InForce)
          <==> now == end)
      && (B.Billed(after, now + B.TickInterval).accounts[org].status == B.PastDue
          <==> now + B.TickInterval >= end + B.BillingPeriod)
  {
    assert AccountOk(w, org);
    var end := w.books.accounts[org].end;
    var after := Next(w, Generate(now)).books;
    SuspensionMoment(w, now, org);
    var late := if now > end + B.BillingPeriod then now else end + B.BillingPeriod;
    assert now != end ==> B.Billed(after, late).accounts[org].status == B.PastDue;
  }

  lemma SuspensionMoment(w: World, now: int, org: nat)
    requires Inv(w) && Timely(w, Generate(now)) && InvoicedAt(w, now, org)
    ensures
      var after := Next(w, Generate(now)).books;
      && org in after.accounts && Owes(after.accounts[org]) && after.accounts[org].status == B.InForce
      && after.accounts[org].end == w.books.accounts[org].end + B.BillingPeriod
    ensures
      var after := Next(w, Generate(now)).books;
      forall t :: org in B.Billed(after, t).accounts
                  && (B.Billed(after, t).accounts[org].status == B.PastDue
                      <==> t >= w.books.accounts[org].end + B.BillingPeriod)
  {
    assert AccountOk(w, org);
    var c := Next(w, Generate(now)).books.accounts[org];
    assert c.invoices[|c.invoices| - 1].status == B.Finalized;
  }

  // ------------------------------------------------------------ sixty seconds to pay

  const Day: int := 24 * 3600 * B.Second

  /** Suspended on day 60 over its first invoice, the organization pays late and is invoiced for its second period
      on day 95, when its third is over too; the next tick suspends it again. */
  function LatePayer(pricing: B.Pricing): seq<Event> {
    [Onboard(0, 0, pricing), Generate(30 * Day), Generate(60 * Day), Pay(B.InvoiceRef(0, 0)),
     Generate(95 * Day), Generate(95 * Day + B.TickInterval)]
  }

  /** What matters of the organization's account along that run. */
  predicate Stands(w: World, end: int, status: B.SubscriptionStatus, paid: seq<bool>, billedAt: Option<int>) {
    && 0 in w.books.accounts
    && var a := w.books.accounts[0];
       && a.end == end && a.status == status && w.billedAt == billedAt
       && |a.invoices| == |paid|
       && forall k :: 0 <= k < |paid| ==> a.invoices[k].status == if paid[k] then B.InvoicePaid else B.Finalized
  }

  lemma BillingStands(w: World, now: int, end: int, status: B.SubscriptionStatus,
                      paid: seq<bool>, billedAt: Option<int>)
    requires Stands(w, end, status, paid, billedAt)
    ensures
      var after := Next(w, Generate(now));
      if status != B.InForce || end > now then Stands(after, end, status, paid, Some(now))
      else if false in paid then Stands(after, end, B.PastDue, paid, Some(now))
      else Stands(after, end + B.BillingPeriod, B.InForce, paid + [false], Some(now))
  {
    var a := w.books.accounts[0];
    if false in paid {
      var k :| 0 <= k < |paid| && paid[k] == false;
      assert a.invoices[k].status == B.Finalized;
    } else {
      forall k | 0 <= k < |paid| ensures a.invoices[k].status == B.InvoicePaid {
        assert paid[k] in paid;
      }
    }
  }

  lemma LatePaymentReactivates(w: World, end: int, billedAt: Option<int>)
    requires Stands(w, end, B.PastDue, [false], billedAt)
    ensures Stands(Next(w, Pay(B.InvoiceRef(0, 0))), end, B.InForce, [true], billedAt)
  {
  }

  /** The invoice of day 95 leaves one minute to pay. */
  lemma SixtySecondsToPay(pricing: B.Pricing)
    ensures AllTimely(Start, LatePayer(pricing))
    ensures Stands(Run(Start, LatePayer(pricing)[..5]), 90 * Day, B.InForce, [true, false], Some(95 * Day))
    ensures
      Stands(Run(Start, LatePayer(pricing)), 90 * Day, B.PastDue, [true, false], Some(95 * Day + B.TickInterval))
  {
    var e := LatePayer(pricing);
    var w1 := Next(Start, e[0]);
    assert Stands(w1, 30 * Day, B.InForce, [], None);
    var w2 := Next(w1, e[1]);
    BillingStands(w1, 30 * Day, 30 * Day, B.InForce, [], None);
    assert [] + [false] == [false];
    var w3 := Next(w2, e[2]);
    BillingStands(w2, 60 * Day, 60 * Day, B.InForce, [false], Some(30 * Day));
    var w4 := Next(w3, e[3]);
    LatePaymentReactivates(w3, 60 * Day, Some(60 * Day));
    var w5 := Next(w4, e[4]);
    BillingStands(w4, 95 * Day, 60 * Day, B.InForce, [true], Some(60 * Day));
    assert [true] + [false] == [true, false];
    BillingStands(w5, 95 * Day + B.TickInterval, 90 * Day, B.InForce, [true, false], Some(95 * Day));
    Unroll(e, w1, w2, w3, w4, w5);
  }

  /** A run of six events, event by event. */
  lemma Unroll(e: seq<Event>, w1: World, w2: World, w3: World, w4: World, w5: World)
    requires |e| == 6 && w1 == Next(Start, e[0]) && w2 == Next(w1, e[1]) && w3 == Next(w2, e[2])
    requires w4 == Next(w3, e[3]) && w5 == Next(w4, e[4])
    ensures Run(Start, e[..5]) == w5 && Run(Start, e) == Next(w5, e[5])
    ensures
      AllTimely(Start, e) <==>
      && Timely(Start, e[0]) && Timely(w1, e[1]) && Timely(w2, e[2]) && Timely(w3, e[3])
      && Timely(w4, e[4]) && Timely(w5, e[5])
  {
    Tails(e, w1, w2, w3, w4, w5);
    Tails(e[..5], w1, w2, w3, w4, w5);
    assert Run(w5, []) == w5 && AllTimely(Next(w5, e[5]), []);
  }

  lemma Tails(e: seq<Event>, w1: World, w2: World, w3: World, w4: World, w5: World)
    requires |e| >= 5 && w1 == Next(Start, e[0]) && w2 == Next(w1, e[1]) && w3 == Next(w2, e[2])
    requires w4 == Next(w3, e[3]) && w5 == Next(w4, e[4])
    ensures Run(Start, e) == Run(w5, e[5..])
    ensures
      AllTimely(Start, e) <==>
      && Timely(Start, e[0]) && Timely(w1, e[1]) && Timely(w2, e[2]) && Timely(w3, e[3]) && Timely(w4, e[4])
      && AllTimely(w5, e[5..])
  {
    assert e[1..][1..] == e[2..] && e[2..][1..] == e[3..] && e[3..][1..] == e[4..] && e[4..][1..] == e[5..];
    assert Run(w4, e[4..]) == Run(w5, e[5..]);
    assert Run(w3, e[3..]) == Run(w4, e[4..]);
    assert Run(w2, e[2..]) == Run(w3, e[3..]);
    assert Run(w1, e[1..]) == Run(w2, e[2..]);
    assert AllTimely(w4, e[4..]) <==> Timely(w4, e[4]) && AllTimely(w5, e[5..]);
    assert AllTimely(w3, e[3..]) <==> Timely(w3, e[3]) && AllTimely(w4, e[4..]);
    assert AllTimely(w2, e[2..]) <==> Timely(w2, e[2]) && AllTimely(w3, e[3..]);
    assert AllTimely(w1, e[1..]) <==> Timely(w1, e[1]) && AllTimely(w2, e[2..]);
  }
}
