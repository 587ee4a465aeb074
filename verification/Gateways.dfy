/** What a gateway's report does, told by its fields and the rows it finds. */
module Gateways {
  import opened Payments
  import opened BillingRuns
  import opened BillingLaws
  import B = Billing

  /** A report without a valid signature, for a payment nobody opened, or for one that is already decided, does
      nothing. */
  lemma OtherReportsDoNothing(b: BillingRuns.Books, m: Message, key: B.PaymentKey)
    requires key == B.PaymentKey(if m.NowMessage? then B.NowPayments else B.FedaPay, m.id)
    requires !m.authentic || key !in b.payments || b.payments[key].status != B.PaymentPending
    ensures Delivered(b, m) == b
  {
  }

  /** The payment takes the new status; if it succeeds an invoice not paid yet becomes PAID, and invoice.paid is
      emitted for it. */
  predicate Decides(b: BillingRuns.Books, key: B.PaymentKey, status: B.PaymentStatus, after: BillingRuns.Books)
    requires key in b.payments
  {
    var ref := b.payments[key].invoice;
    var pays := status == B.PaymentSucceeded && Known(b, ref) && InvoiceOf(b, ref).status == B.Finalized;
    && after.payments == b.payments[key := B.Payment(ref, status)]
    && after.paidEvents == b.paidEvents + (if pays then [ref] else [])
    && (if pays then OnlyPaid(b, ref, after) else after.accounts == b.accounts)
    && after.databases == b.databases && after.records == b.records
  }

  /** That invoice is PAID now, and its organization is back in force if it owes nothing else; nothing else about it, or
      about any other, has changed. */
  predicate OnlyPaid(b: BillingRuns.Books, ref: B.InvoiceRef, after: BillingRuns.Books)
    requires Known(b, ref)
  {
    && after.accounts.Keys == b.accounts.Keys
    && (forall org :: org in b.accounts && org != ref.org ==> after.accounts[org] == b.accounts[org])
    && var a, c := b.accounts[ref.org], after.accounts[ref.org];
       && c == a.(status := c.status, invoices := c.invoices) && |c.invoices| == |a.invoices|
       && (forall k :: 0 <= k < |a.invoices| ==>
             c.invoices[k] == if k == ref.invoice then a.invoices[k].(status := B.InvoicePaid) else a.invoices[k])
       && (c.status == B.PastDue <==>
             a.status == B.PastDue && exists k :: 0 <= k < |c.invoices| && c.invoices[k].status == B.Finalized)
  }

  lemma MarkingPaysOnly(b: BillingRuns.Books, ref: B.InvoiceRef)
    requires Known(b, ref)
    ensures OnlyPaid(b, ref, MarkedPaid(b, ref))
  {
    var a, c := b.accounts[ref.org], MarkedPaid(b, ref).accounts[ref.org];
    forall k | 0 <= k < |a.invoices| && k != ref.invoice ensures c.invoices[k] == a.invoices[k] {
    }
    if OtherUnpaid(a.invoices, ref.invoice) {
      var k :| 0 <= k < |a.invoices| && k != ref.invoice && a.invoices[k].status == B.Finalized;
      assert c.invoices[k].status == B.Finalized;
    }
  }

  lemma CompletionDecides(b: BillingRuns.Books, key: B.PaymentKey)
    requires key in b.payments && b.payments[key].status == B.PaymentPending
    ensures Decides(b, key, B.PaymentSucceeded, Completed(b, key))
  {
    var ref := b.payments[key].invoice;
    if Known(b, ref) {
      MarkingPaysOnly(b.(payments := b.payments[key := B.Payment(ref, B.PaymentSucceeded)]), ref);
    }
  }

  /** An authentic NOWPayments report on a pending payment: finished, or partially paid with at most half a dollar
      missing, settles it; failed or expired with nothing paid refuses it; any other report changes nothing. */
  lemma NowReportDecides(b: BillingRuns.Books, m: Message)
    requires m.NowMessage? && m.authentic && B.PaymentKey(B.NowPayments, m.id) in b.payments
    requires b.payments[B.PaymentKey(B.NowPayments, m.id)].status == B.PaymentPending
    ensures
      var key := B.PaymentKey(B.NowPayments, m.id);
      if m.now == NowFinished || (m.now == NowPartiallyPaid && m.price - m.actuallyPaid <= 0.5) then
        Decides(b, key, B.PaymentSucceeded, Delivered(b, m))
      else if (m.now == NowFailed || m.now == NowExpired) && m.actuallyPaid == 0.0 then
        Decides(b, key, B.PaymentFailed, Delivered(b, m))
      else Delivered(b, m) == b
  {
    CompletionDecides(b, B.PaymentKey(B.NowPayments, m.id));
  }

  /** An authentic FedaPay report on a pending payment: approved settles it, declined or canceled refuses it. */
  lemma FedaReportDecides(b: BillingRuns.Books, m: Message)
    requires m.FedaMessage? && m.authentic && B.PaymentKey(B.FedaPay, m.id) in b.payments
    requires b.payments[B.PaymentKey(B.FedaPay, m.id)].status == B.PaymentPending
    ensures
      var key := B.PaymentKey(B.FedaPay, m.id);
      if m.feda == FedaApproved then Decides(b, key, B.PaymentSucceeded, Delivered(b, m))
      else if m.feda == FedaDeclined || m.feda == FedaCanceled then
        Decides(b, key, B.PaymentFailed, Delivered(b, m))
      else Delivered(b, m) == b
  {
    CompletionDecides(b, B.PaymentKey(B.FedaPay, m.id));
  }

  /** In every reachable state, on an open invoice: the report pays it exactly if it is one of those that settle. */
  lemma NowReportPaysIff(events: seq<Event>, m: Message, ref: B.InvoiceRef)
    requires AllTimely(Start, events) && m.NowMessage? && m.authentic
    requires
      var b := Reached(events).books;
      && Known(b, ref) && InvoiceOf(b, ref).status == B.Finalized
      && B.PaymentKey(B.NowPayments, m.id) in b.payments
      && b.payments[B.PaymentKey(B.NowPayments, m.id)] == B.Payment(ref, B.PaymentPending)
    ensures
      var b, after := Reached(events).books, Delivered(Reached(events).books, m);
      var key := B.PaymentKey(B.NowPayments, m.id);
      && Known(after, ref) && key in after.payments
      && (InvoiceOf(after, ref).status == B.InvoicePaid <==>
            m.now == NowFinished || (m.now == NowPartiallyPaid && m.price - m.actuallyPaid <= 0.5))
      && (InvoiceOf(after, ref).status == B.InvoicePaid ==> after.accounts[ref.org].status == B.InForce)
      && (after.payments[key].status == B.PaymentFailed <==>
            (m.now == NowFailed || m.now == NowExpired) && m.actuallyPaid == 0.0)
  {
    var b := Reached(events).books;
    NowReportDecides(b, m);
    ReachedIsOk(events);
    assert AccountOk(Reached(events), ref.org);
  }

  // ------------------------------------------------------------ requests

  /** An administrator settles exactly the open invoices. */
  lemma ManualPayment(b: BillingRuns.Books, ref: B.InvoiceRef)
    ensures
      var after := PaidManually(b, ref);
      if Known(b, ref) && InvoiceOf(b, ref).status == B.Finalized then
        OnlyPaid(b, ref, after) && after == b.(accounts := after.accounts, paidEvents := b.paidEvents + [ref])
      else after == b
  {
    if Known(b, ref) {
      MarkingPaysOnly(b, ref);
    }
  }
}
