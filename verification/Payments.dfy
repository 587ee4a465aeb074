/** Settling invoices: manual payment, and the two gateways' webhooks. */
module Payments {
  import opened Billing

  // ------------------------------------------------------------ specification

  predicate Known(b: Books, ref: InvoiceRef) {
    ref.org in b.accounts && ref.invoice < |b.accounts[ref.org].invoices|
  }

  function InvoiceOf(b: Books, ref: InvoiceRef): Invoice
    requires Known(b, ref)
  {
    b.accounts[ref.org].invoices[ref.invoice]
  }

  predicate OtherUnpaid(invoices: seq<Invoice>, except: nat) {
    exists i :: 0 <= i < |invoices| && i != except && invoices[i].status == Finalized
  }

  /** The account once the invoice is paid: back in force when nothing else is unpaid. */
  function Settled(a: Account, i: nat): Account
    requires i < |a.invoices|
  {
    var paid := a.(invoices := a.invoices[i := a.invoices[i].(status := InvoicePaid)]);
    if a.status == PastDue && !OtherUnpaid(a.invoices, i) then paid.(status := InForce) else paid
  }

  function MarkedPaid(b: Books, ref: InvoiceRef): Books
    requires Known(b, ref)
  {
    b.(accounts := b.accounts[ref.org := Settled(b.accounts[ref.org], ref.invoice)], paidEvents := b.paidEvents + [ref])
  }

  /** The endpoints only touch FINALIZED invoices. */
  predicate Payable(b: Books, ref: InvoiceRef) {
    Known(b, ref) && InvoiceOf(b, ref).status == Finalized
  }

  function PaidManually(b: Books, ref: InvoiceRef): Books {
    if Payable(b, ref) then MarkedPaid(b, ref) else b
  }

  /** (provider, provider_payment_id) is unique. */
  function Initiated(b: Books, key: PaymentKey, ref: InvoiceRef): Books {
    if Payable(b, ref) && key !in b.payments then b.(payments := b.payments[key := Payment(ref, PaymentPending)]) else b
  }

  function Completed(b: Books, key: PaymentKey): Books
    requires key in b.payments
  {
    var payment := b.payments[key];
    if payment.status == PaymentSucceeded then b
    else
      var b1 := b.(payments := b.payments[key := payment.(status := PaymentSucceeded)]);
      if !Known(b, payment.invoice) || InvoiceOf(b, payment.invoice).status == InvoicePaid then b1
      else MarkedPaid(b1, payment.invoice)
  }

  datatype NowStatus = NowFinished | NowPartiallyPaid | NowFailed | NowExpired | NowOther

  datatype FedaStatus = FedaApproved | FedaDeclined | FedaCanceled | FedaOther

  /** authentic: the signature check succeeds. */
  datatype Message =
    | NowMessage(authentic: bool, id: nat, now: NowStatus, actuallyPaid: real, price: real)
    | FedaMessage(authentic: bool, id: nat, feda: FedaStatus)

  /** nowpayments_tolerance_usd */
  const Tolerance: real := 0.5

  function KeyOf(m: Message): PaymentKey {
    if m.NowMessage? then PaymentKey(NowPayments, m.id) else PaymentKey(FedaPay, m.id)
  }

  /** The gateway reports the money. */
  predicate Settles(m: Message) {
    if m.NowMessage? then m.now == NowFinished || (m.now == NowPartiallyPaid && m.price - m.actuallyPaid <= Tolerance)
    else m.feda == FedaApproved
  }

  /** The gateway reports that nothing will come. */
  predicate Refuses(m: Message) {
    if m.NowMessage? then (m.now == NowFailed || m.now == NowExpired) && m.actuallyPaid == 0.0
    else m.feda == FedaDeclined || m.feda == FedaCanceled
  }

  function Delivered(b: Books, m: Message): Books {
    var key := KeyOf(m);
    if !m.authentic || key !in b.payments || b.payments[key].status != PaymentPending then b
    else if Settles(m) then Completed(b, key)
    else if Refuses(m) then b.(payments := b.payments[key := b.payments[key].(status := PaymentFailed)])
    else b
  }

  // ------------------------------------------------------------ the code

  method MarkInvoicePaid(db: BillingDb, ref: InvoiceRef)
    requires Known(db.State(), ref)
    modifies db
    ensures db.State() == MarkedPaid(old(db.State()), ref)
  {
    var a := db.accounts[ref.org];
    var invoices := a.invoices[ref.invoice := a.invoices[ref.invoice].(status := InvoicePaid)];
    OthersUnpaidStay(a.invoices, ref.invoice, invoices[ref.invoice]);
    db.accounts := db.accounts[ref.org := a.(invoices := invoices)];
    db.paidEvents := db.paidEvents + [ref];
    ReactivateIfCurrent(db, ref);
  }

  lemma OthersUnpaidStay(invoices: seq<Invoice>, i: nat, row: Invoice)
    requires i < |invoices|
    ensures OtherUnpaid(invoices[i := row], i) == OtherUnpaid(invoices, i)
  {
    assert forall k :: 0 <= k < |invoices| && k != i ==> invoices[i := row][k] == invoices[k];
  }

  /** The invoice just paid is left out of the search by its id. */
  method ReactivateIfCurrent(db: BillingDb, ref: InvoiceRef)
    requires Known(db.State(), ref)
    modifies db`accounts
    ensures
      var a := old(db.accounts[ref.org]);
      db.accounts == if a.status == PastDue && !OtherUnpaid(a.invoices, ref.invoice)
                     then old(db.accounts)[ref.org := a.(status := InForce)] else old(db.accounts)
  {
    var a := db.accounts[ref.org];
    if a.status != PastDue {
      return;
    }
    var stillUnpaid := exists i :: 0 <= i < |a.invoices| && i != ref.invoice && a.invoices[i].status == Finalized;
    if !stillUnpaid {
      db.accounts := db.accounts[ref.org := a.(status := InForce)];
    }
  }

  method PayInvoice(db: BillingDb, ref: InvoiceRef) returns (accepted: bool)
    modifies db
    ensures db.State() == PaidManually(old(db.State()), ref) && accepted == Payable(old(db.State()), ref)
  {
    if ref.org !in db.accounts || ref.invoice >= |db.accounts[ref.org].invoices|
       || db.accounts[ref.org].invoices[ref.invoice].status != Finalized {
      return false;
    }
    MarkInvoicePaid(db, ref);
    return true;
  }

  /** Both gateways: the row is PENDING from the moment the gateway knows the payment. */
  method InitiatePayment(db: BillingDb, key: PaymentKey, ref: InvoiceRef) returns (accepted: bool)
    modifies db
    ensures db.State() == Initiated(old(db.State()), key, ref)
    ensures accepted <==>
              && ref.org in db.accounts && ref.invoice < |db.accounts[ref.org].invoices|
              && db.accounts[ref.org].invoices[ref.invoice].status == Finalized && key !in old(db.payments)
    ensures db.payments == if accepted then old(db.payments)[key := Payment(ref, PaymentPending)] else old(db.payments)
    ensures db.accounts == old(db.accounts) && db.records == old(db.records)
  {
    if ref.org !in db.accounts || ref.invoice >= |db.accounts[ref.org].invoices|
       || db.accounts[ref.org].invoices[ref.invoice].status != Finalized || key in db.payments {
      return false;
    }
    db.payments := db.payments[key := Payment(ref, PaymentPending)];
    return true;
  }

  method FinalizePayment(db: BillingDb, key: PaymentKey)
    requires key in db.payments
    modifies db
    ensures db.State() == Completed(old(db.State()), key)
  {
    var payment := db.payments[key];
    if payment.status == PaymentSucceeded {
      return;
    }
    db.payments := db.payments[key := payment.(status := PaymentSucceeded)];
    var ref := payment.invoice;
    if ref.org !in db.accounts || ref.invoice >= |db.accounts[ref.org].invoices|
       || db.accounts[ref.org].invoices[ref.invoice].status == InvoicePaid {
      return;
    }
    MarkInvoicePaid(db, ref);
  }

  method HandleNowPaymentsWebhook(db: BillingDb, m: Message) returns (accepted: bool)
    requires m.NowMessage?
    modifies db
    ensures db.State() == Delivered(old(db.State()), m) && accepted == m.authentic
  {
    if !m.authentic {
      return false;
    }
    var key := PaymentKey(NowPayments, m.id);
    if key !in db.payments || db.payments[key].status != PaymentPending {
      return true;
    }
    var shortfall := m.price - m.actuallyPaid;
    var settledWithinTolerance := m.now == NowPartiallyPaid && shortfall <= Tolerance;
    if m.now == NowFinished || settledWithinTolerance {
      FinalizePayment(db, key);
    } else if (m.now == NowFailed || m.now == NowExpired) && m.actuallyPaid == 0.0 {
      db.payments := db.payments[key := db.payments[key].(status := PaymentFailed)];
    }
    return true;
  }

  method HandleFedaPayWebhook(db: BillingDb, m: Message) returns (accepted: bool)
    requires m.FedaMessage?
    modifies db
    ensures db.State() == Delivered(old(db.State()), m) && accepted == m.authentic
  {
    if !m.authentic {
      return false;
    }
    var key := PaymentKey(FedaPay, m.id);
    if key !in db.payments || db.payments[key].status != PaymentPending {
      return true;
    }
    if m.feda == FedaApproved {
      FinalizePayment(db, key);
    } else if m.feda == FedaDeclined || m.feda == FedaCanceled {
      db.payments := db.payments[key := db.payments[key].(status := PaymentFailed)];
    }
    return true;
  }
}
