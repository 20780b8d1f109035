/**
 * The payment record of payments/models.py and the rule by which a payment's
 * status decides the status of the invoice it is linked to.
 */
module PaymentModels {
  import opened Wrappers
  import opened BillingModels

  /**
   * The values a payment's status takes. The first five are the declared
   * choices; Completed is the value the payment callback writes, which is not
   * among them (the framework does not check choices on save).
   */
  datatype PaymentStatus = Created | Authorized | Captured | Failed | Refunded | Completed

  predicate IsDeclaredChoice(s: PaymentStatus) {
    !s.Completed?
  }

  function PaymentStatusValue(s: PaymentStatus): string {
    match s
    case Created => "created"
    case Authorized => "authorized"
    case Captured => "captured"
    case Failed => "failed"
    case Refunded => "refunded"
    case Completed => "completed"
  }

  /** A payment row; `updatedAt` is the auto_now time of its last save, `amountCents` the amount in hundredths. */
  datatype Payment = Payment(
    id: nat, user: UserId, subscription: Option<nat>, invoice: Option<nat>,
    razorpayOrderId: string, razorpayPaymentId: Option<string>, razorpaySignature: Option<string>,
    amountCents: int, currency: string, status: PaymentStatus, updatedAt: int)

  /** A payment created with only user, amount and order id given: status created, currency INR, no gateway ids, no links. */
  function NewPayment(id: nat, user: UserId, amountCents: int, orderId: string, now: int): (p: Payment)
    ensures p.status == Created && IsDeclaredChoice(p.status) && p.currency == "INR"
    ensures p.razorpayPaymentId == None && p.razorpaySignature == None && p.invoice == None && p.subscription == None
    ensures p.id == id && p.user == user && p.amountCents == amountCents && p.razorpayOrderId == orderId
  {
    Payment(id, user, None, None, orderId, None, None, amountCents, "INR", Created, now)
  }

  /** status_mapping: the invoice status a payment status decides, if any. */
  function InvoiceStatusFor(s: PaymentStatus): (r: Option<InvoiceStatus>)
    ensures r.Some? <==> s in {Captured, PaymentStatus.Failed, Refunded}
  {
    match s
    case Captured => Some(Paid)
    case Failed => Some(InvoiceStatus.Failed)
    case Refunded => Some(Void)
    case _ => None
  }

  /**
   * The invoice as update_invoice_status leaves it: for a mapped status, the
   * mapped invoice status, and paid_at set to the payment's updated_at when
   * captured and cleared otherwise; for any other status the invoice as it was.
   */
  function InvoiceAfterPayment(inv: Invoice, p: Payment): Invoice {
    match InvoiceStatusFor(p.status)
    case None => inv
    case Some(st) => inv.(status := st, paidAt := if p.status == Captured then Some(p.updatedAt) else None)
  }

  /** Each payment status has its effect on the linked invoice, and no other field of the invoice changes. */
  lemma InvoiceAfterPaymentCases(inv: Invoice, p: Payment)
    ensures var inv' := InvoiceAfterPayment(inv, p);
      && (p.status == Captured ==> inv'.status == Paid && inv'.paidAt == Some(p.updatedAt))
      && (p.status == PaymentStatus.Failed ==> inv'.status == InvoiceStatus.Failed && inv'.paidAt == None)
      && (p.status == Refunded ==> inv'.status == Void && inv'.paidAt == None)
      && (p.status !in {Captured, PaymentStatus.Failed, Refunded} ==> inv' == inv)
      && inv'.id == inv.id && inv'.user == inv.user && inv'.subscription == inv.subscription
      && inv'.amountCents == inv.amountCents && inv'.dueDate == inv.dueDate
  {
  }

  /** Applying the rule twice is applying it once. */
  lemma InvoiceAfterPaymentIdempotent(inv: Invoice, p: Payment)
    ensures InvoiceAfterPayment(InvoiceAfterPayment(inv, p), p) == InvoiceAfterPayment(inv, p)
  {
  }

  /** The invoice is marked paid exactly when the payment is captured, and then it was paid at the payment's update time. */
  lemma PaidIffCaptured(inv: Invoice, p: Payment)
    requires inv.status != Paid
    ensures InvoiceAfterPayment(inv, p).status == Paid <==> p.status == Captured
    ensures InvoiceAfterPayment(inv, p).status == Paid ==> InvoiceAfterPayment(inv, p).paidAt == Some(p.updatedAt)
  {
  }
}
