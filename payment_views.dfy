/**
 * The views of payments/views.py that change payment rows — initiate_payment,
 * razorpay_webhook and payment_callback — together with update_invoice_status
 * of payments/models.py, over one ledger of payment and invoice rows. The
 * gateway's answers and signature checks are parameters.
 */
module PaymentViews {
  import opened Wrappers
  import opened Text
  import opened Decimals
  import opened BillingModels
  import BillingViews
  import opened PaymentModels
  import opened PaymentService

  /** The payment and invoice rows, keyed by id, and the id the next payment gets. */
  datatype Ledger = Ledger(payments: map<nat, Payment>, invoices: map<nat, Invoice>, nextPaymentId: nat)

  /** Keys are row ids, payment ids are below the next id, and a linked invoice exists (the link is SET_NULL on delete). */
  ghost predicate ValidLedger(l: Ledger) {
    && (forall k :: k in l.payments ==> l.payments[k].id == k && k < l.nextPaymentId)
    && (forall k :: k in l.invoices ==> l.invoices[k].id == k)
    && (forall k :: k in l.payments && l.payments[k].invoice.Some? ==> l.payments[k].invoice.value in l.invoices)
  }

  /** `keys` updated by `f`, every other row as it was. */
  function UpdateWhere(m: map<nat, Payment>, keys: set<nat>, f: Payment -> Payment): (r: map<nat, Payment>)
    ensures r.Keys == m.Keys
    ensures forall k :: k in m ==> r[k] == if k in keys then f(m[k]) else m[k]
  {
    map k | k in m :: if k in keys then f(m[k]) else m[k]
  }

  /** Updating the rows of a one-key set is updating that row. */
  lemma UpdateSingle(m: map<nat, Payment>, k: nat, f: Payment -> Payment)
    requires k in m
    ensures UpdateWhere(m, {k}, f) == m[k := f(m[k])]
  {
  }

  /** The one key of a set with one element. */
  lemma OnlyElement(s: set<nat>, k: nat)
    requires |s| == 1 && k in s
    ensures s == {k}
  {
    assert |s - {k}| == 0;
  }

  const NetworkErrorMessage := "Unable to connect to payment service. Please check your internet connection and try again."
  const GenericErrorMessage := "Error initiating payment. Please try again later."
  const VerificationFailedMessage := "Payment verification failed."
  const PaymentSuccessMessage := "Payment successful! Your subscription is now active."

  datatype InitiateOutcome =
    | PlanNotFound
    | RedirectToChangePlan(slug: string)
    | Checkout(orderId: string, amountPaise: int, currency: string)
    | RedirectToPricing(message: string)

  /** initiate_payment for `user`; `reply` is the gateway's answer to the order request. */
  function InitiatePaymentResult(l: Ledger, user: UserId, slug: string, plans: seq<Plan>, reply: GatewayReply, now: int)
    : (InitiateOutcome, Ledger)
  {
    match FindActivePlan(plans, slug)
    case None => (PlanNotFound, l)
    case Some(plan) =>
      if plan.priceCents <= 0 then (RedirectToChangePlan(slug), l)
      else match CreateOrder(Decimal(plan.priceCents, 2), reply)
        case Err(m) =>
          (RedirectToPricing(if Contains(m, "Network error") then NetworkErrorMessage else GenericErrorMessage), l)
        case Ok(order) =>
          (Checkout(order.id, order.request.amount, "INR"),
           l.(payments := l.payments[l.nextPaymentId := NewPayment(l.nextPaymentId, user, plan.priceCents, order.id, now)],
              nextPaymentId := l.nextPaymentId + 1))
  }

  /** A free plan (price at most zero) is sent to change_plan and no payment is recorded. */
  lemma InitiateFreePlan(l: Ledger, user: UserId, slug: string, plans: seq<Plan>, reply: GatewayReply, now: int)
    requires FindActivePlan(plans, slug).Some? && FindActivePlan(plans, slug).value.priceCents <= 0
    ensures InitiatePaymentResult(l, user, slug, plans, reply, now) == (RedirectToChangePlan(slug), l)
  {
  }

  /** The ledger a created order leaves: the plan's price in paise and one new payment. */
  lemma InitiateCreatedValue(l: Ledger, user: UserId, slug: string, plans: seq<Plan>, orderId: string, now: int)
    requires FindActivePlan(plans, slug).Some? && FindActivePlan(plans, slug).value.priceCents > 0
    ensures var price := FindActivePlan(plans, slug).value.priceCents;
      InitiatePaymentResult(l, user, slug, plans, OrderCreated(orderId), now)
      == (Checkout(orderId, price, "INR"),
          l.(payments := l.payments[l.nextPaymentId := NewPayment(l.nextPaymentId, user, price, orderId, now)],
             nextPaymentId := l.nextPaymentId + 1))
  {
    var amount := Decimal(FindActivePlan(plans, slug).value.priceCents, 2);
    ToHundredthsExact(amount);
    assert Pow10(0) == 1;
  }

  /** A created order records exactly one payment, with status created, that order id and the plan's price. */
  lemma InitiateRecordsOnePayment(l: Ledger, user: UserId, slug: string, plans: seq<Plan>, orderId: string, now: int)
    requires ValidLedger(l)
    requires FindActivePlan(plans, slug).Some? && FindActivePlan(plans, slug).value.priceCents > 0
    ensures var price := FindActivePlan(plans, slug).value.priceCents;
      var r := InitiatePaymentResult(l, user, slug, plans, OrderCreated(orderId), now);
      var p := r.1.payments[l.nextPaymentId];
      && r.0 == Checkout(orderId, price, "INR")
      && r.1.payments.Keys == l.payments.Keys + {l.nextPaymentId} && l.nextPaymentId !in l.payments
      && |r.1.payments| == |l.payments| + 1
      && (forall k :: k in l.payments ==> r.1.payments[k] == l.payments[k])
      && p.status == Created && p.razorpayOrderId == orderId && p.amountCents == price && p.user == user
      && r.1.invoices == l.invoices && ValidLedger(r.1)
  {
    var price := FindActivePlan(plans, slug).value.priceCents;
    InitiateCreatedValue(l, user, slug, plans, orderId, now);
    var p := NewPayment(l.nextPaymentId, user, price, orderId, now);
    AddPaymentKeepsValid(l, p);
    MapAddOne(l.payments, l.nextPaymentId, p);
  }

  /** A map with one key added has that key more. */
  lemma MapAddOne(m: map<nat, Payment>, k: nat, v: Payment)
    requires k !in m
    ensures m[k := v].Keys == m.Keys + {k} && |m[k := v]| == |m| + 1
    ensures forall j :: j in m ==> m[k := v][j] == m[j]
  {
  }

  /** Adding a payment without an invoice under the next id keeps the ledger valid and adds one row. */
  lemma AddPaymentKeepsValid(l: Ledger, p: Payment)
    requires ValidLedger(l) && p.id == l.nextPaymentId && p.invoice.None?
    ensures l.nextPaymentId !in l.payments
    ensures ValidLedger(l.(payments := l.payments[l.nextPaymentId := p], nextPaymentId := l.nextPaymentId + 1))
  {
    assert l.nextPaymentId !in l.payments;
    var l' := l.(payments := l.payments[l.nextPaymentId := p], nextPaymentId := l.nextPaymentId + 1);
    assert forall k :: k in l'.payments ==> l'.payments[k].id == k && k < l'.nextPaymentId;
    assert forall k :: k in l'.payments && l'.payments[k].invoice.Some? ==> k in l.payments;
  }

  /** A failed order records nothing; a connection failure shows the network message, as does any failure whose text mentions a network error, and every other failure shows the generic message. */
  lemma InitiateFailedOrder(l: Ledger, user: UserId, slug: string, plans: seq<Plan>, reply: GatewayReply, now: int)
    requires FindActivePlan(plans, slug).Some? && FindActivePlan(plans, slug).value.priceCents > 0
    requires !reply.OrderCreated?
    ensures var (outcome, l') := InitiatePaymentResult(l, user, slug, plans, reply, now);
      && l' == l && outcome.RedirectToPricing?
      && (reply.ConnectionFailure? ==> outcome.message == NetworkErrorMessage)
      && ((reply.BadRequest? || reply.OtherFailure?) && Contains(reply.detail, "Network error") ==>
            outcome.message == NetworkErrorMessage)
      && ((reply.BadRequest? || reply.OtherFailure?) && !Contains(reply.detail, "Network error") ==>
            outcome.message == GenericErrorMessage)
  {
    var amount := Decimal(FindActivePlan(plans, slug).value.priceCents, 2);
    CreateOrderFailures(amount, reply, "INR");
    if (reply.BadRequest? || reply.OtherFailure?) && Contains(reply.detail, "Network error") {
      ContainsAfter("Razorpay Bad Request: ", reply.detail, "Network error");
      ContainsAfter("Order creation failed: ", reply.detail, "Network error");
    } else if reply.BadRequest? || reply.OtherFailure? {
      NotContainsAfter("Razorpay Bad Request: ", reply.detail, "Network error");
      NotContainsAfter("Order creation failed: ", reply.detail, "Network error");
    }
  }

  /** The parsed webhook body: malformed JSON, or an event name with the payment entity's id when the payload has one. */
  datatype WebhookBody = Malformed | Event(name: string, paymentEntityId: Option<string>)

  datatype WebhookRefusal = NotPost | SignatureRejected | BodyMalformed | PaymentIdMissing | PaymentLookupFailed

  /** The webhook answers {"status": "success"} or a 400 error. */
  datatype WebhookOutcome = Acknowledged | Refused(reason: WebhookRefusal)

  /** The payments whose gateway payment id is `pid`. */
  function WithPaymentId(payments: map<nat, Payment>, pid: string): set<nat> {
    set k | k in payments && payments[k].razorpayPaymentId == Some(pid)
  }

  function MarkCaptured(now: int): Payment -> Payment {
    (p: Payment) => p.(status := Captured, updatedAt := now)
  }

  /** razorpay_webhook; `check` is the outcome of the webhook signature check. */
  function WebhookResult(l: Ledger, isPost: bool, check: SignatureCheck, body: WebhookBody, now: int)
    : (WebhookOutcome, Ledger)
  {
    if !isPost then (Refused(NotPost), l)
    else if !check.SignatureValid? then (Refused(SignatureRejected), l)
    else match body
      case Malformed => (Refused(BodyMalformed), l)
      case Event(name, entityId) =>
        if name != "payment.captured" then (Acknowledged, l)
        else if entityId.None? then (Refused(PaymentIdMissing), l)
        else
          var matches := WithPaymentId(l.payments, entityId.value);
          if |matches| != 1 then (Refused(PaymentLookupFailed), l)
          else (Acknowledged, l.(payments := UpdateWhere(l.payments, matches, MarkCaptured(now))))
  }

  /** A request that is not a POST, or whose signature does not verify, is refused with 400 and changes nothing. */
  lemma WebhookRefusedUnchanged(l: Ledger, isPost: bool, check: SignatureCheck, body: WebhookBody, now: int)
    requires !isPost || !check.SignatureValid?
    ensures var (outcome, l') := WebhookResult(l, isPost, check, body, now);
      outcome.Refused? && l' == l
  {
  }

  /** A verified event other than payment.captured is acknowledged and changes nothing. */
  lemma WebhookOtherEvent(l: Ledger, name: string, entityId: Option<string>, now: int)
    requires name != "payment.captured"
    ensures WebhookResult(l, true, SignatureValid, Event(name, entityId), now) == (Acknowledged, l)
  {
  }

  /** A verified payment.captured event for the one payment with that gateway id marks it captured, only it. */
  lemma WebhookCaptures(l: Ledger, pid: string, k: nat, now: int)
    requires k in l.payments && WithPaymentId(l.payments, pid) == {k}
    ensures var (outcome, l') := WebhookResult(l, true, SignatureValid, Event("payment.captured", Some(pid)), now);
      && outcome == Acknowledged
      && l' == l.(payments := l.payments[k := l.payments[k].(status := Captured, updatedAt := now)])
  {
    UpdateSingle(l.payments, k, MarkCaptured(now));
  }

  /** When no payment, or more than one, has the captured payment's gateway id, the lookup raises and the webhook is a 400 that changes nothing. */
  lemma WebhookLookupNotUnique(l: Ledger, pid: string, now: int)
    requires |WithPaymentId(l.payments, pid)| != 1
    ensures WebhookResult(l, true, SignatureValid, Event("payment.captured", Some(pid)), now) == (Refused(PaymentLookupFailed), l)
  {
  }

  datatype CallbackOutcome = CallbackRefused | RedirectToSubscription(message: string) | VerificationFailed(message: string)

  /** The payments created for gateway order `oid`. */
  function WithOrderId(payments: map<nat, Payment>, oid: string): set<nat> {
    set k | k in payments && payments[k].razorpayOrderId == oid
  }

  function MarkCompleted(pid: Option<string>, now: int): Payment -> Payment {
    (p: Payment) => p.(razorpayPaymentId := pid, status := Completed, updatedAt := now)
  }

  /** payment_callback; the form fields may be absent, and `check` is the library's signature check on them. */
  function CallbackResult(l: Ledger, isPost: bool, check: SignatureCheck,
                          paymentId: Option<string>, orderId: Option<string>, now: int): (CallbackOutcome, Ledger)
  {
    if !isPost then (CallbackRefused, l)
    else if !check.SignatureValid? || orderId.None? then (VerificationFailed(VerificationFailedMessage), l)
    else
      var matches := WithOrderId(l.payments, orderId.value);
      if |matches| != 1 then (VerificationFailed(VerificationFailedMessage), l)
      else (RedirectToSubscription(PaymentSuccessMessage),
            l.(payments := UpdateWhere(l.payments, matches, MarkCompleted(paymentId, now))))
  }

  /** When no payment, or more than one, was created for the order, the lookup raises and the callback reports a failed verification, changing nothing. */
  lemma CallbackLookupNotUnique(l: Ledger, paymentId: Option<string>, oid: string, now: int)
    requires |WithOrderId(l.payments, oid)| != 1
    ensures CallbackResult(l, true, SignatureValid, paymentId, Some(oid), now) == (VerificationFailed(VerificationFailedMessage), l)
  {
  }

  /** A verified callback for the one payment of that order records the gateway payment id and the status completed, which is not a declared choice. */
  lemma CallbackCompletes(l: Ledger, paymentId: Option<string>, oid: string, k: nat, now: int)
    requires k in l.payments && WithOrderId(l.payments, oid) == {k}
    ensures var (outcome, l') := CallbackResult(l, true, SignatureValid, paymentId, Some(oid), now);
      && outcome.RedirectToSubscription?
      && l' == l.(payments := l.payments[k := l.payments[k].(razorpayPaymentId := paymentId, status := Completed, updatedAt := now)])
      && !IsDeclaredChoice(l'.payments[k].status)
  {
    UpdateSingle(l.payments, k, MarkCompleted(paymentId, now));
  }

  /** A callback that is not a POST, or whose signature does not verify, changes nothing. */
  lemma CallbackRefusedUnchanged(l: Ledger, isPost: bool, check: SignatureCheck,
                                 paymentId: Option<string>, orderId: Option<string>, now: int)
    requires !isPost || !check.SignatureValid?
    ensures var (outcome, l') := CallbackResult(l, isPost, check, paymentId, orderId, now);
      l' == l && (!isPost ==> outcome == CallbackRefused) && (isPost ==> outcome.VerificationFailed?)
  {
  }

  /** The webhook touches no invoice and adds or removes no payment. */
  lemma WebhookLeavesInvoices(l: Ledger, isPost: bool, check: SignatureCheck, body: WebhookBody, now: int)
    ensures var l' := WebhookResult(l, isPost, check, body, now).1;
      l'.invoices == l.invoices && l'.payments.Keys == l.payments.Keys && l'.nextPaymentId == l.nextPaymentId
  {
  }

  /** The callback touches no invoice and adds or removes no payment, despite its "subscription is now active" message. */
  lemma CallbackLeavesInvoices(l: Ledger, isPost: bool, check: SignatureCheck,
                               paymentId: Option<string>, orderId: Option<string>, now: int)
    ensures var l' := CallbackResult(l, isPost, check, paymentId, orderId, now).1;
      l'.invoices == l.invoices && l'.payments.Keys == l.payments.Keys && l'.nextPaymentId == l.nextPaymentId
  {
  }

  /** update_invoice_status for payment `k`. */
  function UpdateInvoiceStatusResult(l: Ledger, k: nat): Ledger
    requires k in l.payments
  {
    var p := l.payments[k];
    if p.invoice.None? || p.invoice.value !in l.invoices then l
    else l.(invoices := l.invoices[p.invoice.value := InvoiceAfterPayment(l.invoices[p.invoice.value], p)])
  }

  /** Only the linked invoice changes, as the status rule says; with no linked invoice nothing changes; applying it twice is applying it once. */
  lemma UpdateInvoiceStatusEffect(l: Ledger, k: nat)
    requires ValidLedger(l) && k in l.payments
    ensures var l' := UpdateInvoiceStatusResult(l, k);
      var p := l.payments[k];
      && l'.payments == l.payments && l'.nextPaymentId == l.nextPaymentId && ValidLedger(l')
      && (p.invoice.None? ==> l' == l)
      && (p.invoice.Some? ==> l'.invoices == l.invoices[p.invoice.value := InvoiceAfterPayment(l.invoices[p.invoice.value], p)])
      && UpdateInvoiceStatusResult(l', k) == l'
  {
    var p := l.payments[k];
    if p.invoice.Some? {
      InvoiceAfterPaymentIdempotent(l.invoices[p.invoice.value], p);
      var l' := UpdateInvoiceStatusResult(l, k);
      assert l'.invoices[p.invoice.value := InvoiceAfterPayment(l'.invoices[p.invoice.value], p)] == l'.invoices;
    }
  }

  /** What payments' cancel_subscription answers: the row is missing (an error), 403, or no response at all. */
  datatype CancelByIdOutcome = SubscriptionMissing | Forbidden | NoResponse

  /** payments' cancel_subscription(subscription_id): it checks ownership and changes nothing. */
  function CancelSubscriptionById(rows: map<UserId, Subscription>, subscriptionId: nat, requester: UserId)
    : CancelByIdOutcome
  {
    if !(exists u :: u in rows && rows[u].id == subscriptionId) then SubscriptionMissing
    else if exists u :: u in rows && rows[u].id == subscriptionId && rows[u].user.id == requester then NoResponse
    else Forbidden
  }

  /** The row's owner gets no response and anybody else gets 403. */
  lemma CancelSubscriptionByIdOwner(t: BillingViews.Table, u: UserId, requester: UserId)
    requires BillingViews.ValidTable(t) && u in t.rows
    ensures CancelSubscriptionById(t.rows, t.rows[u].id, requester) == if u == requester then NoResponse else Forbidden
  {
  }

  /** The ledger as the views change it in place. */
  class PaymentLedger {
    var payments: map<nat, Payment>
    var invoices: map<nat, Invoice>
    var nextPaymentId: nat

    function Snapshot(): Ledger
      reads this
    {
      Ledger(payments, invoices, nextPaymentId)
    }

    ghost predicate Valid()
      reads this
    {
      ValidLedger(Snapshot())
    }

    constructor (invoices: map<nat, Invoice>)
      requires forall k :: k in invoices ==> invoices[k].id == k
      ensures Valid() && this.invoices == invoices && payments == map[] && nextPaymentId == 1
    {
      this.invoices := invoices;
      payments := map[];
      nextPaymentId := 1;
    }

    method InitiatePayment(user: UserId, slug: string, plans: seq<Plan>, reply: GatewayReply, now: int)
      returns (outcome: InitiateOutcome)
      requires Valid()
      modifies this
      ensures Valid()
      ensures (outcome, Snapshot()) == InitiatePaymentResult(old(Snapshot()), user, slug, plans, reply, now)
    {
      var found := FindActivePlan(plans, slug);
      if found.None? {
        return PlanNotFound;
      }
      var plan := found.value;
      if plan.priceCents <= 0 {
        return RedirectToChangePlan(slug);
      }
      var order := CreateOrder(Decimal(plan.priceCents, 2), reply);
      if order.Err? {
        var message := if Contains(order.error, "Network error") then NetworkErrorMessage else GenericErrorMessage;
        return RedirectToPricing(message);
      }
      payments := payments[nextPaymentId := NewPayment(nextPaymentId, user, plan.priceCents, order.value.id, now)];
      nextPaymentId := nextPaymentId + 1;
      outcome := Checkout(order.value.id, order.value.request.amount, "INR");
    }

    method RazorpayWebhook(isPost: bool, check: SignatureCheck, body: WebhookBody, now: int)
      returns (outcome: WebhookOutcome)
      requires Valid()
      modifies this
      ensures Valid()
      ensures (outcome, Snapshot()) == WebhookResult(old(Snapshot()), isPost, check, body, now)
    {
      if !isPost {
        return Refused(NotPost);
      }
      if !check.SignatureValid? {
        return Refused(SignatureRejected);
      }
      if body.Malformed? {
        return Refused(BodyMalformed);
      }
      if body.name != "payment.captured" {
        return Acknowledged;
      }
      if body.paymentEntityId.None? {
        return Refused(PaymentIdMissing);
      }
      var matches := WithPaymentId(payments, body.paymentEntityId.value);
      if |matches| != 1 {
        return Refused(PaymentLookupFailed);
      }
      var k :| k in matches;
      OnlyElement(matches, k);
      UpdateSingle(payments, k, MarkCaptured(now));
      payments := payments[k := payments[k].(status := Captured, updatedAt := now)];
      outcome := Acknowledged;
    }

    method PaymentCallback(isPost: bool, check: SignatureCheck, paymentId: Option<string>, orderId: Option<string>, now: int)
      returns (outcome: CallbackOutcome)
      requires Valid()
      modifies this
      ensures Valid()
      ensures (outcome, Snapshot()) == CallbackResult(old(Snapshot()), isPost, check, paymentId, orderId, now)
    {
      if !isPost {
        return CallbackRefused;
      }
      if !check.SignatureValid? || orderId.None? {
        return VerificationFailed(VerificationFailedMessage);
      }
      var matches := WithOrderId(payments, orderId.value);
      if |matches| != 1 {
        return VerificationFailed(VerificationFailedMessage);
      }
      var k :| k in matches;
      OnlyElement(matches, k);
      UpdateSingle(payments, k, MarkCompleted(paymentId, now));
      payments := payments[k := payments[k].(razorpayPaymentId := paymentId, status := Completed, updatedAt := now)];
      outcome := RedirectToSubscription(PaymentSuccessMessage);
    }

    method UpdateInvoiceStatus(k: nat)
      requires Valid() && k in payments
      modifies this
      ensures Valid()
      ensures Snapshot() == UpdateInvoiceStatusResult(old(Snapshot()), k)
    {
      UpdateInvoiceStatusEffect(Snapshot(), k);
      var p := payments[k];
      if p.invoice.None? {
        return;
      }
      var mapped := InvoiceStatusFor(p.status);
      if mapped.Some? {
        var inv := invoices[p.invoice.value];
        invoices := invoices[p.invoice.value := inv.(status := mapped.value,
                                                     paidAt := if p.status == Captured then Some(p.updatedAt) else None)];
      }
    }
  }
}
