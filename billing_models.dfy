/**
 * The billing records (billing/models.py): plans, the one subscription a user
 * may hold, and invoices, with their status choices, defaults and display strings.
 */
module BillingModels {
  import opened Wrappers
  import opened Text

  type UserId = nat

  /** The fields of a framework user that the core reads. */
  datatype User = User(id: UserId, username: string, firstName: string, lastName: string)

  /** A pricing tier. The price is a DecimalField with two decimal places, held here in hundredths. */
  datatype Plan = Plan(id: nat, name: string, slug: string, priceCents: int, apiCallsLimit: int, isActive: bool)

  datatype SubscriptionStatus = Active | Cancelled | Expired | PastDue

  /** The stored value of each status choice. */
  function SubscriptionStatusValue(s: SubscriptionStatus): string {
    match s
    case Active => "active"
    case Cancelled => "cancelled"
    case Expired => "expired"
    case PastDue => "past_due"
  }

  /** Reading a stored status value back; any other text is not a choice. */
  function ParseSubscriptionStatus(v: string): (r: Option<SubscriptionStatus>)
    ensures r.Some? ==> SubscriptionStatusValue(r.value) == v
  {
    if v == "active" then Some(Active)
    else if v == "cancelled" then Some(Cancelled)
    else if v == "expired" then Some(Expired)
    else if v == "past_due" then Some(PastDue)
    else None
  }

  /** The four choices are stored under four distinct values, each of which reads back as itself. */
  lemma SubscriptionStatusRoundTrip(s: SubscriptionStatus)
    ensures ParseSubscriptionStatus(SubscriptionStatusValue(s)) == Some(s)
  {
  }

  /**
   * A subscription row. `user` is a OneToOneField, so a user owns at most one row;
   * the tables that hold subscriptions are keyed by the user's id.
   */
  datatype Subscription = Subscription(
    id: nat, user: User, plan: Plan, status: SubscriptionStatus,
    startDate: int, endDate: int, cancelAtPeriodEnd: bool)

  /** A row created with only the required fields given: status and the cancel flag take their defaults. */
  function NewSubscription(id: nat, user: User, plan: Plan, startDate: int, endDate: int): (s: Subscription)
    ensures s.status == Active && !s.cancelAtPeriodEnd
    ensures s.id == id && s.user == user && s.plan == plan && s.startDate == startDate && s.endDate == endDate
  {
    Subscription(id, user, plan, Active, startDate, endDate, false)
  }

  datatype InvoiceStatus = Draft | Open | Paid | Failed | Void

  function InvoiceStatusValue(s: InvoiceStatus): string {
    match s
    case Draft => "draft"
    case Open => "open"
    case Paid => "paid"
    case Failed => "failed"
    case Void => "void"
  }

  datatype Invoice = Invoice(
    id: nat, user: User, subscription: Option<nat>, amountCents: int,
    status: InvoiceStatus, dueDate: int, paidAt: Option<int>)

  /** An invoice created without a status or payment time is a draft that has not been paid. */
  function NewInvoice(id: nat, user: User, subscription: Option<nat>, amountCents: int, dueDate: int): (inv: Invoice)
    ensures inv.status == Draft && inv.paidAt == None
    ensures inv.id == id && inv.user == user && inv.subscription == subscription
    ensures inv.amountCents == amountCents && inv.dueDate == dueDate
  {
    Invoice(id, user, subscription, amountCents, Draft, dueDate, None)
  }

  /** str(subscription): "<username> - <plan name>". */
  function SubscriptionText(s: Subscription): string {
    s.user.username + " - " + s.plan.name
  }

  /** The subscription text starts with the username and " - ", and for one user it tells plans apart by name. */
  lemma SubscriptionTextNamesPlan(a: Subscription, b: Subscription)
    requires a.user.username == b.user.username
    ensures StartsWith(SubscriptionText(a), a.user.username + " - ")
    ensures SubscriptionText(a) == SubscriptionText(b) <==> a.plan.name == b.plan.name
  {
    var prefix := a.user.username + " - ";
    assert SubscriptionText(a) == prefix + a.plan.name && SubscriptionText(b) == prefix + b.plan.name;
    assert SubscriptionText(a)[|prefix|..] == a.plan.name;
    assert SubscriptionText(b)[|prefix|..] == b.plan.name;
  }

  /** str(invoice): "Invoice #<id> - <username>". */
  function InvoiceText(inv: Invoice): string {
    "Invoice #" + NatToString(inv.id) + " - " + inv.user.username
  }

  /** The invoice text names the invoice: for the same user, different invoice ids give different texts. */
  lemma InvoiceTextNamesInvoice(a: Invoice, b: Invoice)
    requires a.user.username == b.user.username
    requires InvoiceText(a) == InvoiceText(b)
    ensures a.id == b.id
  {
    var da, db := NatToString(a.id), NatToString(b.id);
    var u := a.user.username;
    assert InvoiceText(a) == "Invoice #" + (da + " - " + u);
    assert InvoiceText(b) == "Invoice #" + (db + " - " + u);
    assert InvoiceText(a)[9..] == da + " - " + u;
    assert InvoiceText(b)[9..] == db + " - " + u;
    assert |da| == |db|;
    assert da == (da + " - " + u)[..|da|];
    assert db == (db + " - " + u)[..|db|];
    NatToStringInjective(a.id, b.id);
  }

  /** The plan table in its default order: slugs are unique and rows come by ascending price. */
  ghost predicate WellFormedCatalog(plans: seq<Plan>) {
    && (forall i, j :: 0 <= i < j < |plans| ==> plans[i].slug != plans[j].slug)
    && (forall i, j :: 0 <= i < j < |plans| ==> plans[i].priceCents <= plans[j].priceCents)
  }

  /**
   * get_object_or_404(Plan, slug=slug, is_active=True): the active plan with that slug,
   * or nothing when there is none.
   */
  function FindActivePlan(plans: seq<Plan>, slug: string): (r: Option<Plan>)
    ensures r.Some? ==> r.value in plans && r.value.slug == slug && r.value.isActive
    ensures r.None? ==> forall p :: p in plans ==> !(p.slug == slug && p.isActive)
  {
    if plans == [] then None
    else if plans[0].slug == slug && plans[0].isActive then Some(plans[0])
    else FindActivePlan(plans[1..], slug)
  }

  /** With unique slugs the lookup finds the one plan that matches. */
  lemma FindActivePlanUnique(plans: seq<Plan>, i: nat)
    requires WellFormedCatalog(plans)
    requires i < |plans| && plans[i].isActive
    ensures FindActivePlan(plans, plans[i].slug) == Some(plans[i])
  {
    var r := FindActivePlan(plans, plans[i].slug);
    var j :| 0 <= j < |plans| && plans[j] == r.value;
    assert plans[j].slug == plans[i].slug;
  }
}
