/**
 * The subscription-changing views of billing/views.py — change_plan,
 * cancel_subscription and reactivate_subscription — over the subscription
 * table, one row per user.
 */
module BillingViews {
  import opened Wrappers
  import opened BillingModels

  /** The subscription table: rows keyed by their user's id, and the id the next inserted row gets. */
  datatype Table = Table(rows: map<UserId, Subscription>, nextId: nat)

  /** Keys are the rows' users, row ids are distinct and below the next id. */
  ghost predicate ValidTable(t: Table) {
    && (forall u :: u in t.rows ==> t.rows[u].user.id == u && t.rows[u].id < t.nextId)
    && (forall u, v :: u in t.rows && v in t.rows && u != v ==> t.rows[u].id != t.rows[v].id)
  }

  /** Subscription.objects.filter(user=user, status='active').first(). */
  function CurrentSubscription(rows: map<UserId, Subscription>, user: UserId): (r: Option<Subscription>)
    ensures r.Some? <==> user in rows && rows[user].status == Active
    ensures r.Some? ==> r.value == rows[user]
  {
    if user in rows && rows[user].status == Active then Some(rows[user]) else None
  }

  /**
   * What change_plan answers: 404 for an unknown plan; a redirect with a message
   * for the three outcomes that succeed; and the database's IntegrityError when
   * the insert meets the user's existing, inactive row.
   */
  datatype ChangePlanOutcome = PlanNotFound | AlreadySubscribed | Switched | Subscribed | DuplicateSubscription

  /**
   * change_plan as written. `now` is the clock reading and `periodEnd` is one
   * calendar month later (relativedelta(months=1)), supplied by the caller.
   */
  function ChangePlanResult(t: Table, user: User, slug: string, plans: seq<Plan>, now: int, periodEnd: int)
    : (ChangePlanOutcome, Table)
  {
    match FindActivePlan(plans, slug)
    case None => (PlanNotFound, t)
    case Some(plan) =>
      match CurrentSubscription(t.rows, user.id)
      case Some(current) =>
        if current.plan.id == plan.id then (AlreadySubscribed, t)
        else (Switched, t.(rows := t.rows[user.id := current.(plan := plan)]))
      case None =>
        if user.id in t.rows then (DuplicateSubscription, t)
        else (Subscribed, Table(t.rows[user.id := NewSubscription(t.nextId, user, plan, now, periodEnd)], t.nextId + 1))
  }

  /** An unknown or inactive plan slug answers 404 and changes nothing. */
  lemma ChangePlanUnknownPlan(t: Table, user: User, slug: string, plans: seq<Plan>, now: int, periodEnd: int)
    requires forall p :: p in plans ==> !(p.slug == slug && p.isActive)
    ensures ChangePlanResult(t, user, slug, plans, now, periodEnd) == (PlanNotFound, t)
  {
  }

  /** Asking for the plan the active subscription already has changes nothing. */
  lemma ChangePlanSamePlan(t: Table, user: User, slug: string, plans: seq<Plan>, now: int, periodEnd: int)
    requires FindActivePlan(plans, slug).Some?
    requires user.id in t.rows && t.rows[user.id].status == Active
    requires t.rows[user.id].plan.id == FindActivePlan(plans, slug).value.id
    ensures ChangePlanResult(t, user, slug, plans, now, periodEnd) == (AlreadySubscribed, t)
  {
  }

  /** Switching plans changes the plan of the user's row and nothing else: status, dates and the cancel flag stay. */
  lemma ChangePlanSwitchesOnlyPlan(t: Table, user: User, slug: string, plans: seq<Plan>, now: int, periodEnd: int)
    requires FindActivePlan(plans, slug).Some?
    requires user.id in t.rows && t.rows[user.id].status == Active
    requires t.rows[user.id].plan.id != FindActivePlan(plans, slug).value.id
    ensures var (outcome, t') := ChangePlanResult(t, user, slug, plans, now, periodEnd);
      var old_, new_ := t.rows[user.id], t'.rows[user.id];
      && outcome == Switched && t'.nextId == t.nextId && t'.rows.Keys == t.rows.Keys
      && new_.plan == FindActivePlan(plans, slug).value
      && new_.id == old_.id && new_.user == old_.user && new_.status == old_.status
      && new_.startDate == old_.startDate && new_.endDate == old_.endDate
      && new_.cancelAtPeriodEnd == old_.cancelAtPeriodEnd
      && (forall u :: u in t.rows && u != user.id ==> t'.rows[u] == t.rows[u])
  {
  }

  /** With no row at all, change_plan inserts an active one-month subscription to the plan, not pending cancellation. */
  lemma ChangePlanCreates(t: Table, user: User, slug: string, plans: seq<Plan>, now: int, periodEnd: int)
    requires FindActivePlan(plans, slug).Some? && user.id !in t.rows && now < periodEnd
    ensures var (outcome, t') := ChangePlanResult(t, user, slug, plans, now, periodEnd);
      var s := t'.rows[user.id];
      && outcome == Subscribed && user.id in t'.rows && t'.rows.Keys == t.rows.Keys + {user.id}
      && s.plan == FindActivePlan(plans, slug).value && s.status == Active && !s.cancelAtPeriodEnd
      && s.startDate == now && s.endDate == periodEnd && s.startDate < s.endDate
      && s.user == user && s.id == t.nextId
      && (forall u :: u in t.rows ==> t'.rows[u] == t.rows[u])
  {
  }

  /** After every change_plan that succeeds, the user's active subscription is on the requested plan. */
  lemma ChangePlanLeavesUserOnPlan(t: Table, user: User, slug: string, plans: seq<Plan>, now: int, periodEnd: int)
    requires ValidTable(t)
    ensures var (outcome, t') := ChangePlanResult(t, user, slug, plans, now, periodEnd);
      outcome in {AlreadySubscribed, Switched, Subscribed} ==>
        var current := CurrentSubscription(t'.rows, user.id);
        current.Some? && current.value.plan.id == FindActivePlan(plans, slug).value.id
  {
  }

  /** change_plan keeps the table well formed and leaves every other user's row as it was. */
  lemma ChangePlanKeepsTable(t: Table, user: User, slug: string, plans: seq<Plan>, now: int, periodEnd: int)
    requires ValidTable(t)
    ensures var (_, t') := ChangePlanResult(t, user, slug, plans, now, periodEnd);
      && ValidTable(t')
      && (forall u :: u in t.rows && u != user.id ==> u in t'.rows && t'.rows[u] == t.rows[u])
      && (forall u :: u in t'.rows && u != user.id ==> u in t.rows)
  {
    var found := FindActivePlan(plans, slug);
    if found.Some? {
      var current := CurrentSubscription(t.rows, user.id);
      if current.Some? {
        ReplaceKeepsValid(t, user.id, current.value.(plan := found.value));
      } else if user.id !in t.rows {
        InsertKeepsValid(t, user.id, NewSubscription(t.nextId, user, found.value, now, periodEnd));
      }
    }
  }

  /** Replacing a row by one with the same user and id keeps the table valid. */
  lemma ReplaceKeepsValid(t: Table, u: UserId, s: Subscription)
    requires ValidTable(t) && u in t.rows && s.user.id == u && s.id == t.rows[u].id
    ensures ValidTable(t.(rows := t.rows[u := s]))
  {
  }

  /** Inserting a row for a user without one, under the next id, keeps the table valid. */
  lemma InsertKeepsValid(t: Table, u: UserId, s: Subscription)
    requires ValidTable(t) && u !in t.rows && s.user.id == u && s.id == t.nextId
    ensures ValidTable(Table(t.rows[u := s], t.nextId + 1))
  {
  }

  /** A user whose only row has lapsed cannot change plan: the insert collides with that row and nothing changes. */
  lemma ChangePlanLapsedRowCollides(t: Table, user: User, slug: string, plans: seq<Plan>, now: int, periodEnd: int)
    requires FindActivePlan(plans, slug).Some?
    requires user.id in t.rows && t.rows[user.id].status != Active
    ensures ChangePlanResult(t, user, slug, plans, now, periodEnd) == (DuplicateSubscription, t)
  {
  }

  /** A concrete case: a user with an expired subscription asks for an active plan and gets the integrity error. */
  lemma LapsedSubscriberExample()
    ensures var alice := User(1, "alice", "", "");
      var pro := Plan(7, "Pro", "pro", 2999, 1000, true);
      var expired := Subscription(3, alice, pro, Expired, 0, 10, false);
      ChangePlanResult(Table(map[1 := expired], 4), alice, "pro", [pro], 20, 50).0 == DuplicateSubscription
  {
  }

  /**
   * change_plan as evidently intended: a user without an active subscription is
   * given a fresh active one-month subscription to the plan; a lapsed row of
   * theirs is renewed in place (keeping its id) rather than colliding.
   */
  function ChangePlanIntended(t: Table, user: User, slug: string, plans: seq<Plan>, now: int, periodEnd: int)
    : (ChangePlanOutcome, Table)
  {
    match FindActivePlan(plans, slug)
    case None => (PlanNotFound, t)
    case Some(plan) =>
      match CurrentSubscription(t.rows, user.id)
      case Some(current) =>
        if current.plan.id == plan.id then (AlreadySubscribed, t)
        else (Switched, t.(rows := t.rows[user.id := current.(plan := plan)]))
      case None =>
        if user.id in t.rows then
          (Subscribed, t.(rows := t.rows[user.id := NewSubscription(t.rows[user.id].id, user, plan, now, periodEnd)]))
        else (Subscribed, Table(t.rows[user.id := NewSubscription(t.nextId, user, plan, now, periodEnd)], t.nextId + 1))
  }

  /**
   * For every known active plan the intended change_plan succeeds, keeps the
   * table well formed, and leaves the user actively subscribed to that plan.
   */
  lemma ChangePlanIntendedAlwaysSubscribes(t: Table, user: User, slug: string, plans: seq<Plan>, now: int, periodEnd: int)
    requires FindActivePlan(plans, slug).Some?
    ensures var (outcome, t') := ChangePlanIntended(t, user, slug, plans, now, periodEnd);
      var current := CurrentSubscription(t'.rows, user.id);
      && outcome != PlanNotFound && outcome != DuplicateSubscription
      && current.Some? && current.value.plan.id == FindActivePlan(plans, slug).value.id
      && (forall u :: u in t.rows && u != user.id ==> u in t'.rows && t'.rows[u] == t.rows[u])
  {
  }

  /** The intended definition differs from the written one only where the written one collides. */
  lemma ChangePlanIntendedAgrees(t: Table, user: User, slug: string, plans: seq<Plan>, now: int, periodEnd: int)
    requires ChangePlanResult(t, user, slug, plans, now, periodEnd).0 != DuplicateSubscription
    ensures ChangePlanIntended(t, user, slug, plans, now, periodEnd) == ChangePlanResult(t, user, slug, plans, now, periodEnd)
  {
  }

  /** What cancel_subscription and reactivate_subscription answer: a redirect, or 404 when a POST finds no active row. */
  datatype FlagOutcome = Redirected | NoActiveSubscription

  /**
   * Setting cancel_at_period_end to `flag` on the user's active row, on POST only.
   * cancel_subscription sets it to true and reactivate_subscription to false.
   */
  function SetCancelFlagResult(t: Table, user: UserId, isPost: bool, flag: bool): (FlagOutcome, Table) {
    if !isPost then (Redirected, t)
    else match CurrentSubscription(t.rows, user)
      case None => (NoActiveSubscription, t)
      case Some(s) => (Redirected, t.(rows := t.rows[user := s.(cancelAtPeriodEnd := flag)]))
  }

  /** A request that is not a POST changes nothing; a POST changes only the flag of the user's active row. */
  lemma SetCancelFlagChangesOnlyFlag(t: Table, user: UserId, isPost: bool, flag: bool)
    ensures var (outcome, t') := SetCancelFlagResult(t, user, isPost, flag);
      && (!isPost ==> outcome == Redirected && t' == t)
      && (isPost && CurrentSubscription(t.rows, user).None? ==> outcome == NoActiveSubscription && t' == t)
      && (isPost && CurrentSubscription(t.rows, user).Some? ==>
            outcome == Redirected && t' == t.(rows := t.rows[user := t.rows[user].(cancelAtPeriodEnd := flag)]))
  {
  }

  /** Setting the flag twice is setting it once. */
  lemma SetCancelFlagIdempotent(t: Table, user: UserId, isPost: bool, flag: bool)
    ensures var t1 := SetCancelFlagResult(t, user, isPost, flag).1;
      SetCancelFlagResult(t1, user, isPost, flag) == SetCancelFlagResult(t, user, isPost, flag)
  {
    var t1 := SetCancelFlagResult(t, user, isPost, flag).1;
    if isPost && CurrentSubscription(t.rows, user).Some? {
      assert t1.rows[user := t1.rows[user].(cancelAtPeriodEnd := flag)] == t1.rows;
    }
  }

  /** Cancelling and then reactivating leaves the active row not pending cancellation, and undoes a cancel done from that state. */
  lemma CancelThenReactivate(t: Table, user: UserId)
    requires CurrentSubscription(t.rows, user).Some?
    ensures var t1 := SetCancelFlagResult(t, user, true, true).1;
      var t2 := SetCancelFlagResult(t1, user, true, false).1;
      && t2.rows[user].cancelAtPeriodEnd == false
      && CurrentSubscription(t2.rows, user).Some?
      && (!t.rows[user].cancelAtPeriodEnd ==> t2 == t)
  {
    var t1 := SetCancelFlagResult(t, user, true, true).1;
    var t2 := SetCancelFlagResult(t1, user, true, false).1;
    if !t.rows[user].cancelAtPeriodEnd {
      assert t2.rows[user] == t.rows[user];
      assert t2.rows == t.rows;
    }
  }

  /** Flag changes keep the table well formed. */
  lemma SetCancelFlagKeepsTable(t: Table, user: UserId, isPost: bool, flag: bool)
    requires ValidTable(t)
    ensures ValidTable(SetCancelFlagResult(t, user, isPost, flag).1)
  {
  }

  /** The subscription table as the views change it in place. */
  class SubscriptionTable {
    var rows: map<UserId, Subscription>
    var nextId: nat

    function Snapshot(): Table
      reads this
    {
      Table(rows, nextId)
    }

    ghost predicate Valid()
      reads this
    {
      ValidTable(Snapshot())
    }

    constructor ()
      ensures Valid() && rows == map[] && nextId == 1
    {
      rows := map[];
      nextId := 1;
    }

    method ChangePlan(user: User, slug: string, plans: seq<Plan>, now: int, periodEnd: int)
      returns (outcome: ChangePlanOutcome)
      requires Valid()
      modifies this
      ensures Valid()
      ensures (outcome, Snapshot()) == ChangePlanResult(old(Snapshot()), user, slug, plans, now, periodEnd)
    {
      ChangePlanKeepsTable(Snapshot(), user, slug, plans, now, periodEnd);
      var found := FindActivePlan(plans, slug);
      if found.None? {
        return PlanNotFound;
      }
      var plan := found.value;
      if user.id in rows && rows[user.id].status == Active {
        var current := rows[user.id];
        if current.plan.id == plan.id {
          outcome := AlreadySubscribed;
        } else {
          rows := rows[user.id := current.(plan := plan)];
          outcome := Switched;
        }
      } else if user.id in rows {
        outcome := DuplicateSubscription;
      } else {
        rows := rows[user.id := Subscription(nextId, user, plan, Active, now, periodEnd, false)];
        nextId := nextId + 1;
        outcome := Subscribed;
      }
    }

    method CancelSubscription(user: UserId, isPost: bool) returns (outcome: FlagOutcome)
      requires Valid()
      modifies this
      ensures Valid()
      ensures (outcome, Snapshot()) == SetCancelFlagResult(old(Snapshot()), user, isPost, true)
    {
      SetCancelFlagKeepsTable(Snapshot(), user, isPost, true);
      outcome := Redirected;
      if isPost {
        if user in rows && rows[user].status == Active {
          rows := rows[user := rows[user].(cancelAtPeriodEnd := true)];
        } else {
          outcome := NoActiveSubscription;
        }
      }
    }

    method ReactivateSubscription(user: UserId, isPost: bool) returns (outcome: FlagOutcome)
      requires Valid()
      modifies this
      ensures Valid()
      ensures (outcome, Snapshot()) == SetCancelFlagResult(old(Snapshot()), user, isPost, false)
    {
      SetCancelFlagKeepsTable(Snapshot(), user, isPost, false);
      outcome := Redirected;
      if isPost {
        if user in rows && rows[user].status == Active {
          rows := rows[user := rows[user].(cancelAtPeriodEnd := false)];
        } else {
          outcome := NoActiveSubscription;
        }
      }
    }
  }
}
