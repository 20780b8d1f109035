/**
 * The usage-limit gate of tools/decorators.py: before a decorated view runs it
 * looks up the caller's live subscription and compares the profile's call count
 * with the plan's limit. The gate only reads: it has no lock and increments nothing.
 */
module UsageGate {
  import opened Wrappers
  import opened BillingModels

  datatype Rejection = NoActiveSubscription | PendingCancellation | LimitReached(limit: int, usage: int)

  /** Admit means the wrapped view is called with the request unchanged. */
  datatype Decision = Admit | Reject(reason: Rejection)

  /** The JSON error body and HTTP status the wrapper returns instead of calling the view. */
  datatype Reply = Reply(status: int, success: bool, error: string, limit: Option<int>, usage: Option<int>)

  /** The query's filter: status active and start_date <= now <= end_date. */
  predicate LiveAt(s: Subscription, now: int) {
    s.status == Active && s.startDate <= now <= s.endDate
  }

  /** check_subscription_limits, with one reading of the clock, `now`, and the profile's api_calls_count, `usage`. */
  function CheckSubscriptionLimits(rows: map<UserId, Subscription>, user: UserId, now: int, usage: int): Decision {
    if user !in rows || !LiveAt(rows[user], now) then Reject(NoActiveSubscription)
    else if rows[user].cancelAtPeriodEnd then Reject(PendingCancellation)
    else if usage >= rows[user].plan.apiCallsLimit then Reject(LimitReached(rows[user].plan.apiCallsLimit, usage))
    else Admit
  }

  const NoSubscriptionMessage := "No active subscription found. Please subscribe to use this feature."
  const PendingCancellationMessage := "Your subscription is scheduled for cancellation. Please reactivate to continue."
  const LimitReachedMessage := "You have reached your API calls limit for this billing period."

  /** The reply sent for each rejection. */
  function RejectionReply(r: Rejection): (reply: Reply)
    ensures !reply.success
    ensures reply.status == (if r.LimitReached? then 429 else 403)
    ensures r.LimitReached? <==> reply.limit.Some? && reply.usage.Some?
    ensures r.LimitReached? ==> reply.limit == Some(r.limit) && reply.usage == Some(r.usage)
  {
    match r
    case NoActiveSubscription =>
      Reply(403, false, NoSubscriptionMessage, None, None)
    case PendingCancellation =>
      Reply(403, false, PendingCancellationMessage, None, None)
    case LimitReached(limit, usage) =>
      Reply(429, false, LimitReachedMessage, Some(limit), Some(usage))
  }

  /** Reference statement of admission: some live row of the user's, not cancelling, leaves quota at this usage. */
  ghost predicate Admissible(rows: map<UserId, Subscription>, user: UserId, now: int, usage: int) {
    exists s :: user in rows && rows[user] == s && LiveAt(s, now) && !s.cancelAtPeriodEnd && usage < s.plan.apiCallsLimit
  }

  /** The view is called exactly when the reference condition holds. */
  lemma AdmitIffAdmissible(rows: map<UserId, Subscription>, user: UserId, now: int, usage: int)
    ensures CheckSubscriptionLimits(rows, user, now, usage) == Admit <==> Admissible(rows, user, now, usage)
  {
    if user in rows && CheckSubscriptionLimits(rows, user, now, usage) == Admit {
      assert LiveAt(rows[user], now);
    }
  }

  /** No row, a status other than active, or `now` outside [start_date, end_date] is the 403 "no active subscription" reply. */
  lemma NoLiveSubscriptionRejected(rows: map<UserId, Subscription>, user: UserId, now: int, usage: int)
    ensures CheckSubscriptionLimits(rows, user, now, usage) == Reject(NoActiveSubscription)
      <==> user !in rows || rows[user].status != Active || now < rows[user].startDate || now > rows[user].endDate
  {
  }

  /** A live subscription pending cancellation is refused with 403 whatever the remaining quota, even when it is exhausted. */
  lemma PendingCancellationFirst(rows: map<UserId, Subscription>, user: UserId, now: int, usage: int)
    requires user in rows && LiveAt(rows[user], now) && rows[user].cancelAtPeriodEnd
    ensures CheckSubscriptionLimits(rows, user, now, usage) == Reject(PendingCancellation)
    ensures RejectionReply(PendingCancellation).status == 403
  {
  }

  /** Exhausted quota on a live, non-cancelling subscription is the 429 reply carrying that limit and that usage. */
  lemma LimitReachedReply(rows: map<UserId, Subscription>, user: UserId, now: int, usage: int)
    requires user in rows && LiveAt(rows[user], now) && !rows[user].cancelAtPeriodEnd
    requires usage >= rows[user].plan.apiCallsLimit
    ensures var d := CheckSubscriptionLimits(rows, user, now, usage);
      d == Reject(LimitReached(rows[user].plan.apiCallsLimit, usage))
      && RejectionReply(d.reason) == Reply(429, false, LimitReachedMessage,
                                           Some(rows[user].plan.apiCallsLimit), Some(usage))
  {
  }

  /** Admission is monotone in usage: if a usage is admitted, every smaller usage is too. */
  lemma AdmitMonotone(rows: map<UserId, Subscription>, user: UserId, now: int, usage: int, smaller: int)
    requires smaller <= usage
    requires CheckSubscriptionLimits(rows, user, now, usage) == Admit
    ensures CheckSubscriptionLimits(rows, user, now, smaller) == Admit
  {
  }

  /** A plan limit of zero or less admits no caller whose count is not negative. */
  lemma NonPositiveLimitAdmitsNothing(rows: map<UserId, Subscription>, user: UserId, now: int, usage: int)
    requires user in rows && rows[user].plan.apiCallsLimit <= 0 && usage >= 0
    ensures CheckSubscriptionLimits(rows, user, now, usage) != Admit
  {
  }

  /** The decision depends on the caller's own row only: other users' rows do not matter. */
  lemma DecisionIsPerUser(rows: map<UserId, Subscription>, other: map<UserId, Subscription>, user: UserId, now: int, usage: int)
    requires (user in rows <==> user in other) && (user in rows ==> rows[user] == other[user])
    ensures CheckSubscriptionLimits(rows, user, now, usage) == CheckSubscriptionLimits(other, user, now, usage)
  {
  }
}
