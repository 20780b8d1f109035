/**
 * The REST API's object permission (IsOwner in api/permissions.py) and the
 * plan and subscription listings of api/views.py.
 */
module ApiViews {
  import opened Wrappers
  import opened BillingModels
  import BillingViews
  import Accounts
  import ApiKeys

  /** The kinds of row the API serves. */
  datatype ObjectKind = ProfileObject | KeyObject | SubscriptionObject | PlanObject | UserObject

  /** A row as the permission sees it: its kind, primary key, and its `user` attribute when it has one. */
  datatype ApiObject = ApiObject(kind: ObjectKind, pk: nat, user: Option<UserId>)

  /**
   * IsOwner.has_object_permission: an object with a `user` attribute belongs to
   * that user; any other object is allowed only when it is the requester's own profile.
   */
  predicate IsOwner(obj: ApiObject, requester: UserId, requesterProfilePk: nat) {
    if obj.user.Some? then obj.user.value == requester
    else obj.kind == ProfileObject && obj.pk == requesterProfilePk
  }

  /** The permission's two branches, each an if-and-only-if; another user's object is never allowed. */
  lemma IsOwnerBranches(obj: ApiObject, requester: UserId, requesterProfilePk: nat)
    ensures obj.user.Some? ==> (IsOwner(obj, requester, requesterProfilePk) <==> obj.user.value == requester)
    ensures obj.user.None? ==>
      (IsOwner(obj, requester, requesterProfilePk) <==> obj.kind == ProfileObject && obj.pk == requesterProfilePk)
    ensures obj.user.Some? && obj.user.value != requester ==> !IsOwner(obj, requester, requesterProfilePk)
  {
  }

  /** The rows of the model as the permission sees them; each of them carries `user`. */
  function ProfileAsObject(pk: nat, p: Accounts.UserProfile): (o: ApiObject)
    ensures o.kind == ProfileObject && o.user == Some(p.user)
  {
    ApiObject(ProfileObject, pk, Some(p.user))
  }

  function KeyAsObject(k: ApiKeys.APIKey): (o: ApiObject)
    ensures o.kind == KeyObject && o.user == Some(k.user)
  {
    ApiObject(KeyObject, k.id, Some(k.user))
  }

  function SubscriptionAsObject(s: Subscription): (o: ApiObject)
    ensures o.kind == SubscriptionObject && o.user == Some(s.user.id)
  {
    ApiObject(SubscriptionObject, s.id, Some(s.user.id))
  }

  /**
   * A profile has a `user` field, so it is decided by the first branch: the
   * requester's own profile pk plays no part, and another user's profile is
   * refused even when its pk is the requester's profile pk.
   */
  lemma ProfileDecidedByUser(pk: nat, p: Accounts.UserProfile, requester: UserId, requesterProfilePk: nat)
    ensures IsOwner(ProfileAsObject(pk, p), requester, requesterProfilePk) <==> p.user == requester
  {
  }

  /** Keys and subscriptions are allowed exactly to their owner. */
  lemma OwnedRowsDecidedByUser(k: ApiKeys.APIKey, s: Subscription, requester: UserId, requesterProfilePk: nat)
    ensures IsOwner(KeyAsObject(k), requester, requesterProfilePk) <==> k.user == requester
    ensures IsOwner(SubscriptionAsObject(s), requester, requesterProfilePk) <==> s.user.id == requester
  {
  }

  /** PlanViewSet's queryset: the active plans, in the table's order. */
  function PlanListing(plans: seq<Plan>): (r: seq<Plan>)
    ensures |r| <= |plans|
    ensures forall p :: p in r ==> p in plans && p.isActive
  {
    if plans == [] then []
    else if plans[0].isActive then [plans[0]] + PlanListing(plans[1..])
    else PlanListing(plans[1..])
  }

  /** Every active plan is listed. */
  lemma {:induction false} PlanListingComplete(plans: seq<Plan>, p: Plan)
    requires p in plans && p.isActive
    ensures p in PlanListing(plans)
  {
    if plans[0] != p {
      PlanListingComplete(plans[1..], p);
    }
  }

  /** The tail of a well-formed table is well formed, and its head comes before every later row. */
  lemma CatalogTail(plans: seq<Plan>)
    requires WellFormedCatalog(plans) && plans != []
    ensures WellFormedCatalog(plans[1..])
    ensures forall q :: q in plans[1..] ==> plans[0].slug != q.slug && plans[0].priceCents <= q.priceCents
  {
    forall i, j | 0 <= i < j < |plans[1..]|
      ensures plans[1..][i].slug != plans[1..][j].slug && plans[1..][i].priceCents <= plans[1..][j].priceCents
    {
      assert plans[1..][i] == plans[i + 1] && plans[1..][j] == plans[j + 1];
    }
    forall q | q in plans[1..]
      ensures plans[0].slug != q.slug && plans[0].priceCents <= q.priceCents
    {
      var k :| 0 <= k < |plans[1..]| && plans[1..][k] == q;
      assert plans[k + 1] == q;
    }
  }

  /** A plan placed before a well-formed table it precedes gives a well-formed table. */
  lemma CatalogCons(p: Plan, rest: seq<Plan>)
    requires WellFormedCatalog(rest)
    requires forall q :: q in rest ==> p.slug != q.slug && p.priceCents <= q.priceCents
    ensures WellFormedCatalog([p] + rest)
  {
    var r := [p] + rest;
    forall i, j | 0 <= i < j < |r|
      ensures r[i].slug != r[j].slug && r[i].priceCents <= r[j].priceCents
    {
      assert r[j] == rest[j - 1];
      if i > 0 {
        assert r[i] == rest[i - 1];
      } else {
        assert rest[j - 1] in rest;
      }
    }
  }

  /** Listing keeps the default order: from a well-formed table the listed plans still have unique slugs and ascending prices. */
  lemma {:induction false} PlanListingOrdered(plans: seq<Plan>)
    requires WellFormedCatalog(plans)
    ensures WellFormedCatalog(PlanListing(plans))
  {
    if plans != [] {
      CatalogTail(plans);
      PlanListingOrdered(plans[1..]);
      if plans[0].isActive {
        CatalogCons(plans[0], PlanListing(plans[1..]));
      }
    }
  }

  /** SubscriptionViewSet's queryset: the requester's rows, at most the one the table holds for them. */
  function SubscriptionListing(t: BillingViews.Table, requester: UserId): (r: seq<Subscription>)
    ensures |r| <= 1
    ensures r == [] <==> requester !in t.rows
  {
    if requester in t.rows then [t.rows[requester]] else []
  }

  /** In a valid table every listed row is the requester's and is allowed to them. */
  lemma SubscriptionListingOwned(t: BillingViews.Table, requester: UserId, requesterProfilePk: nat)
    requires BillingViews.ValidTable(t)
    ensures forall s :: s in SubscriptionListing(t, requester) ==>
      s.user.id == requester && IsOwner(SubscriptionAsObject(s), requester, requesterProfilePk)
  {
  }

  /** filter(user=request.user): in a valid table the listing holds exactly the stored rows of the requester. */
  lemma SubscriptionListingExact(t: BillingViews.Table, requester: UserId)
    requires BillingViews.ValidTable(t)
    ensures forall s :: s in SubscriptionListing(t, requester) <==> s in t.rows.Values && s.user.id == requester
  {
    forall s | s in t.rows.Values && s.user.id == requester
      ensures s in SubscriptionListing(t, requester)
    {
      var u :| u in t.rows && t.rows[u] == s;
      assert u == requester;
    }
  }

  /** Every key the key listing shows passes the permission. */
  lemma KeyListingOwned(t: ApiKeys.KeyTable, requester: UserId, requesterProfilePk: nat)
    ensures forall k :: k in ApiKeys.ActiveKeys(t, requester) ==>
      IsOwner(KeyAsObject(ApiKeys.ActiveKeys(t, requester)[k]), requester, requesterProfilePk)
  {
  }
}
