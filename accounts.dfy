/**
 * accounts/models.py and the pure parts of accounts/views.py: the profile
 * created with every user, its display strings, the notification-preference
 * map and its inverse, and the usage percentage shown on the profile page.
 */
module Accounts {
  import opened Wrappers
  import opened Text
  import opened BillingModels
  import BillingViews
  import BillingTags
  import opened Decimals

  datatype Theme = SystemTheme | LightTheme | DarkTheme

  /** The stored value of each theme choice. */
  function ThemeValue(t: Theme): string {
    match t
    case SystemTheme => "system"
    case LightTheme => "light"
    case DarkTheme => "dark"
  }

  /** A notification-preference map: key and flag, in insertion order, as a Python dict keeps them. */
  type Preferences = seq<(string, bool)>

  datatype UserProfile = UserProfile(
    user: UserId,
    theme: Theme,
    subscriptionStatus: string,
    apiCallsCount: int,
    company: string,
    jobTitle: string,
    phone: string,
    bio: string,
    notificationPreferences: Preferences)

  /** The profile a new user gets: every field at its declared default. */
  function DefaultProfile(user: UserId): (p: UserProfile)
    ensures p.user == user && p.theme == SystemTheme && ThemeValue(p.theme) == "system"
    ensures p.subscriptionStatus == "free" && p.apiCallsCount == 0 && p.notificationPreferences == []
    ensures p.company == "" && p.jobTitle == "" && p.phone == "" && p.bio == ""
  {
    UserProfile(user, SystemTheme, "free", 0, "", "", "", "", [])
  }

  /** full_name: first and last name joined by a space, outer whitespace removed. */
  function FullName(u: User): string {
    PyStrip(u.firstName + " " + u.lastName)
  }

  /** The full name is a piece of "first last" with only whitespace cut at each end, and has no outer whitespace itself. */
  lemma FullNameShape(u: User)
    ensures var s := u.firstName + " " + u.lastName;
      StrippedFrom(s, FullName(u), |s| - |TrimStart(s, IsPySpace)|, IsPySpace)
  {
    StripShape(u.firstName + " " + u.lastName, IsPySpace);
  }

  /** Both names empty give the empty name; names without outer whitespace are joined by one space. */
  lemma FullNameCases(u: User)
    ensures u.firstName == "" && u.lastName == "" ==> FullName(u) == ""
    ensures u.firstName != "" && u.lastName != "" && !IsPySpace(u.firstName[0]) && !IsPySpace(u.lastName[|u.lastName| - 1])
            ==> FullName(u) == u.firstName + " " + u.lastName
  {
    if u.firstName == "" && u.lastName == "" {
      assert u.firstName + " " + u.lastName == " ";
      assert IsPySpace(' ');
    }
    var s := u.firstName + " " + u.lastName;
    if u.firstName != "" && u.lastName != "" && !IsPySpace(u.firstName[0]) && !IsPySpace(u.lastName[|u.lastName| - 1]) {
      assert s[0] == u.firstName[0] && s[|s| - 1] == u.lastName[|u.lastName| - 1];
      StripKeepsClean(s, IsPySpace);
    }
  }

  /** subscription_display: underscores become spaces, then each word is title-cased. */
  function SubscriptionDisplay(p: UserProfile): string {
    BillingTags.ReplaceUnderscore(p.subscriptionStatus)
  }

  /** 'past_due' is shown as 'Past Due'. */
  lemma PastDueDisplay(p: UserProfile)
    requires p.subscriptionStatus == "past_due"
    ensures SubscriptionDisplay(p) == "Past Due"
  {
    PastDueSpaced();
    PastDueTitle();
  }

  lemma PastDueSpaced()
    ensures ReplaceChar("past_due", '_', ' ') == "past due"
  {
    var r := ReplaceChar("past_due", '_', ' ');
    assert forall k :: 0 <= k < 8 ==> r[k] == "past due"[k];
  }

  lemma PastDueTitle()
    ensures Title("past due") == "Past Due"
  {
    DueTitle();
    assert TitleFrom("t due", true) == "t Due";
    assert TitleFrom("st due", true) == "st Due";
    assert TitleFrom("ast due", true) == "ast Due";
    assert TitleFrom("past due", false) == "Past Due";
  }

  lemma DueTitle()
    ensures TitleFrom(" due", true) == " Due"
  {
    assert TitleFrom("e", true) == "e";
    assert TitleFrom("ue", true) == "ue";
    assert TitleFrom("due", false) == "Due";
  }

  /** The default 'free' is shown as 'Free'. */
  lemma FreeDisplay(p: UserProfile)
    requires p.subscriptionStatus == "free"
    ensures SubscriptionDisplay(p) == "Free"
  {
    assert ReplaceChar("free", '_', ' ') == "free";
    FreeTitle();
  }

  lemma FreeTitle()
    ensures Title("free") == "Free"
  {
    assert TitleFrom("e", true) == "e";
    assert TitleFrom("ee", true) == "ee";
    assert TitleFrom("ree", true) == "ree";
    assert TitleFrom("free", false) == "Free";
  }

  /** The displayed status has no underscore and the length of the stored one. */
  lemma SubscriptionDisplayShape(p: UserProfile)
    ensures '_' !in SubscriptionDisplay(p)
    ensures |SubscriptionDisplay(p)| == |p.subscriptionStatus|
  {
    BillingTags.ReplaceUnderscoreShape(p.subscriptionStatus);
  }

  /** The profile page's notification choices, in the order the map lists them. */
  const PreferenceKeys: seq<string> := ["email_updates", "product_news", "security_alerts", "usage_reports"]

  /** The map built from the selected choices: each key, flagged iff it was selected. */
  function BuildPreferences(keys: seq<string>, selected: seq<string>): (m: Preferences)
    ensures |m| == |keys|
    ensures forall i :: 0 <= i < |keys| ==> m[i].0 == keys[i] && (m[i].1 <==> keys[i] in selected)
  {
    if keys == [] then [] else [(keys[0], keys[0] in selected)] + BuildPreferences(keys[1..], selected)
  }

  /** The enabled keys of a stored map, in its order, as the form's initial selection. */
  function EnabledKeys(m: Preferences): (r: seq<string>)
    ensures forall x :: x in r ==> exists i :: 0 <= i < |m| && m[i] == (x, true)
  {
    if m == [] then []
    else
      var rest := EnabledKeys(m[1..]);
      assert forall x :: x in rest ==> exists i :: 1 <= i < |m| && m[i] == (x, true) by {
        forall x | x in rest ensures exists i :: 1 <= i < |m| && m[i] == (x, true) {
          var j :| 0 <= j < |m[1..]| && m[1..][j] == (x, true);
          assert m[j + 1] == (x, true);
        }
      }
      (if m[0].1 then [m[0].0] else []) + rest
  }

  /** The known keys that were selected, in the fixed key order. */
  function SelectedKnown(keys: seq<string>, selected: seq<string>): seq<string> {
    if keys == [] then [] else (if keys[0] in selected then [keys[0]] else []) + SelectedKnown(keys[1..], selected)
  }

  /** The built map always has exactly the four known keys, in order. */
  lemma BuiltPreferenceKeys(selected: seq<string>)
    ensures var m := BuildPreferences(PreferenceKeys, selected);
      |m| == 4 && m[0].0 == "email_updates" && m[1].0 == "product_news"
      && m[2].0 == "security_alerts" && m[3].0 == "usage_reports"
  {
  }

  /** A selection that is not a known key is ignored. */
  lemma {:induction false} UnknownSelectionIgnored(keys: seq<string>, selected: seq<string>, x: string)
    requires x !in keys
    ensures BuildPreferences(keys, selected + [x]) == BuildPreferences(keys, selected)
    decreases |keys|
  {
    if keys != [] {
      UnknownSelectionIgnored(keys[1..], selected, x);
    }
  }

  /** Round trip one way: the enabled keys of a built map are the selected known keys, in key order. */
  lemma {:induction false} EnabledOfBuilt(keys: seq<string>, selected: seq<string>)
    ensures EnabledKeys(BuildPreferences(keys, selected)) == SelectedKnown(keys, selected)
    decreases |keys|
  {
    if keys != [] {
      var m := BuildPreferences(keys, selected);
      assert m[1..] == BuildPreferences(keys[1..], selected);
      EnabledOfBuilt(keys[1..], selected);
    }
  }

  /** Round trip the other way: rebuilding from a map's enabled keys gives the map back, for a map over distinct keys. */
  lemma {:induction false} BuiltOfEnabled(m: Preferences)
    requires forall i, j :: 0 <= i < j < |m| ==> m[i].0 != m[j].0
    ensures BuildPreferences(seq(|m|, i requires 0 <= i < |m| => m[i].0), EnabledKeys(m)) == m
  {
    var keys := seq(|m|, i requires 0 <= i < |m| => m[i].0);
    var b := BuildPreferences(keys, EnabledKeys(m));
    forall i | 0 <= i < |m| ensures b[i] == m[i] {
      if m[i].1 {
        EnabledContains(m, i);
      }
    }
  }

  /** A key flagged true in the map is among its enabled keys. */
  lemma {:induction false} EnabledContains(m: Preferences, i: nat)
    requires i < |m| && m[i].1
    ensures m[i].0 in EnabledKeys(m)
    decreases i
  {
    if i > 0 {
      assert m[1..][i - 1] == m[i];
      EnabledContains(m[1..], i - 1);
    }
  }

  /** The API-call allowance shown on the profile: the active subscription's plan limit, else 100. */
  function ProfileCallLimit(rows: map<UserId, Subscription>, user: UserId): (limit: int)
    ensures BillingViews.CurrentSubscription(rows, user).None? ==> limit == 100
    ensures user in rows && rows[user].status == Active ==> limit == rows[user].plan.apiCallsLimit
  {
    match BillingViews.CurrentSubscription(rows, user)
    case None => 100
    case Some(s) => s.plan.apiCallsLimit
  }

  /** n / d for a positive d, rounded to the nearest integer, ties to the even one. */
  function RoundPositive(n: int, d: int): (r: int)
    requires d > 0
    ensures -d <= 2 * (r * d - n) <= d
    ensures 2 * (r * d - n) == d || 2 * (r * d - n) == -d ==> r % 2 == 0
  {
    var q := n / d;
    var rem := n % d;
    assert n == q * d + rem;
    if 2 * rem > d then
      assert (q + 1) * d == q * d + d;
      q + 1
    else if 2 * rem < d then q
    else if q % 2 == 0 then q
    else
      assert (q + 1) * d == q * d + d;
      q + 1
  }

  /** a / b rounded to the nearest integer, ties to the even one, as Python's round() does. */
  function RoundRatio(a: int, b: int): int
    requires b != 0
  {
    if b > 0 then RoundPositive(a, b) else RoundPositive(-a, -b)
  }

  /** usage_percentage: used / limit as a percentage, rounded and capped at 100; a limit of 0 raises ZeroDivisionError. */
  function UsagePercentage(used: int, limit: int): (r: Result<int, string>)
    ensures r.Err? <==> limit == 0
    ensures r.Ok? ==> r.value <= 100
  {
    if limit == 0 then Err("division by zero")
    else
      var p := RoundRatio(used * 100, limit);
      Ok(if p < 100 then p else 100)
  }

  /** Multiplying by a positive number keeps the order. */
  lemma MulAtMost(a: int, b: int, d: int)
    requires d > 0
    ensures a <= b ==> a * d <= b * d
  {
    if a <= b {
      MulNonNegative(b - a, d);
      assert b * d - a * d == (b - a) * d;
    }
  }

  /** A ratio at least lo rounds to at least lo. */
  lemma RoundPositiveAbove(n: int, d: int, lo: int)
    requires d > 0 && lo * d <= n
    ensures lo <= RoundPositive(n, d)
  {
    var r := RoundPositive(n, d);
    MulAtMost(r, lo - 1, d);
    assert (lo - 1) * d == lo * d - d;
  }

  /** A ratio at most hi rounds to at most hi. */
  lemma RoundPositiveBelow(n: int, d: int, hi: int)
    requires d > 0 && n <= hi * d
    ensures RoundPositive(n, d) <= hi
  {
    var r := RoundPositive(n, d);
    MulAtMost(hi + 1, r, d);
    assert (hi + 1) * d == hi * d + d;
  }

  /** A ratio between two whole numbers rounds to a number between them. */
  lemma RoundPositiveBetween(n: int, d: int, lo: int, hi: int)
    requires d > 0 && lo * d <= n <= hi * d
    ensures lo <= RoundPositive(n, d) <= hi
  {
    RoundPositiveAbove(n, d, lo);
    RoundPositiveBelow(n, d, hi);
  }

  /** Within the allowance the percentage lies in [0, 100]. */
  lemma UsagePercentageInRange(used: int, limit: int)
    requires 0 <= used <= limit && limit > 0
    ensures UsagePercentage(used, limit).Ok? && 0 <= UsagePercentage(used, limit).value <= 100
  {
    RoundPositiveBetween(used * 100, limit, 0, 100);
  }

  /** A share that is a whole percentage q is shown as q, capped at 100. */
  lemma UsagePercentageExact(used: int, limit: int, q: int)
    requires limit > 0 && used * 100 == q * limit
    ensures UsagePercentage(used, limit) == Ok(if q < 100 then q else 100)
  {
    RoundPositiveBetween(used * 100, limit, q, q);
  }

  /** A usage count beyond the allowance still shows 100. */
  lemma UsagePercentageCapped(used: int, limit: int)
    requires limit > 0 && used >= limit
    ensures UsagePercentage(used, limit) == Ok(100)
  {
    assert 100 * limit <= used * 100 <= (used * 100) * limit by {
      MulCancelLess(used * 100, 100 * limit, 1);
      assert (used * 100) * limit == used * 100 + (used * 100) * (limit - 1);
      MulNonNegative(used * 100, limit - 1);
    }
    RoundPositiveBetween(used * 100, limit, 100, used * 100);
  }

  datatype ProfileOutcome = ProfileCreated | NoProfileCreated | ProfileConflict

  /** create_user_profile: a profile at its defaults when the user was just created; nothing on a re-save. */
  function CreateUserProfileResult(profiles: map<UserId, UserProfile>, user: UserId, created: bool)
    : (ProfileOutcome, map<UserId, UserProfile>)
  {
    if !created then (NoProfileCreated, profiles)
    else if user in profiles then (ProfileConflict, profiles)
    else (ProfileCreated, profiles[user := DefaultProfile(user)])
  }

  /** Creating a user adds exactly one profile, at the defaults, for that user; re-saving adds none. */
  lemma CreateUserProfileEffect(profiles: map<UserId, UserProfile>, user: UserId, created: bool)
    ensures var (outcome, profiles') := CreateUserProfileResult(profiles, user, created);
      && (!created ==> outcome == NoProfileCreated && profiles' == profiles)
      && (created && user !in profiles ==>
            outcome == ProfileCreated && profiles'.Keys == profiles.Keys + {user}
            && |profiles'| == |profiles| + 1
            && profiles'[user].apiCallsCount == 0 && profiles'[user].subscriptionStatus == "free"
            && profiles'[user].theme == SystemTheme && profiles'[user].notificationPreferences == []
            && (forall u :: u in profiles ==> profiles'[u] == profiles[u]))
      && (forall u :: u in profiles' ==> profiles'[u].user == u || (u in profiles && profiles'[u] == profiles[u]))
  {
  }

  /** The profile rows, one per user, keyed by the user's id. */
  class ProfileTable {
    var profiles: map<UserId, UserProfile>

    ghost predicate Valid()
      reads this
    {
      forall u :: u in profiles ==> profiles[u].user == u
    }

    constructor ()
      ensures Valid() && profiles == map[]
    {
      profiles := map[];
    }

    /** The post_save receiver for User. */
    method CreateUserProfile(user: UserId, created: bool) returns (outcome: ProfileOutcome)
      requires Valid()
      modifies this
      ensures Valid()
      ensures (outcome, profiles) == CreateUserProfileResult(old(profiles), user, created)
    {
      if !created {
        return NoProfileCreated;
      }
      if user in profiles {
        return ProfileConflict;
      }
      profiles := profiles[user := DefaultProfile(user)];
      outcome := ProfileCreated;
    }
  }
}
