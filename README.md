# SaaS billing and tools portal, modelled in Dafny

This project models the logic of a Django subscription portal and its browser helpers:

- the usage-limit gate in front of the AI tools;
- the per-user subscription table and its plan-change, cancel and reactivate views;
- the Razorpay payment lifecycle, and the mapping from payment status to invoice status;
- the paise conversion of order amounts;
- the API-key registry: generation, the key-filling pre-save hook, revocation, listing and the owner permission;
- the tool-usage and activity logs that `process_tool` appends to;
- the profile helpers: default profile, full name, subscription display, the notification-preference map and the usage percentage;
- the billing template filters;
- the browser's theme toggle, form validation, `getCookie` and `getCsrfToken`.

Each area is one module:

| module | file |
|---|---|
| `Wrappers`, `Text`, `Decimals` | shared helpers |
| `UsageGate` | usage_gate.dfy |
| `BillingModels` | billing_models.dfy |
| `BillingViews` | billing_views.dfy |
| `PaymentModels` | payment_models.dfy |
| `PaymentService` | payment_service.dfy |
| `PaymentViews` | payment_views.dfy |
| `Tools` | tools.dfy |
| `Accounts` | accounts.dfy |
| `ApiKeys` | api_keys.dfy |
| `ApiViews` | api_views.dfy |
| `BillingTags` | billing_tags.dfy |
| `Browser` | browser.dfy |

## How it is modelled

Pure steps, such as the gate decision, `__str__`, the filters and the parsers, are functions. They are specified by their contracts and by lemmas.

Views that save rows are class methods:

- `BillingViews.SubscriptionTable`, `PaymentViews.PaymentLedger`, `ApiKeys.KeyRegistry`, `Tools.UsageLog`, `Accounts.ProfileTable` and `Browser.ThemeState` hold the database tables (or the page state) as `map`/`seq` fields.
- Each method's `ensures` ties its outcome and new state to a pure function of the old state, such as `ChangePlanResult`, `WebhookResult` or `RevokeResult`.
- The lemmas about those functions state what each view promises.

The loops in `getCookie` and `validateForm` are `while` loops with invariants.

### Inputs that come from outside

Anything the code gets from outside is an explicit parameter:

- the clock (`now`);
- the month-ahead end date (`periodEnd`);
- the Razorpay replies (`GatewayReply`, `ValidationReply`, `ClientConstruction`);
- the signature check (`SignatureCheck`: valid, mismatch, or another exception);
- `uuid.uuid4()` (a string satisfying `IsUuidText`);
- the database's answer to an insert;
- the parsed request body;
- the page parameter;
- `decodeURIComponent` (an uninterpreted `string -> string`).

### What the code does not do

- The usage gate only reads: it takes no lock, never increments `api_calls_count`, and nothing in the modelled code rolls the counter over.
- The gate is not applied to `process_tool`, and `Tools.ProcessToolResult` neither reads nor writes the counter.
- The payment callback writes the status `completed`, which is not among the declared choices of `Payment.status`. `PaymentModels.IsDeclaredChoice` makes that visible, and `PaymentViews.CallbackCompletes` proves the stored status is undeclared.

## Model

| member | source | states |
|---|---|---|
| UsageGate.RejectionReply | tools/decorators.py:19-39 | every rejection is an unsuccessful reply; 429 with exactly the limit and usage for the quota case, 403 with no limit/usage otherwise |
| UsageGate.AdmitIffAdmissible | tools/decorators.py:9-41 | the gate admits iff there is an active, in-window, non-cancelling subscription whose limit exceeds the usage |
| UsageGate.NoLiveSubscriptionRejected | tools/decorators.py:10-16 | "no active subscription" exactly when there is no row, the status is not active, or now lies outside [start, end] inclusive |
| UsageGate.PendingCancellationFirst | tools/decorators.py:19-23 | a live subscription flagged cancel-at-period-end is refused with 403 whatever the usage, before the limit check |
| UsageGate.LimitReachedReply | tools/decorators.py:26-33 | a live, non-cancelling subscription with usage >= limit gives the 429 reply carrying that limit and usage |
| UsageGate.AdmitMonotone | tools/decorators.py:27 | if a usage is admitted, every smaller usage is admitted with all else equal |
| UsageGate.NonPositiveLimitAdmitsNothing | tools/decorators.py:27 | a plan limit <= 0 admits no non-negative usage |
| UsageGate.DecisionIsPerUser | tools/decorators.py:11-16 | the decision depends only on the requesting user's own subscription row |
| BillingModels.ParseSubscriptionStatus | billing/models.py:21-26 | a parsed status value prints back to exactly the text it was parsed from |
| BillingModels.SubscriptionStatusRoundTrip | billing/models.py:21-26 | every status round-trips through its stored text |
| BillingModels.NewSubscription | billing/models.py:28-33 | a new subscription is active with the cancel flag false and the given plan, user and dates |
| BillingModels.NewInvoice | billing/models.py:41-54 | a new invoice is a draft with no paid_at |
| BillingModels.SubscriptionTextNamesPlan | billing/models.py:37-38 | the text starts with the username and " - "; for one user, two subscriptions print alike iff their plans have the same name |
| BillingModels.InvoiceTextNamesInvoice | billing/models.py:58-59 | two invoices of the same user that print alike have the same id |
| BillingModels.FindActivePlan | billing/views.py:49 | the plan found is in the catalogue, has the slug and is active; none is found iff no active plan has the slug |
| BillingModels.FindActivePlanUnique | billing/models.py:6 | in a catalogue with unique slugs the active plan found for a slug is the one with that slug |
| BillingViews.CurrentSubscription | billing/views.py:51-54 | the user's subscription is returned iff their row is active |
| BillingViews.ChangePlanUnknownPlan | billing/views.py:49 | a missing or inactive plan slug gives not-found and leaves the table unchanged |
| BillingViews.ChangePlanSamePlan | billing/views.py:56-58 | the active subscription already on the plan: nothing changes |
| BillingViews.ChangePlanSwitchesOnlyPlan | billing/views.py:59-62 | switching replaces only the plan; id, user, status, dates, cancel flag and other users' rows stay |
| BillingViews.ChangePlanCreates | billing/views.py:63-75 | with no row, one active subscription is added: that plan, start now, end one month on, cancel flag false, next id, others untouched |
| BillingViews.ChangePlanLeavesUserOnPlan | billing/views.py:56-75 | after any successful change the user's active subscription is on the requested plan |
| BillingViews.ChangePlanKeepsTable | billing/models.py:28 | change_plan keeps one row per user with consistent ids and touches only the requester's row |
| BillingViews.ChangePlanLapsedRowCollides | billing/views.py:63-74 | with only a non-active row, the create branch collides with the one-to-one user column and nothing is stored |
| BillingViews.LapsedSubscriberExample | billing/views.py:51-74 | a user with an expired subscription who picks a plan gets the duplicate-row error |
| BillingViews.ChangePlanIntendedAlwaysSubscribes | billing/views.py:56-75 | the corrected change_plan always leaves the user actively on the requested plan and keeps other rows |
| BillingViews.ChangePlanIntendedAgrees | billing/views.py:46-77 | wherever the code as written does not collide, the corrected change_plan does exactly the same |
| BillingViews.SetCancelFlagChangesOnlyFlag | billing/views.py:82-109 | POST sets only the active subscription's cancel flag; non-POST or no active subscription changes nothing |
| BillingViews.SetCancelFlagIdempotent | billing/views.py:82-109 | cancel and reactivate are idempotent |
| BillingViews.CancelThenReactivate | billing/views.py:82-107 | cancel then reactivate ends with the flag false, still active, and restores a table that was not flagged |
| BillingViews.SetCancelFlagKeepsTable | billing/models.py:28 | cancel and reactivate keep the one-row-per-user table well formed |
| BillingViews.SubscriptionTable.ChangePlan | billing/views.py:46-77 | the stored table and outcome are those of ChangePlanResult |
| BillingViews.SubscriptionTable.CancelSubscription | billing/views.py:79-94 | the stored table and outcome are those of SetCancelFlagResult with the flag true |
| BillingViews.SubscriptionTable.ReactivateSubscription | billing/views.py:96-111 | the stored table and outcome are those of SetCancelFlagResult with the flag false |
| PaymentModels.NewPayment | payments/models.py:21-22 | a new payment is created, in INR, with a declared status |
| PaymentModels.InvoiceStatusFor | payments/models.py:34-38 | exactly captured, failed and refunded map, to paid, failed and void |
| PaymentModels.InvoiceAfterPaymentCases | payments/models.py:40-42 | captured sets paid and paid_at to updated_at; failed and refunded set failed/void and clear paid_at; others leave the invoice |
| PaymentModels.InvoiceAfterPaymentIdempotent | payments/models.py:29-43 | applying the invoice update twice equals applying it once |
| PaymentModels.PaidIffCaptured | payments/models.py:35-42 | an unpaid invoice becomes paid iff the payment is captured, and then paid_at is the payment's updated_at |
| PaymentService.InitRequiresCredentials | payments/services.py:12-13 | a missing or empty key id or secret fails before any client exists |
| PaymentService.InitWithCredentials | payments/services.py:15-38 | with credentials: debug keeps the client as built; otherwise success iff built and validation did not fail with bad request |
| PaymentService.OrderData | payments/services.py:44-50 | the order data carries the paise amount, the currency and payment_capture "1" |
| PaymentService.CreateOrderFailures | payments/services.py:52-64 | success iff the gateway created the order; errors map to the network, bad-request and generic messages |
| PaymentService.OrderDataExact | payments/services.py:44 | an amount with at most two decimals converts exactly to amount x 100 paise, currency INR by default |
| PaymentService.VerifyPaymentSignature | payments/services.py:66-76 | false exactly on a signature-verification error, true when the check passes, any other exception propagates |
| Decimals.TruncDiv | payments/services.py:44 | quotient truncated toward zero, for both signs |
| Decimals.ToHundredths | payments/services.py:44 | the paise value is amount x 100 truncated toward zero |
| Decimals.ToHundredthsExact | payments/services.py:44 | with at most two decimal places the conversion is exact |
| Decimals.ToHundredthsExample | payments/services.py:44 | 29.99 converts to 2999 |
| Decimals.ToHundredthsRescale | payments/services.py:44 | trailing zeros in the decimal do not change the paise value |
| Decimals.ToHundredthsMonotone | payments/services.py:44 | a <= b implies paise(a) <= paise(b) |
| PaymentViews.InitiateFreePlan | payments/views.py:22-25 | a plan priced <= 0 redirects to change_plan and creates no payment |
| PaymentViews.InitiateCreatedValue | payments/views.py:29-48 | a created order stores one created payment with that order id and amount and shows checkout |
| PaymentViews.InitiateRecordsOnePayment | payments/views.py:29-44 | a created order adds exactly one payment row, status created, leaving other rows and invoices unchanged |
| PaymentViews.InitiateFailedOrder | payments/views.py:50-56 | a failed order stores nothing; the message is the network one iff the error mentions "Network error", and the generic one otherwise |
| PaymentViews.WebhookRefusedUnchanged | payments/views.py:71-92 | a non-POST or unverified webhook is refused and changes nothing |
| PaymentViews.WebhookOtherEvent | payments/views.py:78-87 | any event other than payment.captured is acknowledged and changes nothing |
| PaymentViews.WebhookCaptures | payments/views.py:81-87 | payment.captured sets that payment's status to captured and nothing else |
| PaymentViews.CallbackCompletes | payments/views.py:145-151 | a verified callback sets the payment id and status completed on the order's payment; completed is not a declared choice |
| PaymentViews.WebhookLookupNotUnique | payments/views.py:81-90 | no payment, or several, with the captured gateway payment id: a 400 and nothing changes |
| PaymentViews.CallbackLookupNotUnique | payments/views.py:145-155 | no payment, or several, for the order: the failed-verification message and nothing changes |
| PaymentViews.CallbackRefusedUnchanged | payments/views.py:133-158 | a non-POST or unverified callback changes nothing |
| PaymentViews.WebhookLeavesInvoices | payments/views.py:78-87 | the webhook never touches invoices or adds payments |
| PaymentViews.CallbackLeavesInvoices | payments/views.py:145-151 | the callback never touches invoices or adds payments |
| PaymentViews.UpdateInvoiceStatusEffect | payments/models.py:29-43 | the update touches only the linked invoice, is a no-op without one, and is idempotent |
| PaymentViews.CancelSubscriptionByIdOwner | payments/views.py:119-124 | a non-owner gets 403; the owner gets no response and nothing changes |
| PaymentViews.PaymentLedger.InitiatePayment | payments/views.py:20-56 | the stored ledger and outcome are those of InitiatePaymentResult |
| PaymentViews.PaymentLedger.RazorpayWebhook | payments/views.py:58-92 | the stored ledger and outcome are those of WebhookResult |
| PaymentViews.PaymentLedger.PaymentCallback | payments/views.py:126-158 | the stored ledger and outcome are those of CallbackResult |
| PaymentViews.PaymentLedger.UpdateInvoiceStatus | payments/models.py:29-43 | the stored ledger is that of UpdateInvoiceStatusResult |
| Tools.ToolList | tools/views.py:15-17 | only active tools are listed, of the selected category when one is given |
| Tools.ToolListComplete | tools/views.py:15-17 | every active tool of the selected category (or of any category without one) is listed |
| Tools.ToolListEmptySelection | tools/views.py:16 | an empty category parameter selects like no parameter |
| Tools.NumPages | tools/views.py:19 | pages of 12 cover every item, at least one page |
| Tools.PageIndex | tools/views.py:20-21 | a valid page number is kept; a non-integer gives page 1; an out-of-range number gives the last page |
| Tools.GetPage | tools/views.py:19-21 | a page holds at most 12 items and is non-empty when there are items |
| Tools.PageHoldsItem | tools/views.py:19-21 | item i appears on page i / 12 + 1 |
| Tools.ProcessAiRequest | tools/views.py:95-98 | the placeholder uses 100 tokens and costs cost_per_token x tokens_used |
| Tools.AiCostMonotone | tools/views.py:98 | a tool with a higher cost per token yields a higher recorded cost |
| Tools.FindActiveTool | tools/views.py:53 | the tool found is active with the slug; none is found iff no active tool has it |
| Tools.ProcessToolRefused | tools/views.py:51-53 | a non-POST or unknown/inactive slug records nothing |
| Tools.ProcessToolAlwaysFails | tools/views.py:56-86 | as written, every POST with a JSON body to an active tool fails: the usage row without input_data/output_data is refused, no usage is recorded and one error activity carries the database error |
| Tools.ProcessToolSuccess | tools/views.py:59-77 | with input and output data recorded, a stored row appends exactly one successful usage (100 tokens, cost_per_token x tokens) and one tool_usage activity, and the result is returned |
| Tools.ProcessToolIntendedAgrees | tools/views.py:52-56 | the corrected view and the code as written agree on every request that does not reach the usage insert |
| Tools.UsedHundredTokens | tools/views.py:74 | the activity text is "Used <name> tool - 100 tokens" |
| Tools.ProcessToolInvalidJson | tools/views.py:55-86 | invalid JSON appends no usage row and one error activity, answering with the error |
| Tools.ProcessToolAppendOnly | tools/views.py:55-86 | as written and as corrected, each log grows by at most one entry at its end, a usage exactly when the request is processed, an error activity on every failure |
| Tools.UsageLog.ProcessTool | tools/views.py:52-86 | the stored logs and outcome are those of ProcessToolResult, the code as written |
| Accounts.DefaultProfile | accounts/models.py:13-25 | a fresh profile: theme system, status free, zero calls, no preferences, blank text fields |
| Accounts.FullNameShape | accounts/models.py:32-34 | the full name is first + " " + last with outer whitespace stripped |
| Accounts.FullNameCases | accounts/models.py:32-34 | both names empty gives ""; names without outer whitespace are joined by one space |
| Accounts.PastDueDisplay | accounts/models.py:36-38 | "past_due" displays as "Past Due" |
| Accounts.FreeDisplay | accounts/models.py:36-38 | "free" displays as "Free" |
| Accounts.SubscriptionDisplayShape | accounts/models.py:38 | the display has no '_' and the status's length |
| Accounts.BuildPreferences | accounts/views.py:40-45 | the map has the given keys in order, each true iff selected |
| Accounts.EnabledKeys | accounts/views.py:62-66 | every enabled key listed is mapped to true |
| Accounts.BuiltPreferenceKeys | accounts/views.py:40-45 | the built map has exactly email_updates, product_news, security_alerts and usage_reports |
| Accounts.UnknownSelectionIgnored | accounts/views.py:41-44 | a selection that is not a key changes nothing |
| Accounts.EnabledOfBuilt | accounts/views.py:40-66 | the enabled keys of a built map are the selected known keys, in key order |
| Accounts.BuiltOfEnabled | accounts/views.py:40-66 | rebuilding a map from its own enabled keys gives the map back |
| Accounts.EnabledContains | accounts/views.py:62-66 | a key mapped to true is among the enabled keys |
| Accounts.ProfileCallLimit | accounts/views.py:70-83 | the limit is the active plan's, or 100 without an active subscription |
| Accounts.RoundPositive | accounts/views.py:85 | rounding to nearest, ties to even |
| Accounts.UsagePercentage | accounts/views.py:85 | a zero limit divides by zero; otherwise the percentage is at most 100 |
| Accounts.UsagePercentageInRange | accounts/views.py:85 | usage within the limit gives a percentage in [0, 100] |
| Accounts.UsagePercentageExact | accounts/views.py:85 | an exact ratio gives that percentage, capped at 100 |
| Accounts.UsagePercentageCapped | accounts/views.py:85 | usage at or over the limit shows 100 |
| Accounts.CreateUserProfileEffect | accounts/models.py:51-54 | a created user gets exactly one default profile; a re-save adds nothing; other profiles stay |
| Accounts.ProfileTable.CreateUserProfile | accounts/models.py:51-54 | the stored profiles and outcome are those of CreateUserProfileResult |
| ApiKeys.UuidFitsKeyColumn | api/signals.py:10 | the 36-character UUID text is non-empty and fits the 64-character key column |
| ApiKeys.FilledKeyProperties | api/signals.py:8-10 | an empty key becomes the UUID, a non-empty key is kept, the result is non-empty, a second fill changes nothing |
| ApiKeys.KeyInstance.GenerateKeyHook | api/signals.py:7-10 | the instance's key is the filled key |
| ApiKeys.InsertKeyEffect | accounts/models.py:40-46 | a key is stored, active, iff its text is not taken and fits 64 characters and the name fits 50; keys stay unique |
| ApiKeys.ActiveKeys | api/views.py:25-26 | the listing is exactly the requester's active keys |
| ApiKeys.GenerateFromProfileEffect | accounts/views.py:98-108 | POST stores one active key with a fresh UUID, the form's name or "Default Key"; non-POST stores nothing |
| ApiKeys.GenerateFromApiEffect | api/views.py:43-52 | one active key owned by the requester, the request's name or "Default Key", key filled by the hook, and it is listed |
| ApiKeys.RevokeNotOwned | api/views.py:57 | a key that does not exist or is not the requester's gives 404 and changes nothing |
| ApiKeys.RevokeEffect | api/views.py:57-63 | revoking sets only that key inactive; the reply reports the key with is_active false; other keys are unchanged; the pre-save hook run by `save()` leaves the stored key as it is |
| ApiKeys.RevokeLeavesListing | api/views.py:26-58 | after revoking, the listing is the old listing minus that key |
| ApiKeys.RevokeIdempotent | api/views.py:57-59 | revoking twice equals revoking once |
| ApiKeys.KeyRegistry.ListActive | api/views.py:25-26 | the registry's listing holds exactly its stored keys that are the requester's and active, unchanged |
| ApiKeys.KeyRegistry.Insert | accounts/models.py:40-46 | the stored table and outcome are those of InsertKey, with the key filled by the pre-save hook |
| ApiKeys.KeyRegistry.GenerateFromProfile | accounts/views.py:98-108 | the stored table and outcome are those of GenerateFromProfileResult |
| ApiKeys.KeyRegistry.GenerateFromApi | api/views.py:43-52 | the stored table and reply are those of GenerateFromApiResult |
| ApiKeys.KeyRegistry.Revoke | api/views.py:54-63 | the stored table and reply are those of RevokeResult |
| ApiViews.IsOwnerBranches | api/permissions.py:7-12 | an object with a user is permitted iff it is the requester's; one without iff it is the requester's profile |
| ApiViews.ProfileAsObject | api/permissions.py:9-12 | a profile is an object with a user, so the first branch applies |
| ApiViews.ProfileDecidedByUser | api/permissions.py:9-12 | a profile is permitted iff its user is the requester, whatever its primary key |
| ApiViews.OwnedRowsDecidedByUser | api/permissions.py:9-10 | keys and subscriptions are permitted iff owned; another user's row never is |
| ApiViews.PlanListing | api/views.py:32 | the plan listing holds only active catalogue plans |
| ApiViews.PlanListingComplete | api/views.py:32 | every active plan is listed |
| ApiViews.PlanListingOrdered | billing/models.py:14-15 | the listing keeps unique slugs and ascending price order |
| ApiViews.SubscriptionListing | api/views.py:40-41 | at most one row, and none iff the requester has no subscription |
| ApiViews.SubscriptionListingExact | api/views.py:40-41 | in a valid table a subscription is listed iff it is a stored row whose user is the requester |
| ApiViews.SubscriptionListingOwned | api/views.py:40-41 | every listed subscription passes the owner check for the requester |
| ApiViews.KeyListingOwned | api/views.py:25-26 | every listed key passes the owner check for the requester |
| BillingTags.ReplaceUnderscoreShape | billing/templatetags/billing_tags.py:8 | the filtered text has no '_' and the input's length |
| BillingTags.ReplaceUnderscoreAt | billing/templatetags/billing_tags.py:7-8 | '_' becomes a space, other non-letters are kept, a letter starting a run of letters is upper-case and the rest lower-case |
| BillingTags.ReplaceUnderscoreIdempotent | billing/templatetags/billing_tags.py:8 | applying the filter twice equals applying it once |
| BillingTags.PercentageCorners | billing/templatetags/billing_tags.py:12-15 | max_value 0 gives 0; 0 of m gives 0; v of v gives 100 |
| BillingTags.PercentageInRange | billing/templatetags/billing_tags.py:13 | for 0 <= v <= w the percentage is non-negative and monotone, and at most 100 when w <= m |
| Text.TitleAt | billing/templatetags/billing_tags.py:8 | title() keeps length and letters, capitalising exactly the first letter of each run |
| Text.TitleIdempotent | billing/templatetags/billing_tags.py:8 | title() applied twice equals once |
| Text.TitleKeepsNonLetters | billing/templatetags/billing_tags.py:8 | title() keeps every non-letter character |
| Text.StripShape | accounts/models.py:34 | strip() removes exactly the leading and trailing whitespace |
| Text.JoinSplit | static/js/main.js:162 | joining the split pieces with the separator gives the string back |
| Text.SplitAfterPiece | static/js/profile.js:86 | a piece without the separator is split off first |
| Text.DigitsValueOfNatToString | billing/models.py:58-59 | the printed invoice number reads back as the id |
| Text.NatToStringInjective | billing/models.py:58-59 | distinct ids print differently |
| Browser.NextTheme | static/js/main.js:8 | the toggle yields "dark" iff the current theme is "light", "light" otherwise |
| Browser.ToggleTwice | static/js/main.js:8 | toggling twice from light or dark restores it |
| Browser.SavedTheme | static/js/main.js:15 | a stored non-empty theme is used, "light" otherwise |
| Browser.ThemeState.ApplySaved | static/js/main.js:15-16 | the page theme becomes SavedTheme of the store |
| Browser.ThemeState.Toggle | static/js/main.js:5-12 | page theme and store both become NextTheme of the page theme |
| Browser.ValidateForm | static/js/main.js:20-34 | every input is visited; each is marked iff blank after trim; valid iff none is blank |
| Browser.FindEntry | static/js/main.js:163-168 | the entry found starts with the prefix; none iff no entry does |
| Browser.FindEntryFirst | static/js/main.js:163-168 | the first matching entry wins |
| Browser.TrimmedAt | static/js/main.js:164 | every entry is trimmed before it is compared |
| Browser.GetCookie | static/js/main.js:159-172 | the loop returns CookieValue of the cookie string |
| Browser.CookieValueNone | static/js/main.js:160-171 | null iff the cookie string is empty or no trimmed entry starts with name + "=" |
| Browser.CookieFirstMatch | static/js/main.js:163-167 | the first matching trimmed entry's rest, decoded, is returned |
| Browser.LongerNameNotMatched | static/js/main.js:165 | a cookie whose name only starts with the name is not matched |
| Browser.GetCookieSecondEntry | static/js/main.js:159-172 | in "a; name=v" with a not matching, getCookie returns decode(v) |
| Browser.CsrfTokenMissing | static/js/profile.js:84-90 | no entry starting with "csrftoken=" gives "" |
| Browser.TokenFromRowPlain | static/js/profile.js:88 | a value without '=' is returned whole |
| Browser.TokenFromRowCut | static/js/profile.js:88 | a value containing '=' is cut at its first '=' |
| Browser.CsrfTokenOfFirstEntry | static/js/profile.js:86-89 | the first entry starting with "csrftoken=" decides the token, undecoded |
| Browser.CsrfNeedsSpace | static/js/profile.js:86 | entries joined by a bare ';' are not split, so the token is not found |

## Left out

- Floating point. `percentage` computes `int((v / m) * 100)` in floats; `int((29/100)*100)` is 28 there. The model computes `100 v / m` exactly and truncates toward zero, so `BillingTags.Percentage` claims only corner, range and monotonicity facts that the float version also has. `Accounts.UsagePercentage` likewise rounds the exact ratio, and `float(plan.price)` in the payment views is taken as the exact price in paise.
- `relativedelta(months=1)` is a library call; the end date is the `periodEnd` parameter, and only `now < periodEnd` is assumed of it.
- The gate reads the clock twice; the model uses one `now`.
- The counter reset command (api/commands/reset_api_calls.py) calls a method the shown Subscription does not define; it is not part of this model.
- Razorpay client construction, order creation and HMAC signature verification are library I/O; they are the oracle parameters above.
- PaymentService.CreateOrder: the gateway reply does not depend on `Service.hasClient`. A service that carried on in debug mode without a client raises `AttributeError` on `self.client` in every `create_order` (payments/services.py:53, 62-64), so only `OtherFailure` can happen there, but the model lets the reply be any of the four.
- Accounts.EnabledOfBuilt: the key order it states is the dict literal's (accounts/views.py:40-45). The GET branch reads the map back from the database. A backend that stores JSON as text keeps that order, but PostgreSQL's `jsonb` reorders the keys. There only the set of enabled keys is promised, not their order.
- Logging and the `messages` framework texts are not modelled, except where a message decides a branch.
- Authentication (`login_required`, `IsAuthenticated`) is assumed: every view is given the requesting user.
- `auto_now_add` creation timestamps are not modelled; `updated_at` is the `now` a view writes.
- Database refusals are modelled at three insert sites. The ToolUsage insert (tools/views.py:62-68) is always refused for its NULL input_data, see Findings; any other error of a well-formed row is the `db` parameter. The APIKey inserts (accounts/views.py:102-106, api/views.py:47-50) are refused for a taken key or an over-long key or name. The Subscription insert (billing/views.py:63-74) is refused when the user already has a row.
- The UserActivity, Payment and UserProfile inserts supply every NOT NULL column; they are taken to succeed. Column widths other than the API key's are not enforced.
- `Tools.NullColumnError` is SQLite's wording of the NOT NULL failure; other database backends word it differently.
- ApiKeys.InsertKey: assumes a database backend that enforces `VARCHAR` widths, such as PostgreSQL. `objects.create` runs no model validation, so the 64- and 50-character limits (accounts/models.py:42-43) come only from the database. SQLite does not enforce them: there a 60-character name is stored, where the model refuses the insert. Every backend enforces NOT NULL, so only the wording of `Tools.NullColumnError` is SQLite's.
- The payment callback's `get(razorpay_order_id=...)` and the webhook's `get(razorpay_payment_id=...)` (payments/views.py:83, 145) are modelled for every match count. `PaymentViews.CallbackResult` and `PaymentViews.WebhookResult` refuse unless exactly one payment matches: the `get()` raises `DoesNotExist` or `MultipleObjectsReturned`, and the views' `except Exception` branches turn either into the refusal (`PaymentViews.WebhookLookupNotUnique`, `PaymentViews.CallbackLookupNotUnique`).
- The other `get()` lookups of the modelled views are by primary key, a unique slug or the one-to-one user column, so they match at most one row.
- `APIKeyViewSet.perform_create` goes through the serializer; it is not part of this model.
- The `invoice_pdf`, `pricing`, `subscription`, `payment_history`, `payment_success`, `payment_cancel`, dashboard and profile-rendering views are rendering and queries; they are not part of this model. `Payment.__str__` is not modelled.
- The URL configuration is not modelled; core/urls.py does not route the payments views.
- `str.title()` and `strip()` are modelled with ASCII letter cases; non-ASCII letters are treated as uncased.
- `decodeURIComponent` is an uninterpreted function; the URIError it can throw is not modelled.
- `showError`/`clearError` DOM updates become the `marked` flags of `Browser.ValidateForm`. Toasts, dropdowns, timers, fetch and clipboard code are UI only.
- `Tools.PageIndex`: Django's page-number parsing is framework code; the model takes the parsed parameter and follows the Paginator's fallbacks.

## Findings

| source | as written | input that shows it | evidently intended | confidence | as-written member | corrected member |
|---|---|---|---|---|---|---|
| billing/views.py:51-74 | `change_plan` looks only for an active row and otherwise creates a new subscription, but the user column is one-to-one (billing/models.py:28) | a user whose only subscription is expired picks any active plan: the insert violates the unique user column and the view fails | reuse the user's lapsed row: set the plan, status active, new dates and cancel flag false | not executed | BillingViews.LapsedSubscriberExample | BillingViews.ChangePlanIntendedAlwaysSubscribes |
| tools/views.py:62-68 | `process_tool` creates the ToolUsage row without `input_data` and `output_data`, which tools/models.py:43-44 declares as JSONField() with no null=True and no default | any POST with a valid JSON body to an active tool: the insert writes NULL into the NOT NULL input_data column, the IntegrityError lands in the except branch, and the view answers 400 with an error activity | record the request data and the result's output in the usage row, so the insert succeeds and the usage is logged | not executed | Tools.ProcessToolAlwaysFails | Tools.ProcessToolSuccess |
