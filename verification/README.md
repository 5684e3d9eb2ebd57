# Billing and token accounting of an AI-chat SaaS backend, in Dafny

This project models the billing and token-accounting core of a SvelteKit backend that proxies AI
chat and sells subscriptions through Stripe and PayPal. Each user has a profile row holding a
plan, a status, and token counters. Route handlers read and rewrite that row:

- a chat turn spends tokens;
- a PayPal capture or a Stripe checkout upgrades the plan;
- Stripe webhook events renew, downgrade or flag the subscription.

The external store (`user_profiles`, `paypal_orders`, `payments`, `chat_messages`) is one class,
`Store.Store`, with one method per route handler. Everything the handlers get from outside
services is a method parameter:

- the session (no cookie, rejected, or a user);
- whether the webhook signature verified;
- the event kind and its payload;
- the AI model's reply text;
- the PayPal order, the capture status and the capture id;
- the Stripe customer id and the checkout session URL.

An `Option` parameter that is `None` stands for a call that threw. The handler's `catch` turns
that into a 500 answer.

Modules, one per source component:

- `Catalog` is the plan catalog (`SUBSCRIPTION_PLANS`). Prices are in US cents: 9.99 is 999.
- `Gemini` holds the context builder and the token estimate of `generateResponse`.
- `Records` holds the rows, the per-row updates each handler applies, the lookup by billing
  customer id, and the row invariants.
- `Orders` holds PayPal order rows and the approval-link search.
- `Checkout` builds the Stripe checkout session request and its URLs.
- `Webhook` holds the event-kind selection and each event's effect on the profile table and the
  ledger.
- `Http` holds sessions and responses.
- `Store` holds the class and its handler methods.

The handlers do not require the store to be well formed. Each one ensures that
`old(Valid()) ==> Valid()`. `Valid()` says two things. First, every profile names a catalog plan,
its `token_limit` is that plan's allowance, and `0 <= tokens_remaining <= token_limit`. Second,
every PayPal order names a catalog plan at its catalog price.

In two places the code departs from the intended design. The model follows the code:

- A completed Stripe checkout and a PayPal capture reset `tokens_remaining` and `token_limit` but
  not `tokens_used`. So the intended balance `tokens_remaining = max(0, token_limit - tokens_used)`
  is not kept by upgrades (`Records.UpgradeBreaksBalance`). It is kept by chat turns
  (`Records.ChatKeepsBalance`) and restored by renewals (`Records.RenewalKeepsWellFormed`).
- The plan check `!SUBSCRIPTION_PLANS[plan]` of the two payment routes also accepts the names every
  object literal inherits from Object.prototype, such as `toString` (see Findings). The handlers
  model that check as written (`Catalog.PassesPlanCheckAsWritten`). Such a name makes
  create-order answer 500 before the provider is asked. It makes create-checkout reuse or create
  the billing customer and then send a session request without a price.

## Model

| member | source | states |
|---|---|---|
| `Catalog.PlanById` | src/lib/server/stripe.js:8-29 | exactly `free`, `pro` and `enterprise` resolve to a plan and any other id to nothing; every plan grants tokens; a plan has no provider price id exactly when it costs nothing |
| `Catalog.Allowance` | src/lib/server/stripe.js:12-26 | no tier grants fewer tokens than the free tier's 1000 |
| `Catalog.CatalogEntries` | src/lib/server/stripe.js:9-28 | free: price 0, 1000 tokens, no price id; pro: 999 cents, 50000 tokens, `price_pro_monthly`; enterprise: 2999 cents, 200000 tokens, `price_enterprise_monthly` |
| `Catalog.AllowanceGrowsWithPrice` | src/lib/server/stripe.js:11-26 | a more expensive tier always grants strictly more tokens (free < pro < enterprise) |
| `Catalog.InheritedNamePassesPlanCheck` | src/routes/api/payments/paypal/create-order/+server.js:22-24 | the plan check as written lets `toString` through, though no plan has that id |
| `Catalog.PlanCheckAgreesOffPrototype` | src/routes/api/payments/stripe/create-checkout/+server.js:22-24 | for every name not inherited from Object.prototype, the check as written and the catalog lookup agree |
| `Gemini.LastTurns` | src/lib/server/gemini.js:14 | the result is the last ten turns of the history, or the whole history when it is shorter |
| `Gemini.BuildContext` | src/lib/server/gemini.js:11-18 | the context is empty exactly when there is no history, and otherwise ends with a newline |
| `Gemini.FullPrompt` | src/lib/server/gemini.js:11-20 | the prompt sent is the context followed by `User: ` and the new prompt |
| `Gemini.EstimateTokens` | src/lib/server/gemini.js:27 | the estimate is the ceiling of a quarter of prompt length plus reply length |
| `Gemini.Generate` | src/lib/server/gemini.js:6-36 | a failed model call yields no generation; otherwise the reply is returned with the estimate `EstimateTokens(fullPrompt, reply)`, the ceiling of a quarter of prompt plus reply length, which is at least 2 |
| `Gemini.JoinThenNewline` | src/lib/server/gemini.js:15-17 | joining lines with `\n` and appending one more `\n` ends every line with a newline |
| `Gemini.LinesEndWithNewline` | src/lib/server/gemini.js:16-17 | a non-empty context ends with a newline |
| `Gemini.ContextIsRenderedLines` | src/lib/server/gemini.js:11-18 | the context is the last ten (or fewer) turns, each rendered `role: content` and terminated by a newline; a non-empty history gives a context ending in `\n` |
| `Gemini.ContextIgnoresOlderTurns` | src/lib/server/gemini.js:13-14 | turns older than the last ten change neither the context nor the prompt |
| `Gemini.EmptyHistoryPrompt` | src/lib/server/gemini.js:11-20 | with no history the prompt is exactly `User: ` followed by the message |
| `Gemini.EstimateAtLeastTwo` | src/lib/server/gemini.js:20-27 | every estimate is at least 2, because the prompt always holds the six characters `User: ` |
| `Records.NewProfile` | src/routes/api/user/profile/+server.js:27-40 | the inserted row is on the free plan with 0 used and the free allowance as both remaining and limit; it is active, carries the user's email, and has no status, customer, subscription or message count yet |
| `Records.HasTokens` | src/routes/api/chat/+server.js:33-35 | a user may chat exactly when remaining tokens, a null read as 0, are positive |
| `Records.AfterChat` | src/routes/api/chat/+server.js:41-52 | remaining tokens become max(0, old - cost), never negative and never above the old value; `tokens_used` becomes (old or 0) + cost; `total_messages` goes up by one; no other column changes |
| `Records.Purchased` | src/routes/api/payments/paypal/capture/+server.js:40-49 | a capture sets the plan, the plan's tokens as both remaining and limit, and status `active`; no other column changes |
| `Records.Subscribed` | src/routes/api/payments/stripe/webhook/+server.js:57-67 | a completed checkout is a capture's update plus the subscription id |
| `Records.Downgraded` | src/routes/api/payments/stripe/webhook/+server.js:119-129 | a deleted subscription puts the row on the free plan with the free allowance as remaining and limit, status `canceled` and no subscription id; no other column changes |
| `Records.WithStatus` | src/routes/api/payments/stripe/webhook/+server.js:98-104 | the provider's status is copied onto the row, and nothing else changes |
| `Records.Renewed` | src/routes/api/payments/stripe/webhook/+server.js:144-154 | with a catalog plan, usage becomes 0 and remaining tokens the plan's allowance; with an unknown plan the row is unchanged; only those two columns change |
| `Records.WithCustomer` | src/routes/api/payments/stripe/create-checkout/+server.js:49-52 | recording a new billing customer changes `stripe_customer_id` and nothing else |
| `Records.StoredCustomer` | src/routes/api/payments/stripe/create-checkout/+server.js:29-37 | a stored customer id is reused exactly when the row exists and its id is non-empty |
| `Records.CustomerOwner` | src/routes/api/payments/stripe/webhook/+server.js:89-96 | a customer id resolves to a user only when exactly one row holds it; otherwise no row, or every holder has a co-holder |
| `Records.OwnerStable` | src/routes/api/payments/stripe/webhook/+server.js:110-129 | rewriting a row without touching its customer id leaves every customer lookup unchanged |
| `Records.NewProfileIsFreeTier` | src/routes/api/user/profile/+server.js:27-44 | the created row is on the free plan with 0 used and 1000 of 1000 tokens (the catalog's free allowance); it is well formed and balanced, carries the user's email, and has full name `''` when the metadata lacks one |
| `Records.ChatKeepsWellFormed` | src/routes/api/chat/+server.js:41-52 | a chat turn keeps a well-formed row well formed |
| `Records.ChatKeepsBalance` | src/routes/api/chat/+server.js:41-48 | a chat turn keeps remaining = max(0, limit - used) when it held before |
| `Records.PurchaseKeepsWellFormed` | src/routes/api/payments/paypal/capture/+server.js:40-49 | an upgrade to a catalog plan with its allowance yields a well-formed row, whatever the row was |
| `Records.DowngradeProperties` | src/routes/api/payments/stripe/webhook/+server.js:118-129 | a downgrade yields a well-formed free row whatever the prior plan; it is idempotent; its result does not depend on the prior plan, status, remaining tokens, limit or subscription |
| `Records.RenewalKeepsWellFormed` | src/routes/api/payments/stripe/webhook/+server.js:144-154 | a renewal of a well-formed row is well formed and balanced |
| `Records.StatusKeepsWellFormed` | src/routes/api/payments/stripe/webhook/+server.js:98-104 | status and customer-id updates keep a row well formed |
| `Records.UpgradeBreaksBalance` | src/routes/api/payments/paypal/capture/+server.js:40-49 | a balanced row with 400 tokens used is no longer balanced after an upgrade to pro, since `tokens_used` is not reset |
| `Orders.FirstApproval` | src/routes/api/payments/paypal/create-order/+server.js:46 | the index returned is that of the first link whose rel is `approve`, or the length when there is none |
| `Orders.ApprovalUrl` | src/routes/api/payments/paypal/create-order/+server.js:46 | absent exactly when no link has rel `approve`; otherwise the href of the first such link |
| `Orders.OwnsOrder` | src/routes/api/payments/paypal/capture/+server.js:22-31 | an order is found only when the id exists and belongs to the caller; a missing id or another user's order is not found |
| `Orders.NewOrder` | src/routes/api/payments/paypal/create-order/+server.js:32-43 | the inserted row has the requested plan and user, status `created`, no capture id, and the plan's catalog price |
| `Orders.Completed` | src/routes/api/payments/paypal/capture/+server.js:52-59 | a captured order becomes `completed` with the provider's capture id; nothing else changes |
| `Orders.OrderRowsWellFormed` | src/routes/api/payments/paypal/create-order/+server.js:32-43 | created and completed orders carry a catalog plan at its catalog price |
| `Checkout.CancelUrl` | src/routes/api/payments/stripe/create-checkout/+server.js:67 | the cancel URL is exactly as long as the app URL, `/billing?plan=` and the plan together |
| `Checkout.CancelUrlRoundTrip` | src/routes/api/payments/stripe/create-checkout/+server.js:67 | the plan can be read back from the cancel URL: `PUBLIC_APP_URL + "/billing?plan=" + plan` |
| `Checkout.CheckoutRequest` | src/routes/api/payments/stripe/create-checkout/+server.js:56-72 | the session carries the customer, the plan's price id (none for a name that is not a catalog key), quantity 1, subscription mode and metadata naming the user and plan; its cancel URL names the plan |
| `Webhook.Classify` | src/routes/api/payments/stripe/webhook/+server.js:19-37 | exactly the five handled event types select a handler, and a handled kind is selected only by its own name |
| `Webhook.ClassifyNames` | src/routes/api/payments/stripe/webhook/+server.js:19-34 | each handled kind's name selects that kind |
| `Webhook.CheckoutTarget` | src/routes/api/payments/stripe/webhook/+server.js:47-54 | a checkout applies only when metadata `user_id` and `plan` are both non-empty and the plan is in the catalog |
| `Webhook.CheckoutProfiles` | src/routes/api/payments/stripe/webhook/+server.js:56-67 | a completed checkout neither adds nor removes profile rows |
| `Webhook.CheckoutLedger` | src/routes/api/payments/stripe/webhook/+server.js:69-83 | a checkout appends one Stripe payment at the catalog price for the named user and plan when it applies, and none otherwise |
| `Webhook.CheckoutNoOp` | src/routes/api/payments/stripe/webhook/+server.js:51-54 | missing metadata or an unknown plan changes neither profiles nor ledger |
| `Webhook.CheckoutUpgrades` | src/routes/api/payments/stripe/webhook/+server.js:57-67 | the named user gets plan, subscription id, allowance as remaining and limit, and status `active`; `tokens_used` and every other row stay unchanged |
| `Webhook.CheckoutRedelivered` | src/routes/api/payments/stripe/webhook/+server.js:47-83 | a redelivered checkout leaves the profiles as one delivery did |
| `Webhook.CheckoutKeepsWellFormed` | src/routes/api/payments/stripe/webhook/+server.js:57-67 | a completed checkout keeps every row well formed |
| `Webhook.CheckoutMetadataRoundTrip` | src/routes/api/payments/stripe/create-checkout/+server.js:68-71 | the metadata the checkout route sends brings the webhook back to the same user and plan: the row is upgraded to the plan and one payment at its price is logged |
| `Webhook.UpdateFor` | src/routes/api/payments/stripe/webhook/+server.js:23-34 | the four customer-keyed kinds, and only those, have a row update: a subscription update copies its status, a deletion downgrades, a paid invoice renews, a failed invoice sets `past_due` |
| `Webhook.ApplyUpdate` | src/routes/api/payments/stripe/webhook/+server.js:98-174 | no customer-keyed update changes the row's customer id |
| `Webhook.ForCustomer` | src/routes/api/payments/stripe/webhook/+server.js:89-96 | a customer-keyed event keeps the same set of rows and changes no row except the customer's sole owner |
| `Webhook.ApplyUpdateTwice` | src/routes/api/payments/stripe/webhook/+server.js:98-174 | every customer-keyed row update is idempotent |
| `Webhook.ForCustomerKeepsOwners` | src/routes/api/payments/stripe/webhook/+server.js:89-96 | no customer-keyed event changes what any customer id resolves to |
| `Webhook.ForCustomerIdempotent` | src/routes/api/payments/stripe/webhook/+server.js:86-175 | redelivering a customer-keyed event leaves the table as one delivery did |
| `Webhook.ForCustomerKeepsWellFormed` | src/routes/api/payments/stripe/webhook/+server.js:86-175 | customer-keyed events keep every row well formed |
| `Webhook.SubscriptionDeletedDowngrades` | src/routes/api/payments/stripe/webhook/+server.js:107-130 | the customer's row becomes free, canceled, 1000 of 1000 tokens, no subscription id, whatever its prior plan; an unknown customer changes nothing; applying it twice equals applying it once |
| `Webhook.InvoicePaidRenews` | src/routes/api/payments/stripe/webhook/+server.js:132-155 | usage becomes 0 and remaining tokens the current plan's allowance, with the limit unchanged; an unknown plan changes nothing |
| `Webhook.StatusEventsOnlySetStatus` | src/routes/api/payments/stripe/webhook/+server.js:157-175 | a subscription update or failed invoice changes only the status of the customer's row |
| `Http.Unauthorized` | src/routes/api/chat/+server.js:10-19 | a missing or rejected session answers 401 |
| `Store.Store.GetProfile` | src/routes/api/user/profile/+server.js:4-59 | 401 without a session; an existing row returned as is with no write; otherwise a free-tier row is inserted and returned, or 500 when the insert fails |
| `Store.Store.Chat` | src/routes/api/chat/+server.js:5-77 | 401, 500 (no row), 403 (no tokens left, or null) and 500 (model failed) leave the store unchanged, and only the last asks the model; otherwise the row gets `AfterChat` with the estimated cost, exactly one chat row with that cost is appended, and the reply reports the remaining count written |
| `Store.Store.CreatePaypalOrder` | src/routes/api/payments/paypal/create-order/+server.js:6-57 | 401 and 400 (the plan check fails) come before any provider call or insert; a name inherited from Object.prototype passes the check and answers 500 before any provider call or insert; for a catalog plan the provider is asked for the plan's price; on success exactly one `created` row at the catalog price is stored under the returned order id, with the first approval link |
| `Store.Store.CapturePaypal` | src/routes/api/payments/paypal/capture/+server.js:6-86 | no capture without a session or for an order not owned by the caller (404); a non-COMPLETED status answers 400 and an unknown plan 500, both without writes; COMPLETED upgrades the caller, completes the order and appends one PayPal payment at the order's stored amount |
| `Store.Store.CreateCheckout` | src/routes/api/payments/stripe/create-checkout/+server.js:6-80 | 401 and 400 (the plan check fails) come before any customer lookup; a plan that passes the check, including a name inherited from Object.prototype, reaches the customer step; a stored customer is reused without writes; otherwise a customer is created and written, and only that column changes; the session request carries user id and plan metadata and the cancel URL |
| `Store.Store.Webhook` | src/routes/api/payments/stripe/webhook/+server.js:6-45 | a bad signature answers 400 with no change; otherwise the selected handler's effect is applied, unhandled kinds change nothing, and the answer is `{received: true}` |
| `Store.Store.HandleCheckoutCompleted` | src/routes/api/payments/stripe/webhook/+server.js:47-84 | profiles become `CheckoutProfiles` and the ledger gains `CheckoutLedger` |
| `Store.Store.HandleSubscriptionUpdated` | src/routes/api/payments/stripe/webhook/+server.js:86-105 | the customer's sole row gets the provider status; an unknown customer is a no-op |
| `Store.Store.HandleSubscriptionDeleted` | src/routes/api/payments/stripe/webhook/+server.js:107-130 | the customer's sole row is downgraded; an unknown customer is a no-op |
| `Store.Store.HandlePaymentSucceeded` | src/routes/api/payments/stripe/webhook/+server.js:132-155 | the customer's sole row is renewed; an unknown customer or plan is a no-op |
| `Store.Store.HandlePaymentFailed` | src/routes/api/payments/stripe/webhook/+server.js:157-175 | the customer's sole row becomes `past_due`; an unknown customer is a no-op |
| `Store.PaypalPurchase` | src/routes/api/payments/paypal/capture/+server.js:62-75 | creating and then capturing an order logs exactly one payment at the plan's catalog price, upgrades the buyer and leaves the order `completed` |
| `Store.CheckoutDeliveredTwice` | src/routes/api/payments/stripe/webhook/+server.js:47-84 | a checkout event delivered twice leaves the profiles as one delivery did but appends two payment rows: events are not deduplicated |

## Findings

| source | as written | input that shows it | evidently intended | confidence | as-written member | corrected member |
|---|---|---|---|---|---|---|
| src/routes/api/payments/paypal/create-order/+server.js:22 | `!SUBSCRIPTION_PLANS[plan]` indexes an object literal, so every name the literal inherits from Object.prototype passes as a plan. The same check is at create-checkout:22. | `plan = "toString"`: the 400 branch is skipped. create-order then fails with 500 at `createPayPalOrder(undefined)` (`Store.Store.CreatePaypalOrder`). create-checkout may create and store a Stripe customer, then sends a session request without a price (`Store.Store.CreateCheckout`). | only the catalog's own ids are valid; anything else answers 400. `Catalog.PlanById` is that check, and `Catalog.PlanCheckAgreesOffPrototype` shows it differs from the check as written only on the inherited names | not executed; high that the check passes, low impact | `Catalog.InheritedNamePassesPlanCheck` | `Catalog.PlanById` |

## Left out

- SDK calls to Supabase auth, Stripe, PayPal and the AI model are not modelled; their replies are parameters. This covers `createCheckoutSession` and the `stripe` client in src/lib/server/stripe.js, all of src/lib/server/paypal.js, and `model.generateContent`. The Stripe customer-creation request (email, `user_id` metadata) is not modelled either.
- Webhook signature verification is cryptography inside the Stripe SDK; it is a boolean input.
- The admin routes (stats, users, check-access) and the client-side Svelte stores are not part of this model. They are a concurrent query fan-out with floating-point sums, a passthrough query, an auth gate and UI state.
- Prices are integer cents, not the source's floating-point dollars.
- Timestamps (`created_at`, `updated_at`) are not modelled; they are nondeterministic.
- Concurrency is not modelled: the store is sequential. Two chat requests that both pass the token check before either writes, and a capture whose later store writes fail, are not represented. Store writes whose errors the source ignores always succeed.
- A read error other than a missing row is not modelled separately. The chat route's 500 on a profile fetch error is modelled as the missing-row case.
- A malformed request body (a failing `request.json()`, answered 500) is not modelled; handlers receive the parsed fields.
- Columns an insert does not set (`subscription_status`, `total_messages`, the customer and subscription ids of a new profile) start as null. Database defaults are not part of this model.
- An order insert with an order id that already exists overwrites the row. PayPal issues unique order ids, and no uniqueness constraint is visible in the code.
- String lengths are counted in Dafny characters, not JavaScript UTF-16 code units. Numbers are unbounded integers, not IEEE doubles.
- The provider's answer to a checkout session without a price id (the free plan, or a name inherited from Object.prototype) is the `sessionUrl` input; the model does not decide whether the provider accepts it.
- Webhook.CheckoutTarget and Records.Renewed look plans up by the catalog's own keys. The source uses the same `SUBSCRIPTION_PLANS[plan]` check at src/routes/api/payments/stripe/webhook/+server.js:52-53 and :144-145, which would also accept an inherited name. No route of this system writes such a name into a profile, an order or checkout metadata that reaches a completed session, so those inputs are not modelled.
- Store.Store.CapturePaypal answers 500 with no writes for every stored order plan outside the catalog's own keys. In the source, a stored plan inherited from Object.prototype (`toString`, `__proto__`, ...) passes the lookup at src/routes/api/payments/paypal/capture/+server.js:37. The undefined token columns are then dropped from the update, so only the plan and status `active` are written. The order is completed, the payment logged, and 200 answered. No route creates such an order, because create-order answers 500 before its insert for these names (`Store.Store.CreatePaypalOrder`), so the model does not represent this path.
- Logging, JSON shaping beyond status and key payload fields, and `success_url` configuration beyond the fixed path are not modelled.
