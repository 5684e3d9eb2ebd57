/**
 * The store the route handlers read and write (`user_profiles`, `paypal_orders`, `payments`,
 * `chat_messages`), with one method per route handler. Every reply of an external service
 * (auth, AI model, PayPal, Stripe) is a parameter; `None` stands for a call that threw, which
 * the handler's `catch` turns into a 500 answer.
 */
module Store {
  import opened Wrappers
  import opened Catalog
  import opened Gemini
  import opened Records
  import opened Orders
  import opened Checkout
  import opened Webhook
  import opened Http

  class Store {
    /** `user_profiles`, keyed by user id. */
    var profiles: map<UserId, Profile>
    /** `paypal_orders`, keyed by the provider's order id. */
    var paypalOrders: map<string, OrderRow>
    /** `payments`, append-only. */
    var payments: seq<Payment>
    /** `chat_messages`, append-only. */
    var chatMessages: seq<ChatRow>

    /** What the handlers keep once it holds: well-formed profile rows and order rows. */
    ghost predicate Valid()
      reads this
    {
      && (forall u :: u in profiles ==> WellFormed(profiles[u]))
      && (forall o :: o in paypalOrders ==> OrderWellFormed(paypalOrders[o]))
    }

    constructor ()
      ensures profiles == map[] && paypalOrders == map[] && payments == [] && chatMessages == []
      ensures Valid()
    {
      profiles, paypalOrders, payments, chatMessages := map[], map[], [], [];
    }

    /** GET /api/user/profile: the caller's row, created with free-tier defaults when it is missing. */
    method GetProfile(session: Session, insertSucceeds: bool) returns (res: Response)
      modifies this
      ensures paypalOrders == old(paypalOrders) && payments == old(payments) && chatMessages == old(chatMessages)
      ensures !session.SignedIn? ==> res == Unauthorized() && profiles == old(profiles)
      ensures session.SignedIn? && session.user.id in old(profiles) ==>
                res == Response(200, ProfileRow(old(profiles)[session.user.id])) && profiles == old(profiles)
      ensures session.SignedIn? && session.user.id !in old(profiles) && !insertSucceeds ==>
                res == Response(500, Error("Failed to create user profile")) && profiles == old(profiles)
      ensures session.SignedIn? && session.user.id !in old(profiles) && insertSucceeds ==>
                var created := NewProfile(session.user.email, session.user.fullName);
                && profiles == old(profiles)[session.user.id := created]
                && res == Response(200, ProfileRow(created))
                && created.plan == "free" && created.tokenLimit == Some(Allowance("free"))
      ensures old(Valid()) ==> Valid()
    {
      if !session.SignedIn? {
        return Unauthorized();
      }
      var user := session.user;
      if user.id in profiles {
        return Response(200, ProfileRow(profiles[user.id]));
      }
      if !insertSucceeds {
        return Response(500, Error("Failed to create user profile"));
      }
      var created := NewProfile(user.email, user.fullName);
      NewProfileIsFreeTier(user.email, user.fullName);
      profiles := profiles[user.id := created];
      return Response(200, ProfileRow(created));
    }

    /**
     * POST /api/chat: a reply from the model, paid for from the caller's remaining tokens,
     * and one `chat_messages` row. `modelCalled` says whether the model was asked.
     */
    method Chat(session: Session, message: string, history: seq<Turn>, modelReply: Option<string>)
      returns (res: Response, modelCalled: bool)
      modifies this
      ensures paypalOrders == old(paypalOrders) && payments == old(payments)
      ensures modelCalled <==> session.SignedIn? && session.user.id in old(profiles)
                               && HasTokens(old(profiles)[session.user.id])
      ensures !session.SignedIn? ==> res == Unauthorized() && unchanged(this)
      ensures session.SignedIn? && session.user.id !in old(profiles) ==>
                res == Response(500, Error("Failed to fetch user profile")) && unchanged(this)
      ensures session.SignedIn? && session.user.id in old(profiles) && !HasTokens(old(profiles)[session.user.id]) ==>
                res == Response(403, Error("Insufficient tokens. Please upgrade your plan.")) && unchanged(this)
      ensures session.SignedIn? && session.user.id in old(profiles) && HasTokens(old(profiles)[session.user.id])
              && modelReply.None? ==>
                res == Response(500, Error("Internal server error")) && unchanged(this)
      ensures session.SignedIn? && session.user.id in old(profiles) && HasTokens(old(profiles)[session.user.id])
              && modelReply.Some? ==>
                var u := session.user.id;
                var t := EstimateTokens(FullPrompt(message, history), modelReply.value);
                && profiles == old(profiles)[u := AfterChat(old(profiles)[u], t)]
                && chatMessages == old(chatMessages) + [ChatRow(u, message, modelReply.value, t)]
                && res == Response(200, ChatReply(modelReply.value, t, profiles[u].tokensRemaining.value))
      ensures res.status == 200 ==> res.body.ChatReply? && res.body.tokensUsed >= 2 && |chatMessages| == |old(chatMessages)| + 1
      ensures old(Valid()) ==> Valid()
    {
      modelCalled := false;
      if !session.SignedIn? {
        return Unauthorized(), modelCalled;
      }
      var u := session.user.id;
      if u !in profiles {
        return Response(500, Error("Failed to fetch user profile")), modelCalled;
      }
      var profile := profiles[u];
      if !HasTokens(profile) {
        return Response(403, Error("Insufficient tokens. Please upgrade your plan.")), modelCalled;
      }
      modelCalled := true;
      var generated := Generate(message, history, modelReply);
      if generated.None? {
        return Response(500, Error("Internal server error")), modelCalled;
      }
      var tokensUsed := generated.value.tokensUsed;
      var updated := AfterChat(profile, tokensUsed);
      if Valid() {
        ChatKeepsWellFormed(profile, tokensUsed);
      }
      profiles := profiles[u := updated];
      chatMessages := chatMessages + [ChatRow(u, message, generated.value.response, tokensUsed)];
      res := Response(200, ChatReply(generated.value.response, tokensUsed, updated.tokensRemaining.value));
    }

    /**
     * POST /api/payments/paypal/create-order: asks the provider for an order at the plan's price
     * (`requested`), records it, and answers with the order id and its approval link.
     */
    method CreatePaypalOrder(session: Session, plan: string, order: Option<PaypalOrder>)
      returns (res: Response, requested: Option<nat>)
      modifies this
      ensures profiles == old(profiles) && payments == old(payments) && chatMessages == old(chatMessages)
      ensures !session.SignedIn? ==> res == Unauthorized() && requested.None? && paypalOrders == old(paypalOrders)
      ensures session.SignedIn? && !PassesPlanCheckAsWritten(plan) ==>
                res == Response(400, Error("Invalid plan")) && requested.None? && paypalOrders == old(paypalOrders)
      ensures session.SignedIn? && PassesPlanCheckAsWritten(plan) && plan !in PlanIds ==>
                res == Response(500, Error("Failed to create PayPal order")) && requested.None?
                && paypalOrders == old(paypalOrders)
      ensures session.SignedIn? && plan in PlanIds ==> requested == Some(PlanById(plan).value.priceCents)
      ensures session.SignedIn? && plan in PlanIds && order.None? ==>
                res == Response(500, Error("Failed to create PayPal order")) && paypalOrders == old(paypalOrders)
      ensures session.SignedIn? && plan in PlanIds && order.Some? ==>
                && paypalOrders == old(paypalOrders)[order.value.id := NewOrder(session.user.id, plan)]
                && res == Response(200, OrderCreated(order.value.id, ApprovalUrl(order.value.links)))
      ensures old(Valid()) ==> Valid()
    {
      requested := None;
      if !session.SignedIn? {
        return Unauthorized(), requested;
      }
      if !PassesPlanCheckAsWritten(plan) {
        return Response(400, Error("Invalid plan")), requested;
      }
      var selected := PlanById(plan);
      if selected.None? {
        // an inherited name: `amount.toString()` on the undefined price throws before the provider is asked
        return Response(500, Error("Failed to create PayPal order")), requested;
      }
      requested := Some(selected.value.priceCents);
      if order.None? {
        return Response(500, Error("Failed to create PayPal order")), requested;
      }
      var row := NewOrder(session.user.id, plan);
      OrderRowsWellFormed(session.user.id, plan, "");
      paypalOrders := paypalOrders[order.value.id := row];
      res := Response(200, OrderCreated(order.value.id, ApprovalUrl(order.value.links)));
    }

    /**
     * POST /api/payments/paypal/capture: captures the caller's own order and, when the provider
     * reports COMPLETED, upgrades the profile, completes the order and logs the payment.
     * `attempted` says whether the provider was asked to capture.
     */
    method CapturePaypal(session: Session, orderId: string, capture: Option<Capture>)
      returns (res: Response, attempted: bool)
      modifies this
      ensures chatMessages == old(chatMessages)
      ensures !session.SignedIn? ==> res == Unauthorized() && !attempted && unchanged(this)
      ensures session.SignedIn? && !OwnsOrder(old(paypalOrders), orderId, session.user.id) ==>
                res == Response(404, Error("Order not found")) && !attempted && unchanged(this)
      ensures session.SignedIn? && OwnsOrder(old(paypalOrders), orderId, session.user.id) ==> attempted
      ensures session.SignedIn? && OwnsOrder(old(paypalOrders), orderId, session.user.id) && capture.None? ==>
                res == Response(500, Error("Failed to capture payment")) && unchanged(this)
      ensures session.SignedIn? && OwnsOrder(old(paypalOrders), orderId, session.user.id) && capture.Some?
              && capture.value.status != "COMPLETED" ==>
                res == Response(400, Error("Payment capture failed")) && unchanged(this)
      ensures session.SignedIn? && OwnsOrder(old(paypalOrders), orderId, session.user.id) && capture.Some?
              && capture.value.status == "COMPLETED" && old(paypalOrders)[orderId].plan !in PlanIds ==>
                res == Response(500, Error("Failed to capture payment")) && unchanged(this)
      ensures session.SignedIn? && OwnsOrder(old(paypalOrders), orderId, session.user.id) && capture.Some?
              && capture.value.status == "COMPLETED" && old(paypalOrders)[orderId].plan in PlanIds ==>
                var u := session.user.id;
                var o := old(paypalOrders)[orderId];
                && profiles == (if u in old(profiles)
                                then old(profiles)[u := Purchased(old(profiles)[u], o.plan, Allowance(o.plan))]
                                else old(profiles))
                && paypalOrders == old(paypalOrders)[orderId := Completed(o, capture.value.id)]
                && payments == old(payments) + [Payment(u, o.amountCents, "usd", "completed", Paypal, Some(orderId), o.plan)]
                && res == Response(200, Captured(capture.value))
      ensures old(Valid()) ==> Valid()
    {
      attempted := false;
      if !session.SignedIn? {
        return Unauthorized(), attempted;
      }
      var u := session.user.id;
      if !(orderId in paypalOrders && paypalOrders[orderId].userId == u) {
        return Response(404, Error("Order not found")), attempted;
      }
      var orderData := paypalOrders[orderId];
      attempted := true;
      if capture.None? {
        return Response(500, Error("Failed to capture payment")), attempted;
      }
      if capture.value.status != "COMPLETED" {
        return Response(400, Error("Payment capture failed")), attempted;
      }
      var planDetails := PlanById(orderData.plan);
      if planDetails.None? {
        // reading `planDetails.tokens` of an unknown plan throws before any write
        return Response(500, Error("Failed to capture payment")), attempted;
      }
      if u in profiles {
        PurchaseKeepsWellFormed(profiles[u], orderData.plan, None);
        profiles := profiles[u := Purchased(profiles[u], orderData.plan, planDetails.value.tokens)];
      }
      paypalOrders := paypalOrders[orderId := Completed(orderData, capture.value.id)];
      payments := payments + [Payment(u, orderData.amountCents, "usd", "completed", Paypal, Some(orderId), orderData.plan)];
      res := Response(200, Captured(capture.value));
    }

    /**
     * POST /api/payments/stripe/create-checkout: reuses or creates the caller's billing customer
     * and asks the provider for a subscription checkout session (`sent`) whose URL it returns.
     * `newCustomer` and `sessionUrl` are the provider's replies; `createdCustomer` says whether a
     * customer was created.
     */
    method CreateCheckout(session: Session, plan: string, appUrl: string,
                          newCustomer: Option<string>, sessionUrl: Option<string>)
      returns (res: Response, createdCustomer: bool, sent: Option<CheckoutParams>)
      modifies this
      ensures paypalOrders == old(paypalOrders) && payments == old(payments) && chatMessages == old(chatMessages)
      ensures !session.SignedIn? ==> res == Unauthorized() && !createdCustomer && sent.None? && unchanged(this)
      ensures session.SignedIn? && !PassesPlanCheckAsWritten(plan) ==>
                res == Response(400, Error("Invalid plan")) && !createdCustomer && sent.None? && unchanged(this)
      ensures session.SignedIn? && PassesPlanCheckAsWritten(plan) ==>
                createdCustomer == StoredCustomer(old(profiles), session.user.id).None?
      ensures session.SignedIn? && PassesPlanCheckAsWritten(plan) && StoredCustomer(old(profiles), session.user.id).Some? ==>
                && profiles == old(profiles)
                && sent == Some(CheckoutRequest(appUrl, StoredCustomer(old(profiles), session.user.id).value,
                                                session.user.id, plan))
      ensures session.SignedIn? && PassesPlanCheckAsWritten(plan) && StoredCustomer(old(profiles), session.user.id).None?
              && newCustomer.None? ==>
                res == Response(500, Error("Failed to create checkout session")) && sent.None? && unchanged(this)
      ensures session.SignedIn? && PassesPlanCheckAsWritten(plan) && StoredCustomer(old(profiles), session.user.id).None?
              && newCustomer.Some? ==>
                var u := session.user.id;
                && profiles == (if u in old(profiles)
                                then old(profiles)[u := WithCustomer(old(profiles)[u], newCustomer.value)]
                                else old(profiles))
                && sent == Some(CheckoutRequest(appUrl, newCustomer.value, u, plan))
      ensures sent.Some? ==>
                res == if sessionUrl.Some? then Response(200, SessionUrl(sessionUrl.value))
                       else Response(500, Error("Failed to create checkout session"))
      ensures old(Valid()) ==> Valid()
    {
      createdCustomer, sent := false, None;
      if !session.SignedIn? {
        return Unauthorized(), createdCustomer, sent;
      }
      var user := session.user;
      if !PassesPlanCheckAsWritten(plan) {
        return Response(400, Error("Invalid plan")), createdCustomer, sent;
      }
      var customerId: string;
      var stored := StoredCustomer(profiles, user.id);
      if stored.Some? {
        customerId := stored.value;
      } else {
        createdCustomer := true;
        if newCustomer.None? {
          return Response(500, Error("Failed to create checkout session")), createdCustomer, sent;
        }
        customerId := newCustomer.value;
        if user.id in profiles {
          if Valid() {
            StatusKeepsWellFormed(profiles[user.id], "", customerId);
          }
          profiles := profiles[user.id := WithCustomer(profiles[user.id], customerId)];
        }
      }
      sent := Some(CheckoutRequest(appUrl, customerId, user.id, plan));
      if sessionUrl.None? {
        return Response(500, Error("Failed to create checkout session")), createdCustomer, sent;
      }
      res := Response(200, SessionUrl(sessionUrl.value));
    }

    // -------------------------------------------------------------------------
    // POST /api/payments/stripe/webhook
    // -------------------------------------------------------------------------

    /** Verifies the signature, then runs the handler of the event's kind and acknowledges the event. */
    method Webhook(signatureValid: bool, kind: string, obj: EventObject) returns (res: Response)
      modifies this
      ensures paypalOrders == old(paypalOrders) && chatMessages == old(chatMessages)
      ensures !signatureValid ==> res == Response(400, Error("Invalid signature")) && unchanged(this)
      ensures signatureValid ==> res == Response(200, Received)
      ensures signatureValid && Classify(kind) == CheckoutCompleted ==>
                profiles == CheckoutProfiles(old(profiles), obj) && payments == old(payments) + CheckoutLedger(obj)
      ensures signatureValid && UpdateFor(Classify(kind), obj).Some? ==>
                && profiles == ForCustomer(old(profiles), obj.customer, UpdateFor(Classify(kind), obj).value)
                && payments == old(payments)
      ensures signatureValid && Classify(kind) == Unhandled ==> unchanged(this)
      ensures old(Valid()) ==> Valid()
    {
      if !signatureValid {
        return Response(400, Error("Invalid signature"));
      }
      match Classify(kind) {
        case CheckoutCompleted => HandleCheckoutCompleted(obj);
        case SubscriptionUpdated => HandleSubscriptionUpdated(obj);
        case SubscriptionDeleted => HandleSubscriptionDeleted(obj);
        case InvoicePaid => HandlePaymentSucceeded(obj);
        case InvoiceFailed => HandlePaymentFailed(obj);
        case Unhandled =>
      }
      res := Response(200, Received);
    }

    /** Upgrades the user named in the session metadata and logs a Stripe payment at the catalog price. */
    method HandleCheckoutCompleted(obj: EventObject)
      modifies this
      ensures profiles == CheckoutProfiles(old(profiles), obj) && payments == old(payments) + CheckoutLedger(obj)
      ensures paypalOrders == old(paypalOrders) && chatMessages == old(chatMessages)
      ensures old(Valid()) ==> Valid()
    {
      var userId, plan := obj.metadataUserId, obj.metadataPlan;
      if !Truthy(userId) || !Truthy(plan) {
        return;
      }
      var planDetails := PlanById(plan.value);
      if planDetails.None? {
        return;
      }
      if Valid() {
        CheckoutKeepsWellFormed(profiles, obj);
      }
      if userId.value in profiles {
        profiles := profiles[userId.value := Subscribed(profiles[userId.value], plan.value,
                                                        planDetails.value.tokens, obj.subscription)];
      }
      payments := payments + [Payment(userId.value, planDetails.value.priceCents, "usd", "completed",
                                      Stripe, obj.paymentIntent, plan.value)];
    }

    /** Copies the provider's subscription status onto the customer's row. */
    method HandleSubscriptionUpdated(obj: EventObject)
      modifies this
      ensures profiles == ForCustomer(old(profiles), obj.customer, SetStatus(obj.status))
      ensures paypalOrders == old(paypalOrders) && payments == old(payments) && chatMessages == old(chatMessages)
      ensures old(Valid()) ==> Valid()
    {
      var owner := CustomerOwner(profiles, obj.customer);
      if owner.None? {
        return;
      }
      if Valid() {
        ForCustomerKeepsWellFormed(profiles, obj.customer, SetStatus(obj.status));
      }
      profiles := profiles[owner.value := WithStatus(profiles[owner.value], obj.status)];
    }

    /** Moves the customer's row back to the free tier. */
    method HandleSubscriptionDeleted(obj: EventObject)
      modifies this
      ensures profiles == ForCustomer(old(profiles), obj.customer, Downgrade)
      ensures paypalOrders == old(paypalOrders) && payments == old(payments) && chatMessages == old(chatMessages)
      ensures old(Valid()) ==> Valid()
    {
      var owner := CustomerOwner(profiles, obj.customer);
      if owner.None? {
        return;
      }
      if Valid() {
        ForCustomerKeepsWellFormed(profiles, obj.customer, Downgrade);
      }
      profiles := profiles[owner.value := Downgraded(profiles[owner.value])];
    }

    /** Starts a new billing month: usage back to zero, remaining tokens back to the plan's allowance. */
    method HandlePaymentSucceeded(obj: EventObject)
      modifies this
      ensures profiles == ForCustomer(old(profiles), obj.customer, Renew)
      ensures paypalOrders == old(paypalOrders) && payments == old(payments) && chatMessages == old(chatMessages)
      ensures old(Valid()) ==> Valid()
    {
      var owner := CustomerOwner(profiles, obj.customer);
      if owner.None? {
        return;
      }
      var planDetails := PlanById(profiles[owner.value].plan);
      if planDetails.None? {
        return;
      }
      if Valid() {
        ForCustomerKeepsWellFormed(profiles, obj.customer, Renew);
      }
      profiles := profiles[owner.value := profiles[owner.value].(tokensUsed := Some(0),
                                                                 tokensRemaining := Some(planDetails.value.tokens))];
    }

    /** Marks the customer's row `past_due`. */
    method HandlePaymentFailed(obj: EventObject)
      modifies this
      ensures profiles == ForCustomer(old(profiles), obj.customer, SetStatus("past_due"))
      ensures paypalOrders == old(paypalOrders) && payments == old(payments) && chatMessages == old(chatMessages)
      ensures old(Valid()) ==> Valid()
    {
      var owner := CustomerOwner(profiles, obj.customer);
      if owner.None? {
        return;
      }
      if Valid() {
        ForCustomerKeepsWellFormed(profiles, obj.customer, SetStatus("past_due"));
      }
      profiles := profiles[owner.value := WithStatus(profiles[owner.value], "past_due")];
    }
  }

  /**
   * A PayPal purchase end to end: the order created for a plan and then captured upgrades the
   * buyer and logs exactly one payment at that plan's catalog price.
   */
  method PaypalPurchase(store: Store, buyer: AuthUser, plan: string, order: PaypalOrder, captureId: string)
    requires plan in PlanIds
    modifies store
    ensures store.payments == old(store.payments)
              + [Payment(buyer.id, PlanById(plan).value.priceCents, "usd", "completed", Paypal, Some(order.id), plan)]
    ensures buyer.id in old(store.profiles) ==>
              store.profiles == old(store.profiles)[buyer.id := Purchased(old(store.profiles)[buyer.id], plan, Allowance(plan))]
    ensures order.id in store.paypalOrders && store.paypalOrders[order.id].status == "completed"
  {
    var created, requested := store.CreatePaypalOrder(SignedIn(buyer), plan, Some(order));
    var captured, attempted := store.CapturePaypal(SignedIn(buyer), order.id, Some(Capture("COMPLETED", captureId)));
  }

  /**
   * A checkout.session.completed event delivered twice: the profiles end as after one delivery,
   * but the ledger gains two identical payment rows, since the route keeps no record of event ids.
   */
  method CheckoutDeliveredTwice(store: Store, kind: string, obj: EventObject)
    requires Classify(kind) == CheckoutCompleted && CheckoutTarget(obj).Some?
    modifies store
    ensures store.profiles == CheckoutProfiles(old(store.profiles), obj)
    ensures |store.payments| == |old(store.payments)| + 2
    ensures store.payments == old(store.payments) + CheckoutLedger(obj) + CheckoutLedger(obj)
  {
    var first := store.Webhook(true, kind, obj);
    var second := store.Webhook(true, kind, obj);
    CheckoutRedelivered(old(store.profiles), obj);
  }
}
