/**
 * The Stripe webhook (src/routes/api/payments/stripe/webhook/+server.js): the selection over
 * event kinds and, for each handled kind, its effect on the profile table and the ledger.
 */
module Webhook {
  import opened Wrappers
  import opened Catalog
  import opened Records
  import opened Checkout

  /** The event kinds the `switch` recognises; every other `event.type` is `Unhandled`. */
  datatype EventKind =
    | CheckoutCompleted
    | SubscriptionUpdated
    | SubscriptionDeleted
    | InvoicePaid
    | InvoiceFailed
    | Unhandled

  /** The `event.type` string of a recognised kind. */
  function KindName(k: EventKind): string
    requires k != Unhandled
  {
    match k
    case CheckoutCompleted => "checkout.session.completed"
    case SubscriptionUpdated => "customer.subscription.updated"
    case SubscriptionDeleted => "customer.subscription.deleted"
    case InvoicePaid => "invoice.payment_succeeded"
    case InvoiceFailed => "invoice.payment_failed"
  }

  const HandledKinds: set<string> := {
    "checkout.session.completed", "customer.subscription.updated", "customer.subscription.deleted",
    "invoice.payment_succeeded", "invoice.payment_failed"
  }

  /** The `switch (event.type)`. */
  function Classify(kind: string): (k: EventKind)
    ensures k == Unhandled <==> kind !in HandledKinds
    ensures k != Unhandled ==> KindName(k) == kind
  {
    if kind == "checkout.session.completed" then CheckoutCompleted
    else if kind == "customer.subscription.updated" then SubscriptionUpdated
    else if kind == "customer.subscription.deleted" then SubscriptionDeleted
    else if kind == "invoice.payment_succeeded" then InvoicePaid
    else if kind == "invoice.payment_failed" then InvoiceFailed
    else Unhandled
  }

  /** Each recognised kind is selected by its own name and by no other. */
  lemma ClassifyNames(k: EventKind)
    requires k != Unhandled
    ensures Classify(KindName(k)) == k
  {
  }

  /**
   * The fields of `event.data.object` the handlers read: a checkout session's metadata,
   * subscription and payment intent; a subscription's or invoice's customer and status.
   */
  datatype EventObject = EventObject(
    metadataUserId: Option<string>,
    metadataPlan: Option<string>,
    subscription: Option<string>,
    paymentIntent: Option<string>,
    customer: string,
    status: string)

  /** JavaScript truthiness of an optional string: present and not empty. */
  predicate Truthy(s: Option<string>) {
    s.Some? && s.value != ""
  }

  // ---------------------------------------------------------------------------
  // checkout.session.completed
  // ---------------------------------------------------------------------------

  /** The user and plan a completed checkout applies to, when its metadata names both and the plan exists. */
  function CheckoutTarget(obj: EventObject): (r: Option<(UserId, string)>)
    ensures r.Some? <==> Truthy(obj.metadataUserId) && Truthy(obj.metadataPlan) && obj.metadataPlan.value in PlanIds
    ensures r.Some? ==> r.value == (obj.metadataUserId.value, obj.metadataPlan.value)
  {
    if Truthy(obj.metadataUserId) && Truthy(obj.metadataPlan) && PlanById(obj.metadataPlan.value).Some? then
      Some((obj.metadataUserId.value, obj.metadataPlan.value))
    else None
  }

  /** The profile table after a completed checkout; a user without a row is left without one. */
  function CheckoutProfiles(m: map<UserId, Profile>, obj: EventObject): (r: map<UserId, Profile>)
    ensures r.Keys == m.Keys
  {
    match CheckoutTarget(obj)
    case None => m
    case Some((u, plan)) =>
      if u in m then m[u := Subscribed(m[u], plan, Allowance(plan), obj.subscription)] else m
  }

  /** The ledger rows a completed checkout appends: one Stripe payment at the catalog price, or none. */
  function CheckoutLedger(obj: EventObject): (r: seq<Payment>)
    ensures |r| <= 1 && (|r| == 1 <==> CheckoutTarget(obj).Some?)
    ensures |r| == 1 ==> var (u, plan) := CheckoutTarget(obj).value;
              && r[0].userId == u && r[0].plan == plan && r[0].provider == Stripe
              && r[0].amountCents == PlanById(plan).value.priceCents
              && r[0].status == "completed" && r[0].reference == obj.paymentIntent
  {
    match CheckoutTarget(obj)
    case None => []
    case Some((u, plan)) =>
      [Payment(u, PlanById(plan).value.priceCents, "usd", "completed", Stripe, obj.paymentIntent, plan)]
  }

  /** Missing metadata or an unknown plan: nothing changes. */
  lemma CheckoutNoOp(m: map<UserId, Profile>, obj: EventObject)
    requires !Truthy(obj.metadataUserId) || !Truthy(obj.metadataPlan) || obj.metadataPlan.value !in PlanIds
    ensures CheckoutProfiles(m, obj) == m && CheckoutLedger(obj) == []
  {
  }

  /**
   * A completed checkout upgrades exactly the named user: plan, subscription, a full allowance and
   * status `active`; `tokens_used` and every other row stay as they were.
   */
  lemma CheckoutUpgrades(m: map<UserId, Profile>, obj: EventObject)
    requires CheckoutTarget(obj).Some?
    ensures var (u, plan) := CheckoutTarget(obj).value;
      var r := CheckoutProfiles(m, obj);
      && (forall v :: v in m && v != u ==> r[v] == m[v])
      && (u in m ==>
            && r[u].plan == plan && r[u].subscriptionId == obj.subscription
            && r[u].tokensRemaining == Some(Allowance(plan)) && r[u].tokenLimit == Some(Allowance(plan))
            && r[u].status == Some("active") && r[u].tokensUsed == m[u].tokensUsed
            && r[u].customerId == m[u].customerId)
  {
  }

  /**
   * A redelivered checkout event leaves the profiles as one delivery did, but the ledger
   * receives a second payment row: there is no event-id deduplication.
   */
  lemma CheckoutRedelivered(m: map<UserId, Profile>, obj: EventObject)
    requires CheckoutTarget(obj).Some?
    ensures CheckoutProfiles(CheckoutProfiles(m, obj), obj) == CheckoutProfiles(m, obj)
  {
  }

  lemma CheckoutKeepsWellFormed(m: map<UserId, Profile>, obj: EventObject)
    requires forall u :: u in m ==> WellFormed(m[u])
    ensures var r := CheckoutProfiles(m, obj); forall u :: u in r ==> WellFormed(r[u])
  {
    match CheckoutTarget(obj)
    case None =>
    case Some((u, plan)) =>
      if u in m {
        PurchaseKeepsWellFormed(m[u], plan, obj.subscription);
      }
  }

  /**
   * The metadata the checkout route attaches to a session brings the webhook back to the same
   * user and plan: a session created for `userId` and `planId` upgrades that user's row to it.
   */
  lemma CheckoutMetadataRoundTrip(
    appUrl: string, customer: string, userId: UserId, planId: string,
    m: map<UserId, Profile>, subscription: Option<string>, paymentIntent: Option<string>, status: string)
    requires planId in PlanIds && userId != ""
    ensures var params := CheckoutRequest(appUrl, customer, userId, planId);
      var obj := EventObject(Some(params.metadataUserId), Some(params.metadataPlan), subscription,
                             paymentIntent, customer, status);
      && CheckoutTarget(obj) == Some((userId, planId))
      && (userId in m ==> CheckoutProfiles(m, obj)[userId].plan == planId
                          && CheckoutProfiles(m, obj)[userId].tokenLimit == Some(Allowance(planId)))
      && |CheckoutLedger(obj)| == 1 && CheckoutLedger(obj)[0].amountCents == PlanById(planId).value.priceCents
  {
  }

  // ---------------------------------------------------------------------------
  // The four kinds that find their row by billing customer id
  // ---------------------------------------------------------------------------

  /** The row update a customer-keyed event applies. */
  datatype RowUpdate = SetStatus(status: string) | Downgrade | Renew

  /** The update for a customer-keyed kind, `None` for the other kinds. */
  function UpdateFor(k: EventKind, obj: EventObject): (r: Option<RowUpdate>)
    ensures r.Some? <==> k in {SubscriptionUpdated, SubscriptionDeleted, InvoicePaid, InvoiceFailed}
    ensures k == SubscriptionUpdated ==> r == Some(SetStatus(obj.status))
    ensures k == SubscriptionDeleted ==> r == Some(Downgrade)
    ensures k == InvoicePaid ==> r == Some(Renew)
    ensures k == InvoiceFailed ==> r == Some(SetStatus("past_due"))
  {
    match k
    case SubscriptionUpdated => Some(SetStatus(obj.status))
    case SubscriptionDeleted => Some(Downgrade)
    case InvoicePaid => Some(Renew)
    case InvoiceFailed => Some(SetStatus("past_due"))
    case _ => None
  }

  function ApplyUpdate(upd: RowUpdate, p: Profile): (r: Profile)
    ensures r.customerId == p.customerId
  {
    match upd
    case SetStatus(s) => WithStatus(p, s)
    case Downgrade => Downgraded(p)
    case Renew => Renewed(p)
  }

  /** Applies `upd` to the one row holding `customer`; when no row or several rows hold it, nothing changes. */
  function ForCustomer(m: map<UserId, Profile>, customer: string, upd: RowUpdate): (r: map<UserId, Profile>)
    ensures r.Keys == m.Keys
    ensures forall u :: u in m && CustomerOwner(m, customer) != Some(u) ==> r[u] == m[u]
  {
    match CustomerOwner(m, customer)
    case None => m
    case Some(u) => m[u := ApplyUpdate(upd, m[u])]
  }

  /** Every row update is idempotent. */
  lemma ApplyUpdateTwice(upd: RowUpdate, p: Profile)
    ensures ApplyUpdate(upd, ApplyUpdate(upd, p)) == ApplyUpdate(upd, p)
  {
  }

  /** No customer-keyed event changes which row a customer id resolves to. */
  lemma ForCustomerKeepsOwners(m: map<UserId, Profile>, customer: string, upd: RowUpdate, other: string)
    ensures CustomerOwner(ForCustomer(m, customer, upd), other) == CustomerOwner(m, other)
  {
    match CustomerOwner(m, customer)
    case None =>
    case Some(u) => OwnerStable(m, u, ApplyUpdate(upd, m[u]), other);
  }

  /** Redelivering a customer-keyed event leaves the table as one delivery did. */
  lemma ForCustomerIdempotent(m: map<UserId, Profile>, customer: string, upd: RowUpdate)
    ensures ForCustomer(ForCustomer(m, customer, upd), customer, upd) == ForCustomer(m, customer, upd)
  {
    ForCustomerKeepsOwners(m, customer, upd, customer);
    match CustomerOwner(m, customer)
    case None =>
    case Some(u) => ApplyUpdateTwice(upd, m[u]);
  }

  lemma ForCustomerKeepsWellFormed(m: map<UserId, Profile>, customer: string, upd: RowUpdate)
    requires forall u :: u in m ==> WellFormed(m[u])
    ensures var r := ForCustomer(m, customer, upd); forall u :: u in r ==> WellFormed(r[u])
  {
    match CustomerOwner(m, customer)
    case None =>
    case Some(u) =>
      match upd
      case SetStatus(s) => StatusKeepsWellFormed(m[u], s, "");
      case Downgrade => DowngradeProperties(m[u], m[u]);
      case Renew => RenewalKeepsWellFormed(m[u]);
  }

  /**
   * A deleted subscription leaves its customer's row on the free tier, canceled, with 1000 of
   * 1000 tokens and no subscription id, whatever the plan was; a second delivery changes nothing.
   */
  lemma SubscriptionDeletedDowngrades(m: map<UserId, Profile>, customer: string)
    ensures var r := ForCustomer(m, customer, Downgrade);
      && (CustomerOwner(m, customer).Some? ==>
            var u := CustomerOwner(m, customer).value;
            && r[u].plan == "free" && r[u].status == Some("canceled")
            && r[u].tokensRemaining == Some(1000) && r[u].tokenLimit == Some(1000)
            && r[u].subscriptionId.None? && WellFormed(r[u]))
      && (CustomerOwner(m, customer).None? ==> r == m)
      && ForCustomer(r, customer, Downgrade) == r
  {
    ForCustomerIdempotent(m, customer, Downgrade);
    if CustomerOwner(m, customer).Some? {
      DowngradeProperties(m[CustomerOwner(m, customer).value], m[CustomerOwner(m, customer).value]);
    }
  }

  /**
   * A paid invoice resets the customer's usage to zero and its remaining tokens to its plan's
   * allowance, leaving the limit alone; with an unknown plan nothing changes.
   */
  lemma InvoicePaidRenews(m: map<UserId, Profile>, customer: string)
    ensures var r := ForCustomer(m, customer, Renew);
      CustomerOwner(m, customer).Some? ==>
        var u := CustomerOwner(m, customer).value;
        && r[u].tokenLimit == m[u].tokenLimit
        && (m[u].plan in PlanIds ==> r[u].tokensUsed == Some(0) && r[u].tokensRemaining == Some(Allowance(m[u].plan)))
        && (m[u].plan !in PlanIds ==> r[u] == m[u])
  {
  }

  /** A subscription update or a failed invoice changes only the status of the customer's row. */
  lemma StatusEventsOnlySetStatus(m: map<UserId, Profile>, customer: string, status: string)
    ensures var r := ForCustomer(m, customer, SetStatus(status));
      CustomerOwner(m, customer).Some? ==>
        var u := CustomerOwner(m, customer).value;
        r[u] == m[u].(status := Some(status))
  {
  }
}
