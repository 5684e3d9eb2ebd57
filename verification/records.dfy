/**
 * Rows of the external store (`user_profiles`, `payments`, `chat_messages`) and the per-row
 * updates the route handlers apply to a profile. Timestamps are not modelled.
 */
module Records {
  import opened Wrappers
  import opened Catalog

  /** The auth service's user id; `user_profiles` rows are keyed by it. */
  type UserId = string

  /**
   * A `user_profiles` row. Counters the source reads with a fallback (`|| 0`, `<= 0`) may be null
   * in the store, so they are optional here; `plan` is the free-form `subscription_plan` column.
   */
  datatype Profile = Profile(
    email: string,
    fullName: string,
    plan: string,
    status: Option<string>,
    tokensUsed: Option<int>,
    tokensRemaining: Option<int>,
    tokenLimit: Option<int>,
    totalMessages: Option<int>,
    isActive: bool,
    customerId: Option<string>,
    subscriptionId: Option<string>)

  /** Payment provider of a ledger row. */
  datatype Provider = Stripe | Paypal

  /** A `payments` ledger row; `reference` is the PayPal order id or the Stripe payment intent. */
  datatype Payment = Payment(
    userId: UserId, amountCents: int, currency: string, status: string,
    provider: Provider, reference: Option<string>, plan: string)

  /** A `chat_messages` row. */
  datatype ChatRow = ChatRow(userId: UserId, message: string, response: string, tokensUsed: int)

  /** `Math.max(0, x)`. */
  function Max0(x: int): nat {
    if x < 0 then 0 else x
  }

  // ---------------------------------------------------------------------------
  // Per-row updates
  // ---------------------------------------------------------------------------

  /** The row the profile route inserts for a user without one: free-plan defaults. */
  function NewProfile(email: string, fullName: Option<string>): (r: Profile)
    ensures r.plan == "free" && r.tokenLimit == Some(Allowance("free")) && r.tokensRemaining == r.tokenLimit
    ensures r.tokensUsed == Some(0) && r.isActive && r.email == email
    ensures r.status.None? && r.customerId.None? && r.subscriptionId.None? && r.totalMessages.None?
  {
    Profile(email, fullName.GetOr(""), "free", None, Some(0), Some(1000), Some(1000), None, true, None, None)
  }

  /** The chat route's gate: `tokens_remaining <= 0` rejects, and so does null (`null <= 0` holds in JavaScript). */
  predicate HasTokens(p: Profile): (b: bool)
    ensures b <==> p.tokensRemaining.GetOr(0) > 0
  {
    p.tokensRemaining.Some? && p.tokensRemaining.value > 0
  }

  /** The chat route's usage update after a reply that cost `t` tokens. */
  function AfterChat(p: Profile, t: nat): (r: Profile)
    requires HasTokens(p)
    ensures r.tokensRemaining.Some? && 0 <= r.tokensRemaining.value <= p.tokensRemaining.value
    ensures r.tokensRemaining.value == if t <= p.tokensRemaining.value then p.tokensRemaining.value - t else 0
    ensures r.tokensUsed.Some? && r.tokensUsed.value == p.tokensUsed.GetOr(0) + t
    ensures r.totalMessages.Some? && r.totalMessages.value == p.totalMessages.GetOr(0) + 1
    ensures r.(tokensUsed := p.tokensUsed, tokensRemaining := p.tokensRemaining, totalMessages := p.totalMessages) == p
  {
    p.(tokensUsed := Some(p.tokensUsed.GetOr(0) + t),
       tokensRemaining := Some(Max0(p.tokensRemaining.value - t)),
       totalMessages := Some(p.totalMessages.GetOr(0) + 1))
  }

  /** A paid upgrade (PayPal capture): the plan, a full allowance and status `active`. */
  function Purchased(p: Profile, plan: string, tokens: nat): (r: Profile)
    ensures r.plan == plan && r.tokensRemaining == Some(tokens) && r.tokenLimit == Some(tokens)
    ensures r.status == Some("active")
    ensures r.(plan := p.plan, tokensRemaining := p.tokensRemaining, tokenLimit := p.tokenLimit, status := p.status) == p
  {
    p.(plan := plan, tokensRemaining := Some(tokens), tokenLimit := Some(tokens), status := Some("active"))
  }

  /** A completed Stripe checkout: a paid upgrade that also records the subscription id. */
  function Subscribed(p: Profile, plan: string, tokens: nat, subscription: Option<string>): (r: Profile)
    ensures r == Purchased(p, plan, tokens).(subscriptionId := subscription)
  {
    p.(plan := plan, subscriptionId := subscription, tokensRemaining := Some(tokens),
       tokenLimit := Some(tokens), status := Some("active"))
  }

  /** A deleted subscription: back to the free tier, status `canceled`, no subscription id. */
  function Downgraded(p: Profile): (r: Profile)
    ensures r.plan == "free" && r.tokenLimit == Some(Allowance("free")) && r.tokensRemaining == r.tokenLimit
    ensures r.status == Some("canceled") && r.subscriptionId.None?
    ensures r.(plan := p.plan, status := p.status, tokensRemaining := p.tokensRemaining,
               tokenLimit := p.tokenLimit, subscriptionId := p.subscriptionId) == p
  {
    p.(plan := "free", status := Some("canceled"), tokensRemaining := Some(1000),
       tokenLimit := Some(1000), subscriptionId := None)
  }

  /** A paid invoice: usage back to zero and the current plan's allowance again; unknown plans are left alone. */
  function Renewed(p: Profile): (r: Profile)
    ensures PlanById(p.plan).None? ==> r == p
    ensures PlanById(p.plan).Some? ==> r.tokensUsed == Some(0) && r.tokensRemaining == Some(Allowance(p.plan))
    ensures r.(tokensUsed := p.tokensUsed, tokensRemaining := p.tokensRemaining) == p
  {
    match PlanById(p.plan)
    case None => p
    case Some(plan) => p.(tokensUsed := Some(0), tokensRemaining := Some(plan.tokens))
  }

  /** The provider's subscription status copied onto the row. */
  function WithStatus(p: Profile, status: string): (r: Profile)
    ensures r.status == Some(status) && r.(status := p.status) == p
  {
    p.(status := Some(status))
  }

  /** A newly created billing customer recorded on the row. */
  function WithCustomer(p: Profile, customer: string): (r: Profile)
    ensures r.customerId == Some(customer) && r.(customerId := p.customerId) == p
  {
    p.(customerId := Some(customer))
  }

  /**
   * The stored customer id the checkout route reuses: present and non-empty
   * (`profile?.stripe_customer_id` is truthy).
   */
  function StoredCustomer(profiles: map<UserId, Profile>, u: UserId): (r: Option<string>)
    ensures r.Some? <==> u in profiles && profiles[u].customerId.Some? && profiles[u].customerId.value != ""
    ensures r.Some? ==> profiles[u].customerId == r
  {
    if u in profiles && profiles[u].customerId.Some? && profiles[u].customerId.value != "" then
      profiles[u].customerId
    else None
  }

  // ---------------------------------------------------------------------------
  // Looking a row up by billing customer id (`.eq('stripe_customer_id', c).single()`):
  // the query succeeds only when exactly one row holds the id.
  // ---------------------------------------------------------------------------

  predicate HoldsCustomer(profiles: map<UserId, Profile>, u: UserId, customer: string) {
    u in profiles && profiles[u].customerId == Some(customer)
  }

  function CustomerOwner(profiles: map<UserId, Profile>, customer: string): (r: Option<UserId>)
    ensures r.Some? ==> HoldsCustomer(profiles, r.value, customer)
    ensures r.Some? ==> forall v :: HoldsCustomer(profiles, v, customer) ==> v == r.value
    ensures r.None? ==> forall u :: HoldsCustomer(profiles, u, customer) ==>
              exists v :: HoldsCustomer(profiles, v, customer) && v != u
  {
    if exists u :: u in profiles && HoldsCustomer(profiles, u, customer) &&
         forall v :: v in profiles && HoldsCustomer(profiles, v, customer) ==> v == u
    then
      var u :| u in profiles && HoldsCustomer(profiles, u, customer) &&
        forall v :: v in profiles && HoldsCustomer(profiles, v, customer) ==> v == u;
      Some(u)
    else
      None
  }

  /** Rewriting rows without touching their customer ids leaves every customer lookup as it was. */
  lemma OwnerStable(profiles: map<UserId, Profile>, u: UserId, q: Profile, customer: string)
    requires u in profiles && q.customerId == profiles[u].customerId
    ensures CustomerOwner(profiles[u := q], customer) == CustomerOwner(profiles, customer)
  {
    var after := profiles[u := q];
    assert forall v :: HoldsCustomer(after, v, customer) <==> HoldsCustomer(profiles, v, customer);
  }

  // ---------------------------------------------------------------------------
  // Row invariants
  // ---------------------------------------------------------------------------

  /**
   * What every writer of this system keeps: the plan is a catalog plan, the limit is that
   * plan's allowance, and the remaining count lies between zero and the limit.
   */
  predicate WellFormed(p: Profile) {
    && p.plan in PlanIds
    && p.tokenLimit == Some(Allowance(p.plan))
    && p.tokensRemaining.Some?
    && 0 <= p.tokensRemaining.value <= p.tokenLimit.value
  }

  /** The balance the data model intends but nothing enforces: remaining == max(0, limit - used). */
  predicate Balanced(p: Profile) {
    && p.tokenLimit.Some?
    && p.tokensRemaining == Some(Max0(p.tokenLimit.value - p.tokensUsed.GetOr(0)))
  }

  lemma NewProfileIsFreeTier(email: string, fullName: Option<string>)
    ensures var p := NewProfile(email, fullName);
      && WellFormed(p) && Balanced(p) && HasTokens(p)
      && p.plan == "free" && p.tokenLimit == Some(Allowance("free")) && p.tokensUsed == Some(0)
      && p.email == email && (fullName.None? ==> p.fullName == "")
  {
  }

  lemma ChatKeepsWellFormed(p: Profile, t: nat)
    requires WellFormed(p) && HasTokens(p)
    ensures WellFormed(AfterChat(p, t))
  {
  }

  /** A chat turn keeps remaining == max(0, limit - used) when it held before. */
  lemma ChatKeepsBalance(p: Profile, t: nat)
    requires Balanced(p) && HasTokens(p)
    ensures Balanced(AfterChat(p, t))
  {
  }

  lemma PurchaseKeepsWellFormed(p: Profile, plan: string, subscription: Option<string>)
    requires plan in PlanIds
    ensures WellFormed(Purchased(p, plan, Allowance(plan)))
    ensures WellFormed(Subscribed(p, plan, Allowance(plan), subscription))
  {
  }

  /** Whatever the prior plan, a downgrade lands on a well-formed free row, and repeating it changes nothing. */
  lemma DowngradeProperties(p: Profile, q: Profile)
    ensures WellFormed(Downgraded(p)) && Downgraded(p).plan == "free"
    ensures Downgraded(Downgraded(p)) == Downgraded(p)
    ensures q.(plan := p.plan, status := p.status, tokensRemaining := p.tokensRemaining,
               tokenLimit := p.tokenLimit, subscriptionId := p.subscriptionId) == p
            ==> Downgraded(q) == Downgraded(p)
  {
  }

  lemma RenewalKeepsWellFormed(p: Profile)
    requires WellFormed(p)
    ensures WellFormed(Renewed(p)) && Balanced(Renewed(p))
  {
  }

  lemma StatusKeepsWellFormed(p: Profile, status: string, customer: string)
    requires WellFormed(p)
    ensures WellFormed(WithStatus(p, status)) && WellFormed(WithCustomer(p, customer))
  {
  }

  /**
   * An upgrade does not reset `tokens_used`, so a user who had spent tokens leaves the
   * upgrade with remaining != max(0, limit - used).
   */
  lemma UpgradeBreaksBalance()
    ensures var p := NewProfile("a@b.c", None).(tokensUsed := Some(400), tokensRemaining := Some(600));
      Balanced(p) && !Balanced(Purchased(p, "pro", Allowance("pro")))
  {
  }
}
