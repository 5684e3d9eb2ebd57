/**
 * The Stripe checkout session request built by
 * src/routes/api/payments/stripe/create-checkout/+server.js.
 */
module Checkout {
  import opened Wrappers
  import opened Catalog
  import opened Records

  /** The parameters of `stripe.checkout.sessions.create` that this system chooses. */
  datatype CheckoutParams = CheckoutParams(
    customer: string,
    paymentMethodTypes: seq<string>,
    price: Option<string>,
    quantity: nat,
    mode: string,
    successUrl: string,
    cancelUrl: string,
    metadataUserId: string,
    metadataPlan: string)

  const CancelPath: string := "/billing?plan="

  const SuccessPath: string := "/billing/success?session_id={CHECKOUT_SESSION_ID}"

  /** Where the provider sends a user who abandons checkout: back to billing with the plan preselected. */
  function CancelUrl(appUrl: string, plan: string): (r: string)
    ensures |r| == |appUrl| + |CancelPath| + |plan|
  {
    appUrl + CancelPath + plan
  }

  /** Reads the plan back out of a cancel URL for this application, if it is one. */
  function PlanFromCancelUrl(appUrl: string, url: string): Option<string> {
    var n := |appUrl| + |CancelPath|;
    if |url| >= n && url[..n] == appUrl + CancelPath then Some(url[n..]) else None
  }

  lemma CancelUrlRoundTrip(appUrl: string, plan: string)
    ensures PlanFromCancelUrl(appUrl, CancelUrl(appUrl, plan)) == Some(plan)
  {
    var n := |appUrl| + |CancelPath|;
    var url := CancelUrl(appUrl, plan);
    assert url[..n] == appUrl + CancelPath;
    assert url[n..] == plan;
  }

  /**
   * The session request for user `userId` buying `planId` as billing customer `customer`.
   * A name that is not a catalog key (one inherited from Object.prototype, which the route's
   * plan check lets through) reads `priceId` as undefined, so the line item carries no price.
   */
  function CheckoutRequest(appUrl: string, customer: string, userId: UserId, planId: string): (r: CheckoutParams)
    ensures r.metadataUserId == userId && r.metadataPlan == planId && r.customer == customer
    ensures planId in PlanIds ==> r.price == PlanById(planId).value.priceId
    ensures planId !in PlanIds ==> r.price.None?
    ensures r.quantity == 1 && r.mode == "subscription"
    ensures PlanFromCancelUrl(appUrl, r.cancelUrl) == Some(planId)
  {
    CancelUrlRoundTrip(appUrl, planId);
    var price := if PlanById(planId).Some? then PlanById(planId).value.priceId else None;
    CheckoutParams(customer, ["card"], price, 1, "subscription",
                   appUrl + SuccessPath, CancelUrl(appUrl, planId), userId, planId)
  }
}
