/**
 * The PayPal side: provider replies, the `paypal_orders` row, and the approval-link search of
 * src/routes/api/payments/paypal/create-order/+server.js.
 */
module Orders {
  import opened Wrappers
  import opened Catalog
  import opened Records

  /** A HATEOAS link of a created PayPal order. */
  datatype Link = Link(rel: string, href: string)

  /** What the provider returns for a created order. */
  datatype PaypalOrder = PaypalOrder(id: string, links: seq<Link>)

  /** What the provider returns for a capture. */
  datatype Capture = Capture(status: string, id: string)

  /** A `paypal_orders` row, keyed by the provider's order id in the store. */
  datatype OrderRow = OrderRow(userId: UserId, plan: string, amountCents: int, status: string, captureId: Option<string>)

  /** Position of the first link with `rel == "approve"`, or `|links|` when there is none. */
  function FirstApproval(links: seq<Link>): (k: nat)
    ensures k <= |links|
    ensures forall j :: 0 <= j < k ==> links[j].rel != "approve"
    ensures k < |links| ==> links[k].rel == "approve"
  {
    if links == [] then 0
    else if links[0].rel == "approve" then 0
    else 1 + FirstApproval(links[1..])
  }

  /** `order.links.find(link => link.rel === 'approve')?.href`. */
  function ApprovalUrl(links: seq<Link>): (r: Option<string>)
    ensures r.None? <==> forall j :: 0 <= j < |links| ==> links[j].rel != "approve"
    ensures r.Some? ==> exists k :: 0 <= k < |links| && links[k].rel == "approve" && links[k].href == r.value
                                    && forall j :: 0 <= j < k ==> links[j].rel != "approve"
  {
    var k := FirstApproval(links);
    if k < |links| then Some(links[k].href) else None
  }

  /** The row the create-order route inserts: status `created` at the plan's catalog price. */
  function NewOrder(userId: UserId, plan: string): (r: OrderRow)
    requires plan in PlanIds
    ensures r.userId == userId && r.plan == plan && r.status == "created" && r.captureId.None?
    ensures r.amountCents == PlanById(plan).value.priceCents
  {
    OrderRow(userId, plan, PlanById(plan).value.priceCents, "created", None)
  }

  /** The row after a completed capture. */
  function Completed(o: OrderRow, captureId: string): (r: OrderRow)
    ensures r.status == "completed" && r.captureId == Some(captureId)
    ensures r.(status := o.status, captureId := o.captureId) == o
  {
    o.(status := "completed", captureId := Some(captureId))
  }

  /** The order query of the capture route: a row with this id that belongs to this user. */
  predicate OwnsOrder(orders: map<string, OrderRow>, orderId: string, u: UserId): (b: bool)
    ensures b ==> orderId in orders && orders[orderId].userId == u
    ensures orderId !in orders ==> !b
    ensures orderId in orders && orders[orderId].userId != u ==> !b
  {
    orderId in orders && orders[orderId].userId == u
  }

  /** Every order this system inserts names a catalog plan and carries that plan's price. */
  predicate OrderWellFormed(o: OrderRow) {
    o.plan in PlanIds && o.amountCents == PlanById(o.plan).value.priceCents
  }

  lemma OrderRowsWellFormed(userId: UserId, plan: string, captureId: string)
    requires plan in PlanIds
    ensures OrderWellFormed(NewOrder(userId, plan))
    ensures OrderWellFormed(Completed(NewOrder(userId, plan), captureId))
  {
  }
}
