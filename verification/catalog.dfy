/**
 * The subscription plan catalog (`SUBSCRIPTION_PLANS` in src/lib/server/stripe.js).
 * Prices are kept in US cents so that they are exact integers.
 */
module Catalog {
  import opened Wrappers

  /** One catalog entry. `priceId` is the provider's recurring price reference; the free tier has none. */
  datatype Plan = Plan(name: string, priceCents: nat, priceId: Option<string>, tokens: nat, features: seq<string>)

  /** The keys of the catalog object. */
  const PlanIds: set<string> := {"free", "pro", "enterprise"}

  const FreePlan: Plan :=
    Plan("Free", 0, None, 1000, ["Basic AI Chat", "1,000 tokens/month", "Email support"])

  const ProPlan: Plan :=
    Plan("Pro", 999, Some("price_pro_monthly"), 50000,
         ["Advanced AI Chat", "50,000 tokens/month", "Priority support", "Chat history"])

  const EnterprisePlan: Plan :=
    Plan("Enterprise", 2999, Some("price_enterprise_monthly"), 200000,
         ["Premium AI Chat", "200,000 tokens/month", "24/7 support", "Custom integrations"])

  /** Catalog lookup by plan id, on the catalog's own keys only. */
  function PlanById(id: string): (r: Option<Plan>)
    ensures r.Some? <==> id in PlanIds
    ensures r.Some? ==> r.value.tokens > 0
    ensures r.Some? ==> (r.value.priceId.None? <==> r.value.priceCents == 0)
  {
    if id == "free" then Some(FreePlan)
    else if id == "pro" then Some(ProPlan)
    else if id == "enterprise" then Some(EnterprisePlan)
    else None
  }

  /** The token allowance of a known plan id; no tier grants less than the free tier. */
  function Allowance(id: string): (n: nat)
    requires id in PlanIds
    ensures n >= 1000
  {
    PlanById(id).value.tokens
  }

  /** The three entries carry the prices, provider price references and allowances of the source. */
  lemma CatalogEntries()
    ensures PlanById("free").Some? && PlanById("free").value.priceCents == 0
         && PlanById("free").value.tokens == 1000 && PlanById("free").value.priceId == None
    ensures PlanById("pro").Some? && PlanById("pro").value.priceCents == 999
         && PlanById("pro").value.tokens == 50000 && PlanById("pro").value.priceId == Some("price_pro_monthly")
    ensures PlanById("enterprise").Some? && PlanById("enterprise").value.priceCents == 2999
         && PlanById("enterprise").value.tokens == 200000
         && PlanById("enterprise").value.priceId == Some("price_enterprise_monthly")
  {
  }

  /** A more expensive tier always grants strictly more tokens. */
  lemma AllowanceGrowsWithPrice(a: string, b: string)
    requires a in PlanIds && b in PlanIds
    requires PlanById(a).value.priceCents < PlanById(b).value.priceCents
    ensures Allowance(a) < Allowance(b)
  {
  }

  // ---------------------------------------------------------------------------
  // The validity check as written: `!SUBSCRIPTION_PLANS[plan]` indexes a plain
  // object literal, so it also finds every property the literal inherits from
  // Object.prototype. Those names pass the check without naming a plan.
  // ---------------------------------------------------------------------------

  /** Property names every object literal inherits from Object.prototype. */
  const InheritedNames: set<string> := {
    "constructor", "hasOwnProperty", "isPrototypeOf", "propertyIsEnumerable",
    "toLocaleString", "toString", "valueOf", "__proto__",
    "__defineGetter__", "__defineSetter__", "__lookupGetter__", "__lookupSetter__"
  }

  /** True when `SUBSCRIPTION_PLANS[id]` is truthy, i.e. when the source's plan check lets `id` through. */
  predicate PassesPlanCheckAsWritten(id: string) {
    id in PlanIds || id in InheritedNames
  }

  /** The check as written accepts "toString", for which there is no plan (no price, no allowance). */
  lemma InheritedNamePassesPlanCheck()
    ensures PassesPlanCheckAsWritten("toString") && PlanById("toString").None?
  {
  }

  /** Away from inherited names, the check as written and the corrected lookup agree. */
  lemma PlanCheckAgreesOffPrototype(id: string)
    requires id !in InheritedNames
    ensures PassesPlanCheckAsWritten(id) <==> PlanById(id).Some?
  {
  }
}
