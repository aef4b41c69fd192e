/** `GET /api/subscription/billing`: a representative's billing history,
    current plan and subscription status. */
module BillingRoute {
  import opened Base
  import opened Arrays
  import opened Types
  import opened Auth
  import opened Store
  import opened Api

  /** The response body. `status` and `endDate` are `None` when the company is
      missing (`company?.subscriptionStatus` is `undefined`). */
  datatype BillingView = BillingView(
    billingHistory: seq<BillingEntry>,
    currentPlan: Option<Plan>,
    status: Option<SubscriptionStatus>,
    endDate: Option<int>)

  /** The handler: the representative guards, then the company's entries in
      append order, its plan, status and end date. */
  function Billing(store: DataStore, token: Option<Token>, verify: Token -> Option<Claims>): (r: Reply<BillingView>)
    reads store
    ensures NoToken(token) ==> r == Failure(401, "Unauthorized")
    ensures RepresentativeClaims(token, verify) == Stop(403, "Forbidden") ==> r == Failure(403, "Forbidden")
    ensures r.Success? <==>
      && RepresentativeClaims(token, verify).Pass?
      && CallerCompany(store, RepresentativeClaims(token, verify).value.userId).Pass?
    ensures RepresentativeClaims(token, verify).Pass? &&
            CallerCompany(store, RepresentativeClaims(token, verify).value.userId).Stop? ==>
      r == Failure(404, "User or company not found")
    ensures r.Success? ==>
      var cid := CallerCompany(store, RepresentativeClaims(token, verify).value.userId).value.1;
      var company := store.CompanyById(cid);
      && r.status == 200
      && (forall b :: b in r.body.billingHistory <==> b in store.billingHistory && b.companyId == cid)
      && IsSubsequence(r.body.billingHistory, store.billingHistory)
      && (forall b :: multiset(r.body.billingHistory)[b] ==
            if b.companyId == cid then multiset(store.billingHistory)[b] else 0)
      && r.body.currentPlan == CurrentPlan(store, company)
      && (company.None? ==> r.body.status.None? && r.body.endDate.None?)
      && (company.Some? ==> r.body.status == Some(company.value.subscriptionStatus) &&
                            r.body.endDate == company.value.subscriptionEndDate)
  {
    match RepresentativeClaims(token, verify)
    case Stop(status, error) => Failure(status, error)
    case Pass(claims) =>
      match CallerCompany(store, claims.userId)
      case Stop(status, error) => Failure(status, error)
      case Pass((_, cid)) =>
        var company := store.CompanyById(cid);
        Success(200, BillingView(
          store.BillingHistoryOf(cid),
          CurrentPlan(store, company),
          if company.Some? then Some(company.value.subscriptionStatus) else None,
          if company.Some? then company.value.subscriptionEndDate else None))
  }
}
