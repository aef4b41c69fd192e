/** `POST /api/subscription/change`: a representative moving its company to
    another plan, which renews the subscription and records a paid billing
    entry. */
module ChangeRoute {
  import opened Base
  import opened Arrays
  import opened Types
  import opened Auth
  import opened Store
  import opened Api

  /** The response body. `company` is always `None`: the handler reports the
      return value of `updateCompany`, which returns nothing. */
  datatype ChangeResult = ChangeResult(
    message: string,
    company: Option<Company>,
    plan: Plan,
    billingEntry: BillingEntry)

  /** The new end date: one calendar month after `now` for a monthly plan, one
      calendar year after it otherwise. */
  function SubscriptionEnd(plan: Plan, now: int, cal: Calendar): (end: int)
    ensures plan.billingCycle == Monthly ==> end == cal.addMonths(now, 1)
    ensures plan.billingCycle == Annual ==> end == cal.addYears(now, 1)
  {
    if plan.billingCycle == Monthly then cal.addMonths(now, 1) else cal.addYears(now, 1)
  }

  /** The update the handler merges into the company. */
  function ChangePatch(planId: string, end: int, now: int): CompanyPatch {
    NoCompanyChange.(subscriptionPlanId := Some(Some(planId)),
                     subscriptionStatus := Some(Active),
                     subscriptionEndDate := Some(Some(end)),
                     updatedAt := Some(Some(now)))
  }

  /** The billing entry recorded for a change at time `now`. */
  function ChangeEntry(companyId: string, planId: string, plan: Plan, end: int, now: int): BillingEntry {
    BillingEntry("bill_" + IntToDecimal(now), companyId, planId, plan.name, plan.price, plan.billingCycle,
                 Paid, now, end, "Subscription to " + plan.name + " plan", now)
  }

  /** The company after the change is active on the new plan until the new end
      date, updated at `now`, and otherwise as it was; the billing entry charges
      the plan's price for the plan's cycle and is next due when the
      subscription ends. */
  lemma ChangeEffect(c: Company, planId: string, plan: Plan, now: int, cal: Calendar)
    ensures var end := SubscriptionEnd(plan, now, cal);
      var after := MergeCompany(c, ChangePatch(planId, end, now));
      var entry := ChangeEntry(c.id, planId, plan, end, now);
      && after == c.(subscriptionPlanId := Some(planId), subscriptionStatus := Active,
                     subscriptionEndDate := Some(end), updatedAt := Some(now))
      && entry.companyId == after.id && Some(entry.planId) == after.subscriptionPlanId
      && entry.amount == plan.price && entry.status == Paid && entry.billingCycle == plan.billingCycle
      && Some(entry.nextBillingDate) == after.subscriptionEndDate
      && entry.billingDate == now
  {
  }

  /** The handler at time `now`, with `verify` standing for the token helper
      and `cal` for calendar arithmetic: the representative token checks, then
      the plan id, then the plan, then the caller and its company. Only a
      request that passes them all changes the store: the company is updated
      and one billing entry is appended, and every failure leaves the store as
      it was. */
  method ChangeSubscription(store: DataStore, token: Option<Token>, planId: Option<string>, now: int,
                            verify: Token -> Option<Claims>, cal: Calendar) returns (r: Reply<ChangeResult>)
    modifies store
    ensures r.Failure? ==> store.State() == old(store.State())
    ensures RepresentativeClaims(token, verify).Stop? ==>
      r == Failure(RepresentativeClaims(token, verify).status, RepresentativeClaims(token, verify).error)
    ensures RepresentativeClaims(token, verify).Pass? ==>
      var claims := RepresentativeClaims(token, verify).value;
      && (!Present(planId) ==> r == Failure(400, "Plan ID is required"))
      && (Present(planId) && old(store.PlanById(planId.value)).None? ==>
            r == Failure(400, "Invalid subscription plan"))
      && (Present(planId) && old(store.PlanById(planId.value)).Some? && old(CallerCompany(store, claims.userId)).Stop? ==>
            r == Failure(404, "User or company not found"))
      && (Present(planId) && old(store.PlanById(planId.value)).Some? && old(CallerCompany(store, claims.userId)).Pass? &&
          old(store.CompanyById(CallerCompany(store, claims.userId).value.1)).None? ==>
            r == Failure(404, "Company not found"))
    ensures r.Success? <==>
      && RepresentativeClaims(token, verify).Pass?
      && Present(planId)
      && old(store.PlanById(planId.value)).Some?
      && old(CallerCompany(store, RepresentativeClaims(token, verify).value.userId)).Pass?
      && old(store.CompanyById(CallerCompany(store, RepresentativeClaims(token, verify).value.userId).value.1)).Some?
    ensures r.Success? ==>
      var cid := old(CallerCompany(store, RepresentativeClaims(token, verify).value.userId)).value.1;
      var plan := old(store.PlanById(planId.value)).value;
      var end := SubscriptionEnd(plan, now, cal);
      var entry := ChangeEntry(cid, planId.value, plan, end, now);
      && store.State() == old(store.State()).(
           companies := UpdateFirst(old(store.companies), CompanyIdIs(cid), MergeCompanyWith(ChangePatch(planId.value, end, now))),
           billingHistory := old(store.billingHistory) + [entry])
      && store.CompanyById(cid) == Some(MergeCompany(old(store.CompanyById(cid)).value, ChangePatch(planId.value, end, now)))
      && CurrentPlan(store, store.CompanyById(cid)) == Some(plan)
      && r == Success(200, ChangeResult("Successfully upgraded to " + plan.name + " plan", None, plan, entry))
  {
    var claims := RepresentativeClaims(token, verify);
    if claims.Stop? {
      return Failure(claims.status, claims.error);
    }
    if !Present(planId) {
      return Failure(400, "Plan ID is required");
    }
    var plan := store.PlanById(planId.value);
    if plan.None? {
      return Failure(400, "Invalid subscription plan");
    }
    var caller := CallerCompany(store, claims.value.userId);
    if caller.Stop? {
      return Failure(caller.status, caller.error);
    }
    var cid := caller.value.1;
    var company := store.CompanyById(cid);
    if company.None? {
      return Failure(404, "Company not found");
    }
    var end := SubscriptionEnd(plan.value, now, cal);
    ghost var before := store.companies;
    store.UpdateCompany(cid, ChangePatch(planId.value, end, now));
    CompanyFoundAfterUpdate(before, cid, ChangePatch(planId.value, end, now));
    var entry := ChangeEntry(cid, planId.value, plan.value, end, now);
    store.AddBillingHistory(entry);
    r := Success(200, ChangeResult("Successfully upgraded to " + plan.value.name + " plan", None, plan.value, entry));
  }
}
