/** `GET /api/subscription/plans`: the plans a signed-in user can choose from. */
module PlansRoute {
  import opened Base
  import opened Arrays
  import opened Types
  import opened Auth
  import opened Store
  import opened Api

  function PlanIsActive(): Plan -> bool { (p: Plan) => p.isActive }

  /** The handler at time `now`: the session guards, then the active plans in
      catalogue order. */
  function ActivePlans(store: DataStore, token: Option<Token>, now: int): (r: Reply<seq<Plan>>)
    reads store
    ensures r.Failure? <==> !SessionOf(store, token, now).Admitted?
    ensures NoToken(token) ==> r == Failure(401, "No token provided")
    ensures !NoToken(token) && ValidateToken(token.value, now).None? ==> r == Failure(401, "Invalid token")
    ensures SessionOf(store, token, now) == UnknownUser ==> r == Failure(404, "User not found")
    ensures r.Success? ==>
      && r.status == 200
      && (forall p :: p in r.body <==> p in store.plans && p.isActive)
      && IsSubsequence(r.body, store.plans)
      && (forall p :: multiset(r.body)[p] == if p.isActive then multiset(store.plans)[p] else 0)
  {
    match SessionGate(store, token, now)
    case Stop(status, error) => Failure(status, error)
    case Pass(_) =>
      FilterIsSubsequence(store.plans, PlanIsActive());
      FilterCounts(store.plans, PlanIsActive());
      Success(200, Filter(store.plans, PlanIsActive()))
  }

  /** With the catalogue the store starts with, a signed-in user sees all three plans. */
  lemma SeedCatalogueAllActive(store: DataStore, token: Option<Token>, now: int)
    requires store.plans == SeedPlans
    requires SessionOf(store, token, now).Admitted?
    ensures ActivePlans(store, token, now) == Success(200, SeedPlans)
  {
    FilterAll(SeedPlans, PlanIsActive());
  }
}
