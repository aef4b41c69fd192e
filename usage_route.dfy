/** `GET /api/subscription/usage`: a representative's usage figures against
    its plan's limits, with a six-month receipt history. */
module UsageRoute {
  import opened Base
  import opened Arrays
  import opened Types
  import opened Auth
  import opened Store
  import opened Api
  import ReceiptQuery

  /** One month of the history: the month (as `Calendar.monthOf` numbers it),
      how many of the company's receipts were created in it, and their total
      amount in cents. */
  datatype MonthUsage = MonthUsage(month: int, receipts: nat, amount: int)

  function InMonth(cal: Calendar, month: int): Receipt -> bool {
    (r: Receipt) => cal.monthOf(r.createdAt) == month
  }

  /** `rs.reduce((sum, r) => sum + (r.amount || 0), 0)`. */
  function SumAmounts(rs: seq<Receipt>): int {
    if rs == [] then 0
    else ReceiptQuery.AmountOrZero(rs[0]) + SumAmounts(rs[1..])
  }

  /** The amounts of the receipts that satisfy `p`, added up position by
      position over the whole list. */
  function MaskedSum(rs: seq<Receipt>, p: Receipt -> bool): int {
    if rs == [] then 0
    else (if p(rs[0]) then ReceiptQuery.AmountOrZero(rs[0]) else 0) + MaskedSum(rs[1..], p)
  }

  /** Summing the filtered receipts adds exactly the amounts of the receipts
      that pass. */
  lemma {:induction false} SumOfFilter(rs: seq<Receipt>, p: Receipt -> bool)
    ensures SumAmounts(Filter(rs, p)) == MaskedSum(rs, p)
    decreases |rs|
  {
    if rs != [] {
      SumOfFilter(rs[1..], p);
      if p(rs[0]) {
        var rest := Filter(rs[1..], p);
        assert ([rs[0]] + rest)[0] == rs[0] && ([rs[0]] + rest)[1..] == rest;
      }
    }
  }

  /** The receipts of a month are as many as the positions holding one. */
  lemma MonthCount(rs: seq<Receipt>, cal: Calendar, month: int)
    ensures |Filter(rs, InMonth(cal, month))| == |set k | 0 <= k < |rs| && cal.monthOf(rs[k].createdAt) == month|
  {
    var p := InMonth(cal, month);
    FilterLength(rs, p);
    assert Positions(rs, p) == set k | 0 <= k < |rs| && cal.monthOf(rs[k].createdAt) == month;
  }

  /** The entry for the month `back` months before `now`: it counts exactly
      the receipts created in that month and adds up exactly their amounts. */
  function MonthEntry(rs: seq<Receipt>, now: int, cal: Calendar, back: int): (e: MonthUsage)
    ensures e.month == cal.monthOf(cal.addMonths(now, -back))
    ensures e.receipts == |set k | 0 <= k < |rs| && cal.monthOf(rs[k].createdAt) == e.month|
    ensures e.amount == MaskedSum(rs, InMonth(cal, e.month))
  {
    var month := cal.monthOf(cal.addMonths(now, -back));
    var inMonth := Filter(rs, InMonth(cal, month));
    MonthCount(rs, cal, month);
    SumOfFilter(rs, InMonth(cal, month));
    MonthUsage(month, |inMonth|, SumAmounts(inMonth))
  }

  /** The history loop: five months back down to zero, each entry appended,
      so the result is six entries, oldest first, ending with the month of
      `now` itself. */
  method MonthlyUsage(rs: seq<Receipt>, now: int, cal: Calendar) returns (usage: seq<MonthUsage>)
    ensures |usage| == 6
    ensures forall k :: 0 <= k < 6 ==> usage[k] == MonthEntry(rs, now, cal, 5 - k)
  {
    usage := [];
    var i := 5;
    while i >= 0
      invariant -1 <= i <= 5
      invariant |usage| == 5 - i
      invariant forall k :: 0 <= k < |usage| ==> usage[k] == MonthEntry(rs, now, cal, 5 - k)
      decreases i
    {
      var date := cal.addMonths(now, -i);
      var month := cal.monthOf(date);
      var monthReceipts := Filter(rs, InMonth(cal, month));
      usage := usage + [MonthUsage(month, |monthReceipts|, SumAmounts(monthReceipts))];
      i := i - 1;
    }
  }

  /** The receipts created in the month of `now`. */
  function ThisMonth(rs: seq<Receipt>, now: int, cal: Calendar): (r: seq<Receipt>)
    ensures forall x :: x in r <==> x in rs && cal.monthOf(x.createdAt) == cal.monthOf(now)
    ensures |r| == |set k | 0 <= k < |rs| && cal.monthOf(rs[k].createdAt) == cal.monthOf(now)|
    ensures IsSubsequence(r, rs)
  {
    MonthCount(rs, cal, cal.monthOf(now));
    FilterIsSubsequence(rs, InMonth(cal, cal.monthOf(now)));
    Filter(rs, InMonth(cal, cal.monthOf(now)))
  }

  /** When moving zero months is the identity, the last entry of the history
      is the current month and counts exactly the receipts of this month. */
  lemma LastEntryIsThisMonth(rs: seq<Receipt>, now: int, cal: Calendar)
    requires cal.addMonths(now, 0) == now
    ensures MonthEntry(rs, now, cal, 0).month == cal.monthOf(now)
    ensures MonthEntry(rs, now, cal, 0).receipts == |ThisMonth(rs, now, cal)|
  {
  }

  /** `value || fallback`: the value unless it is missing or 0. */
  function LimitOr(value: Option<int>, fallback: int): (r: int)
    ensures value.Some? && value.value != 0 ==> r == value.value
    ensures value.None? || value.value == 0 ==> r == fallback
  {
    if value.Some? && value.value != 0 then value.value else fallback
  }

  /** The limits reported: the plan's `limits` block where it gives a non-zero
      value, else 5 users, 100 receipts and 1000 MB. None of them is 0. */
  function Limits(plan: Option<Plan>): (l: PlanLimits)
    ensures l.maxUsers != 0 && l.maxReceipts != 0 && l.maxStorage != 0
    ensures plan.None? || plan.value.limits.None? ==> l == PlanLimits(5, 100, 1000)
  {
    var block := if plan.Some? then plan.value.limits else None;
    PlanLimits(
      LimitOr(if block.Some? then Some(block.value.maxUsers) else None, 5),
      LimitOr(if block.Some? then Some(block.value.maxReceipts) else None, 100),
      LimitOr(if block.Some? then Some(block.value.maxStorage) else None, 1000))
  }

  /** `Math.round(num / den)` computed exactly, for a non-zero `den`:
      `floor(num / den + 1/2)`. */
  function RoundedRatio(num: int, den: int): int
    requires den != 0
  {
    if den > 0 then (2 * num + den) / (2 * den) else (-(2 * num + den)) / (-2 * den)
  }

  /** The rounded ratio is the integer nearest to `num / den`, a half
      rounding up: `p - 1/2 <= num / den < p + 1/2`. */
  lemma {:induction false} RoundedRatioIsNearest(num: int, den: int)
    requires den != 0
    ensures var p := RoundedRatio(num, den);
      if den > 0 then 2 * p * den - den <= 2 * num < 2 * p * den + den
      else 2 * p * den - den >= 2 * num > 2 * p * den + den
  {
    var p := RoundedRatio(num, den);
    if den > 0 {
      var rem := (2 * num + den) % (2 * den);
      assert 2 * num + den == p * (2 * den) + rem;
    } else {
      var rem := (-(2 * num + den)) % (-2 * den);
      assert -(2 * num + den) == p * (-2 * den) + rem;
    }
  }

  /** A percentage of a limit. */
  function Percent(count: int, limit: int): int
    requires limit != 0
  {
    RoundedRatio(100 * count, limit)
  }

  /** Within a positive limit the percentage is between 0 and 100. */
  lemma {:induction false} PercentWithinLimit(count: nat, limit: int)
    requires 0 < limit && count <= limit
    ensures 0 <= Percent(count, limit) <= 100
  {
    RoundedRatioIsNearest(100 * count, limit);
    var p := Percent(count, limit);
    if p > 100 {
      assert 2 * p * limit >= 2 * 101 * limit by {
        MultiplyMonotone(2 * 101, 2 * p, limit);
      }
    }
    if p < 0 {
      MultiplyMonotone(2 * p, -2, limit);
    }
  }

  datatype UsagePercentage = UsagePercentage(users: int, receipts: int, storage: int)

  /** The `usage` block. Storage is counted in half megabytes (0.5 MB per
      receipt), so `storageUsedHalfMb` is the receipt count. */
  datatype Usage = Usage(
    staffCount: nat,
    activeStaffCount: nat,
    receiptsThisMonth: nat,
    totalReceipts: nat,
    storageUsedHalfMb: nat,
    limits: PlanLimits,
    monthlyUsage: seq<MonthUsage>,
    usagePercentage: UsagePercentage)

  datatype UsageReport = UsageReport(
    usage: Usage,
    currentPlan: Option<Plan>,
    status: Option<SubscriptionStatus>,
    endDate: Option<int>)


  /** The handler at time `now`, with `verify` for the token helper and `cal`
      for calendar arithmetic: the representative guards, then the company's
      counts, limits, percentages and history. */
  method UsageOf(store: DataStore, token: Option<Token>, now: int, verify: Token -> Option<Claims>, cal: Calendar)
    returns (r: Reply<UsageReport>)
    ensures RepresentativeClaims(token, verify).Stop? ==>
      r == Failure(RepresentativeClaims(token, verify).status, RepresentativeClaims(token, verify).error)
    ensures RepresentativeClaims(token, verify).Pass? &&
            CallerCompany(store, RepresentativeClaims(token, verify).value.userId).Stop? ==>
      r == Failure(404, "User or company not found")
    ensures r.Success? <==>
      RepresentativeClaims(token, verify).Pass? &&
      CallerCompany(store, RepresentativeClaims(token, verify).value.userId).Pass?
    ensures r.Success? ==>
      var cid := CallerCompany(store, RepresentativeClaims(token, verify).value.userId).value.1;
      var company := store.CompanyById(cid);
      var staff := store.AppUsersByCompany(cid);
      var rs := store.ReceiptsByCompany(cid);
      var u := r.body.usage;
      && r.status == 200
      && r.body.currentPlan == CurrentPlan(store, company)
      && u.staffCount == |staff| && u.activeStaffCount == Count(staff, StaffIsActive())
      && u.activeStaffCount <= u.staffCount
      && u.totalReceipts == |rs| && u.storageUsedHalfMb == |rs|
      && u.receiptsThisMonth == |ThisMonth(rs, now, cal)| && u.receiptsThisMonth <= u.totalReceipts
      && u.limits == Limits(r.body.currentPlan)
      && |u.monthlyUsage| == 6
      && (forall k :: 0 <= k < 6 ==> u.monthlyUsage[k] == MonthEntry(rs, now, cal, 5 - k))
      && u.usagePercentage == UsagePercentage(
           Percent(|staff|, u.limits.maxUsers),
           Percent(u.receiptsThisMonth, u.limits.maxReceipts),
           RoundedRatio(50 * |rs|, u.limits.maxStorage))
      && (company.None? ==> r.body.status.None? && r.body.endDate.None?)
      && (company.Some? ==> r.body.status == Some(company.value.subscriptionStatus) &&
                            r.body.endDate == company.value.subscriptionEndDate)
  {
    var claims := RepresentativeClaims(token, verify);
    if claims.Stop? {
      return Failure(claims.status, claims.error);
    }
    var caller := CallerCompany(store, claims.value.userId);
    if caller.Stop? {
      return Failure(caller.status, caller.error);
    }
    var cid := caller.value.1;
    var company := store.CompanyById(cid);
    var plan := CurrentPlan(store, company);
    var staff := store.AppUsersByCompany(cid);
    var rs := store.ReceiptsByCompany(cid);
    var thisMonth := ThisMonth(rs, now, cal);
    var history := MonthlyUsage(rs, now, cal);
    var limits := Limits(plan);
    var usage := Usage(
      |staff|, Count(staff, StaffIsActive()), |thisMonth|, |rs|, |rs|, limits, history,
      UsagePercentage(
        Percent(|staff|, limits.maxUsers),
        Percent(|thisMonth|, limits.maxReceipts),
        RoundedRatio(50 * |rs|, limits.maxStorage)));
    r := Success(200, UsageReport(
      usage, plan,
      if company.Some? then Some(company.value.subscriptionStatus) else None,
      if company.Some? then company.value.subscriptionEndDate else None));
  }
}
