/** The in-memory record store: one object holding six arrays (portal users,
    companies, subscription plans, staff, receipts, billing history) that its
    methods append to, replace elements of, and filter. Every list a getter
    returns is a sequence value, so a caller holds a copy and cannot change
    the store through it. */
module Store {
  import opened Base
  import opened Arrays
  import opened Types

  /** The six collections as one value, so that a contract can say which one
      an operation changes and that the others stay as they were. */
  datatype Tables = Tables(
    users: seq<User>,
    companies: seq<Company>,
    plans: seq<Plan>,
    appUsers: seq<AppUser>,
    receipts: seq<Receipt>,
    billingHistory: seq<BillingEntry>)

  // The callbacks the store passes to find, findIndex and filter.

  function UserIdIs(id: string): User -> bool { (u: User) => u.id == id }
  function UserEmailIs(email: string): User -> bool { (u: User) => u.email == email }
  function CompanyIdIs(id: string): Company -> bool { (c: Company) => c.id == id }
  function PlanIdIs(id: string): Plan -> bool { (p: Plan) => p.id == id }
  function AppUserIdIs(id: string): AppUser -> bool { (a: AppUser) => a.id == id }
  function AppUserIdIsNot(id: string): AppUser -> bool { (a: AppUser) => a.id != id }
  function AppUserInCompany(companyId: string): AppUser -> bool { (a: AppUser) => a.companyId == companyId }
  function StaffIsActive(): AppUser -> bool { (a: AppUser) => a.isActive }
  function ReceiptIdIs(id: string): Receipt -> bool { (r: Receipt) => r.id == id }
  function ReceiptInCompany(companyId: string): Receipt -> bool { (r: Receipt) => r.companyId == companyId }
  function BillingInCompany(companyId: string): BillingEntry -> bool { (b: BillingEntry) => b.companyId == companyId }

  function MergeUserWith(p: UserPatch): User -> User { (u: User) => MergeUser(u, p) }
  function MergeCompanyWith(p: CompanyPatch): Company -> Company { (c: Company) => MergeCompany(c, p) }
  function MergeAppUserWith(p: AppUserPatch): AppUser -> AppUser { (a: AppUser) => MergeAppUser(a, p) }
  function MergeReceiptWith(p: ReceiptPatch): Receipt -> Receipt { (r: Receipt) => MergeReceipt(r, p) }

  const DayMs := 24 * 60 * 60 * 1000

  /** The plan catalogue the store starts with (prices in cents). */
  const SeedPlans: seq<Plan> := [
    Plan("1", "Starter", "Perfect for small teams", 2999, Monthly, 5, 100,
         ["Email Support", "1GB Storage", "Basic Analytics"], true, None),
    Plan("2", "Professional", "Growing businesses", 5999, Monthly, 20, 500,
         ["Priority Support", "10GB Storage", "Advanced Analytics", "Custom Categories"], true, None),
    Plan("3", "Enterprise", "Large organizations", 14999, Monthly, 100, 2000,
         ["Phone Support", "Unlimited Storage", "Advanced Analytics", "API Access", "Custom Integrations"], true, None)
  ]

  /** The master administrator and the sample company's representative. */
  function SeedUsers(now: int): seq<User> {
    [ User("admin-1", "admin@receiptcapture.com", "admin123", "Portal Master Admin",
           MasterAdmin, None, true, now),
      User("user-1", "rep@techcorp.com", "password123", "John Smith",
           CompanyRepresentative, Some("company-1"), true, now) ]
  }

  function SeedCompanies(now: int): seq<Company> {
    [ Company("company-1", "Tech Corp Ltd", Some("techcorp.com"), "invoices@techcorp.com",
              Some("2"), Active, Some(now), Some(now + 30 * DayMs), now, None) ]
  }

  function SeedAppUsers(now: int): seq<AppUser> {
    [ AppUser("app-user-1", "staff1@techcorp.com", "staff123", "Alice Johnson",
              "company-1", Employee, true, "user-1", now),
      AppUser("app-user-2", "manager@techcorp.com", "mgr123", "Bob Wilson",
              "company-1", Manager, true, "user-1", now) ]
  }

  const SeedReceipts: seq<Receipt> := [
    Receipt("receipt-1", "app-user-1", "company-1", "/uploads/receipt-1.jpg",
            Some("Office Depot"), Some(4599), Some(1758796200000), Some("Office Supplies"),
            Some("Printer paper and pens"), Sent, Some(1758798000000), 1758797100000),
    Receipt("receipt-2", "app-user-2", "company-1", "/uploads/receipt-2.jpg",
            Some("Starbucks"), Some(1250), Some(1759047300000), Some("Meals & Entertainment"),
            Some("Client meeting coffee"), Processed, None, 1759047600000),
    Receipt("receipt-3", "app-user-1", "company-1", "/uploads/receipt-3.jpg",
            Some("Shell Gas Station"), Some(6788), Some(1759328520000), Some("Travel & Transportation"),
            Some("Business trip fuel"), Pending, None, 1759328700000),
    Receipt("receipt-4", "app-user-2", "company-1", "/uploads/receipt-4.jpg",
            Some("Best Buy"), Some(29999), Some(1759405500000), Some("Equipment"),
            Some("Wireless mouse and keyboard"), Pending, None, 1759406400000),
    Receipt("receipt-5", "app-user-1", "company-1", "/uploads/receipt-5.jpg",
            Some("Amazon Business"), Some(8995), Some(1759422600000), Some("Office Supplies"),
            None, Processed, None, 1759422900000)
  ]

  /** What the store holds when the process starts; `now` is the start time. */
  function SeedTables(now: int): Tables {
    Tables(SeedUsers(now), SeedCompanies(now), SeedPlans, SeedAppUsers(now), SeedReceipts, [])
  }

  class DataStore {
    var users: seq<User>
    var companies: seq<Company>
    var plans: seq<Plan>
    var appUsers: seq<AppUser>
    var receipts: seq<Receipt>
    var billingHistory: seq<BillingEntry>

    function State(): Tables
      reads this
    {
      Tables(users, companies, plans, appUsers, receipts, billingHistory)
    }

    /** The store as `initializeData` fills it. */
    constructor (now: int)
      ensures State() == SeedTables(now)
    {
      plans := SeedPlans;
      users := SeedUsers(now);
      companies := SeedCompanies(now);
      appUsers := SeedAppUsers(now);
      receipts := SeedReceipts;
      billingHistory := [];
    }

    /** `getUserById` (and its alias `getUser`): the first user with that id. */
    function UserById(id: string): (r: Option<User>)
      reads this
      ensures r.None? <==> forall k :: 0 <= k < |users| ==> users[k].id != id
      ensures r.Some? ==> exists k :: 0 <= k < |users| && users[k] == r.value && r.value.id == id &&
                            forall j :: 0 <= j < k ==> users[j].id != id
    {
      Find(users, UserIdIs(id))
    }

    /** `getUserByEmail`: the first user whose email is exactly `email`. */
    function UserByEmail(email: string): (r: Option<User>)
      reads this
      ensures r.None? <==> forall k :: 0 <= k < |users| ==> users[k].email != email
      ensures r.Some? ==> exists k :: 0 <= k < |users| && users[k] == r.value && r.value.email == email &&
                            forall j :: 0 <= j < k ==> users[j].email != email
    {
      Find(users, UserEmailIs(email))
    }

    /** `getCompanyById` (and its alias `getCompany`). */
    function CompanyById(id: string): (r: Option<Company>)
      reads this
      ensures r.None? <==> forall k :: 0 <= k < |companies| ==> companies[k].id != id
      ensures r.Some? ==> exists k :: 0 <= k < |companies| && companies[k] == r.value && r.value.id == id &&
                            forall j :: 0 <= j < k ==> companies[j].id != id
    {
      Find(companies, CompanyIdIs(id))
    }

    /** `getSubscriptionPlanById` (and its alias `getSubscriptionPlan`). */
    function PlanById(id: string): (r: Option<Plan>)
      reads this
      ensures r.None? <==> forall k :: 0 <= k < |plans| ==> plans[k].id != id
      ensures r.Some? ==> exists k :: 0 <= k < |plans| && plans[k] == r.value && r.value.id == id &&
                            forall j :: 0 <= j < k ==> plans[j].id != id
    {
      Find(plans, PlanIdIs(id))
    }

    /** `getAppUsersByCompany`: the company's staff, in insertion order. */
    function AppUsersByCompany(companyId: string): (r: seq<AppUser>)
      reads this
      ensures forall a :: a in r <==> a in appUsers && a.companyId == companyId
      ensures IsSubsequence(r, appUsers)
      ensures forall a :: multiset(r)[a] == if a.companyId == companyId then multiset(appUsers)[a] else 0
    {
      FilterIsSubsequence(appUsers, AppUserInCompany(companyId));
      FilterCounts(appUsers, AppUserInCompany(companyId));
      Filter(appUsers, AppUserInCompany(companyId))
    }

    /** `getReceiptsByCompany`: the company's receipts, in insertion order. */
    function ReceiptsByCompany(companyId: string): (r: seq<Receipt>)
      reads this
      ensures forall x :: x in r <==> x in receipts && x.companyId == companyId
      ensures IsSubsequence(r, receipts)
      ensures forall x :: multiset(r)[x] == if x.companyId == companyId then multiset(receipts)[x] else 0
    {
      FilterIsSubsequence(receipts, ReceiptInCompany(companyId));
      FilterCounts(receipts, ReceiptInCompany(companyId));
      Filter(receipts, ReceiptInCompany(companyId))
    }

    /** `getBillingHistory`: the company's billing entries, in append order. */
    function BillingHistoryOf(companyId: string): (r: seq<BillingEntry>)
      reads this
      ensures forall b :: b in r <==> b in billingHistory && b.companyId == companyId
      ensures IsSubsequence(r, billingHistory)
      ensures forall b :: multiset(r)[b] == if b.companyId == companyId then multiset(billingHistory)[b] else 0
    {
      FilterIsSubsequence(billingHistory, BillingInCompany(companyId));
      FilterCounts(billingHistory, BillingInCompany(companyId));
      Filter(billingHistory, BillingInCompany(companyId))
    }

    /** `addUser`: appended at the end; no uniqueness is enforced. */
    method AddUser(u: User)
      modifies this
      ensures State() == old(State()).(users := old(users) + [u])
    {
      users := users + [u];
    }

    /** `updateUser`: merges the update into the first user with that id. */
    method UpdateUser(id: string, updates: UserPatch)
      modifies this
      ensures State() == old(State()).(users := UpdateFirst(old(users), UserIdIs(id), MergeUserWith(updates)))
    {
      var index := FindIndex(users, UserIdIs(id));
      if index != -1 {
        users := users[index := MergeUser(users[index], updates)];
      }
    }

    /** `addCompany`. */
    method AddCompany(c: Company)
      modifies this
      ensures State() == old(State()).(companies := old(companies) + [c])
    {
      companies := companies + [c];
    }

    /** `updateCompany`: merges the update into the first company with that id. */
    method UpdateCompany(id: string, updates: CompanyPatch)
      modifies this
      ensures State() == old(State()).(companies := UpdateFirst(old(companies), CompanyIdIs(id), MergeCompanyWith(updates)))
    {
      var index := FindIndex(companies, CompanyIdIs(id));
      if index != -1 {
        companies := companies[index := MergeCompany(companies[index], updates)];
      }
    }

    /** `addAppUser`. */
    method AddAppUser(a: AppUser)
      modifies this
      ensures State() == old(State()).(appUsers := old(appUsers) + [a])
    {
      appUsers := appUsers + [a];
    }

    /** `updateAppUser`: merges the update into the first staff member with that id. */
    method UpdateAppUser(id: string, updates: AppUserPatch)
      modifies this
      ensures State() == old(State()).(appUsers := UpdateFirst(old(appUsers), AppUserIdIs(id), MergeAppUserWith(updates)))
    {
      var index := FindIndex(appUsers, AppUserIdIs(id));
      if index != -1 {
        appUsers := appUsers[index := MergeAppUser(appUsers[index], updates)];
      }
    }

    /** `deleteAppUser`: every staff member with that id goes, the others stay
        in their order. */
    method DeleteAppUser(id: string)
      modifies this
      ensures State() == old(State()).(appUsers := appUsers)
      ensures forall a :: a in appUsers <==> a in old(appUsers) && a.id != id
      ensures IsSubsequence(appUsers, old(appUsers))
      ensures forall a :: multiset(appUsers)[a] == if a.id != id then multiset(old(appUsers))[a] else 0
    {
      FilterIsSubsequence(appUsers, AppUserIdIsNot(id));
      FilterCounts(appUsers, AppUserIdIsNot(id));
      appUsers := Filter(appUsers, AppUserIdIsNot(id));
    }

    /** `updateReceipt`: merges the update into the first receipt with that id
        and returns the stored result, or `None` (`null`) for an unknown id. */
    method UpdateReceipt(id: string, updates: ReceiptPatch) returns (r: Option<Receipt>)
      modifies this
      ensures State() == old(State()).(receipts := UpdateFirst(old(receipts), ReceiptIdIs(id), MergeReceiptWith(updates)))
      ensures r.None? <==> FindIndex(old(receipts), ReceiptIdIs(id)) == -1
      ensures r.Some? ==>
        && r.value == receipts[FindIndex(old(receipts), ReceiptIdIs(id))]
        && r.value == MergeReceipt(old(receipts)[FindIndex(old(receipts), ReceiptIdIs(id))], updates)
    {
      var index := FindIndex(receipts, ReceiptIdIs(id));
      if index != -1 {
        receipts := receipts[index := MergeReceipt(receipts[index], updates)];
        r := Some(receipts[index]);
      } else {
        r := None;
      }
    }

    /** `addBillingHistory`. */
    method AddBillingHistory(b: BillingEntry)
      modifies this
      ensures State() == old(State()).(billingHistory := old(billingHistory) + [b])
    {
      billingHistory := billingHistory + [b];
    }
  }

  /** After a staff member is appended, a company's staff listing is the old
      listing followed by the new member exactly when it belongs to that company. */
  lemma {:induction false} ListingAfterAddAppUser(staff: seq<AppUser>, a: AppUser, companyId: string)
    ensures Filter(staff + [a], AppUserInCompany(companyId)) ==
            Filter(staff, AppUserInCompany(companyId)) + (if a.companyId == companyId then [a] else [])
  {
    FilterAppend(staff, [a], AppUserInCompany(companyId));
    assert [a][1..] == [];
  }

  /** An update whose id is unknown leaves the collection unchanged; with a
      known id only the first element with that id is replaced, by the merge. */
  lemma {:induction false} UpdateAppUserOnlyFirstMatch(staff: seq<AppUser>, id: string, p: AppUserPatch)
    ensures var r := UpdateFirst(staff, AppUserIdIs(id), MergeAppUserWith(p));
      && |r| == |staff|
      && ((forall k :: 0 <= k < |staff| ==> staff[k].id != id) ==> r == staff)
      && (forall k :: 0 <= k < |staff| && staff[k].id == id && (forall j :: 0 <= j < k ==> staff[j].id != id) ==>
            r[k] == MergeAppUser(staff[k], p) &&
            forall j :: 0 <= j < |staff| && j != k ==> r[j] == staff[j])
  {
    var i := FindIndex(staff, AppUserIdIs(id));
    forall k | 0 <= k < |staff| && staff[k].id == id && (forall j :: 0 <= j < k ==> staff[j].id != id)
      ensures k == i
    {
      assert AppUserIdIs(id)(staff[k]);
    }
  }

  /** Applying the same staff update twice gives the same collection as
      applying it once, when the update does not move the record to another id. */
  lemma AppUserUpdateIdempotent(staff: seq<AppUser>, id: string, p: AppUserPatch)
    requires p.id.None? || p.id == Some(id)
    ensures var once := UpdateFirst(staff, AppUserIdIs(id), MergeAppUserWith(p));
      UpdateFirst(once, AppUserIdIs(id), MergeAppUserWith(p)) == once
  {
    UpdateFirstIdempotent(staff, AppUserIdIs(id), MergeAppUserWith(p));
  }

  /** After merging an update that keeps the id into the first company with
      that id, looking the id up finds the merged company. */
  lemma {:induction false} CompanyFoundAfterUpdate(companies: seq<Company>, id: string, p: CompanyPatch)
    requires p.id.None?
    requires Find(companies, CompanyIdIs(id)).Some?
    ensures var after := UpdateFirst(companies, CompanyIdIs(id), MergeCompanyWith(p));
      Find(after, CompanyIdIs(id)) == Some(MergeCompany(Find(companies, CompanyIdIs(id)).value, p))
  {
    var i := FindIndex(companies, CompanyIdIs(id));
    var after := UpdateFirst(companies, CompanyIdIs(id), MergeCompanyWith(p));
    assert CompanyIdIs(id)(after[i]);
    assert FindIndex(after, CompanyIdIs(id)) == i;
  }
}
