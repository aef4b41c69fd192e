/** The records the portal stores: portal users, companies, subscription
    plans, staff members (app users), receipts and billing entries, together
    with the partial records (`Partial<T>`) that the store merges into them.
    Timestamps are milliseconds since the epoch; money is in cents. */
module Types {
  import opened Base

  /** A portal user's role: exactly one of these two. */
  datatype PortalRole = MasterAdmin | CompanyRepresentative

  datatype SubscriptionStatus = Inactive | Active | Cancelled | Trial

  datatype BillingCycle = Monthly | Annual

  /** A staff member's role: exactly one of these two. */
  datatype StaffRole = Manager | Employee

  datatype ReceiptStatus = Pending | Processed | Sent

  datatype BillingStatus = Paid | PaymentPending | PaymentFailed

  /** A portal user; a company representative is linked to a company by `companyId`. */
  datatype User = User(
    id: string,
    email: string,
    password: string,
    name: string,
    role: PortalRole,
    companyId: Option<string>,
    isActive: bool,
    createdAt: int)

  datatype Company = Company(
    id: string,
    name: string,
    domain: Option<string>,
    destinationEmail: string,
    subscriptionPlanId: Option<string>,
    subscriptionStatus: SubscriptionStatus,
    subscriptionStartDate: Option<int>,
    subscriptionEndDate: Option<int>,
    createdAt: int,
    updatedAt: Option<int>)

  /** The optional `limits` block of a plan, separate from the plan's own quotas. */
  datatype PlanLimits = PlanLimits(maxUsers: int, maxReceipts: int, maxStorage: int)

  datatype Plan = Plan(
    id: string,
    name: string,
    description: string,
    price: int,
    billingCycle: BillingCycle,
    maxUsers: int,
    maxReceiptsPerMonth: int,
    features: seq<string>,
    isActive: bool,
    limits: Option<PlanLimits>)

  /** A staff member: always belongs to a company, and records which portal
      user created it. */
  datatype AppUser = AppUser(
    id: string,
    email: string,
    password: string,
    name: string,
    companyId: string,
    role: StaffRole,
    isActive: bool,
    createdBy: string,
    createdAt: int)

  datatype Receipt = Receipt(
    id: string,
    userId: string,
    companyId: string,
    imagePath: string,
    merchantName: Option<string>,
    amount: Option<int>,
    receiptDate: Option<int>,
    category: Option<string>,
    notes: Option<string>,
    status: ReceiptStatus,
    emailSentAt: Option<int>,
    createdAt: int)

  datatype BillingEntry = BillingEntry(
    id: string,
    companyId: string,
    planId: string,
    planName: string,
    amount: int,
    billingCycle: BillingCycle,
    status: BillingStatus,
    billingDate: int,
    nextBillingDate: int,
    description: string,
    createdAt: int)

  /** The string each role takes in JSON and in token payloads. */
  function PortalRoleName(r: PortalRole): string {
    match r
    case MasterAdmin => "master_admin"
    case CompanyRepresentative => "company_representative"
  }

  function StaffRoleName(r: StaffRole): string {
    match r
    case Manager => "manager"
    case Employee => "employee"
  }

  function ReceiptStatusName(s: ReceiptStatus): string {
    match s
    case Pending => "pending"
    case Processed => "processed"
    case Sent => "sent"
  }

  /** `['manager', 'employee'].includes(role)`, returning the role it names. */
  function ParseStaffRole(s: string): (r: Option<StaffRole>)
    ensures r.Some? <==> s == "manager" || s == "employee"
    ensures r.Some? ==> StaffRoleName(r.value) == s
  {
    if s == "manager" then Some(Manager)
    else if s == "employee" then Some(Employee)
    else None
  }

  /** Parsing a role's name gives the role back, and no two roles share a name. */
  lemma StaffRoleRoundTrip(r: StaffRole)
    ensures ParseStaffRole(StaffRoleName(r)) == Some(r)
  {
  }

  /** No two receipt statuses share a name, so comparing names compares statuses. */
  lemma ReceiptStatusNamesDistinct(a: ReceiptStatus, b: ReceiptStatus)
    ensures ReceiptStatusName(a) == ReceiptStatusName(b) <==> a == b
  {
  }

  /** The value of one field after `{ ...record, ...updates }`: the update's
      value when the update has the key, the record's otherwise. */
  function Pick<T>(update: Option<T>, current: T): T {
    if update.Some? then update.value else current
  }

  /** `Partial<User>`: `None` is a key the update object does not have. A
      field that is itself optional takes `Some(None)` to set it to
      `undefined` or `null`. */
  datatype UserPatch = UserPatch(
    id: Option<string>,
    email: Option<string>,
    password: Option<string>,
    name: Option<string>,
    role: Option<PortalRole>,
    companyId: Option<Option<string>>,
    isActive: Option<bool>,
    createdAt: Option<int>)

  datatype CompanyPatch = CompanyPatch(
    id: Option<string>,
    name: Option<string>,
    domain: Option<Option<string>>,
    destinationEmail: Option<string>,
    subscriptionPlanId: Option<Option<string>>,
    subscriptionStatus: Option<SubscriptionStatus>,
    subscriptionStartDate: Option<Option<int>>,
    subscriptionEndDate: Option<Option<int>>,
    createdAt: Option<int>,
    updatedAt: Option<Option<int>>)

  datatype AppUserPatch = AppUserPatch(
    id: Option<string>,
    email: Option<string>,
    password: Option<string>,
    name: Option<string>,
    companyId: Option<string>,
    role: Option<StaffRole>,
    isActive: Option<bool>,
    createdBy: Option<string>,
    createdAt: Option<int>)

  datatype ReceiptPatch = ReceiptPatch(
    id: Option<string>,
    userId: Option<string>,
    companyId: Option<string>,
    imagePath: Option<string>,
    merchantName: Option<Option<string>>,
    amount: Option<Option<int>>,
    receiptDate: Option<Option<int>>,
    category: Option<Option<string>>,
    notes: Option<Option<string>>,
    status: Option<ReceiptStatus>,
    emailSentAt: Option<Option<int>>,
    createdAt: Option<int>)

  const NoCompanyChange := CompanyPatch(None, None, None, None, None, None, None, None, None, None)
  const NoAppUserChange := AppUserPatch(None, None, None, None, None, None, None, None, None)

  /** `{ ...u, ...p }` for a portal user. */
  function MergeUser(u: User, p: UserPatch): User {
    User(Pick(p.id, u.id), Pick(p.email, u.email), Pick(p.password, u.password),
         Pick(p.name, u.name), Pick(p.role, u.role), Pick(p.companyId, u.companyId),
         Pick(p.isActive, u.isActive), Pick(p.createdAt, u.createdAt))
  }

  /** `{ ...c, ...p }` for a company. */
  function MergeCompany(c: Company, p: CompanyPatch): Company {
    Company(Pick(p.id, c.id), Pick(p.name, c.name), Pick(p.domain, c.domain),
            Pick(p.destinationEmail, c.destinationEmail),
            Pick(p.subscriptionPlanId, c.subscriptionPlanId),
            Pick(p.subscriptionStatus, c.subscriptionStatus),
            Pick(p.subscriptionStartDate, c.subscriptionStartDate),
            Pick(p.subscriptionEndDate, c.subscriptionEndDate),
            Pick(p.createdAt, c.createdAt), Pick(p.updatedAt, c.updatedAt))
  }

  /** `{ ...a, ...p }` for a staff member. */
  function MergeAppUser(a: AppUser, p: AppUserPatch): AppUser {
    AppUser(Pick(p.id, a.id), Pick(p.email, a.email), Pick(p.password, a.password),
            Pick(p.name, a.name), Pick(p.companyId, a.companyId), Pick(p.role, a.role),
            Pick(p.isActive, a.isActive), Pick(p.createdBy, a.createdBy),
            Pick(p.createdAt, a.createdAt))
  }

  /** `{ ...r, ...p }` for a receipt. */
  function MergeReceipt(r: Receipt, p: ReceiptPatch): Receipt {
    Receipt(Pick(p.id, r.id), Pick(p.userId, r.userId), Pick(p.companyId, r.companyId),
            Pick(p.imagePath, r.imagePath), Pick(p.merchantName, r.merchantName),
            Pick(p.amount, r.amount), Pick(p.receiptDate, r.receiptDate),
            Pick(p.category, r.category), Pick(p.notes, r.notes),
            Pick(p.status, r.status), Pick(p.emailSentAt, r.emailSentAt),
            Pick(p.createdAt, r.createdAt))
  }

  /** A merge with an update that has no keys leaves the company as it was, and
      merging the same update twice is the same as merging it once. */
  lemma MergeCompanyLaws(c: Company, p: CompanyPatch)
    ensures MergeCompany(c, NoCompanyChange) == c
    ensures MergeCompany(MergeCompany(c, p), p) == MergeCompany(c, p)
  {
  }

  /** The same two laws for staff members. */
  lemma MergeAppUserLaws(a: AppUser, p: AppUserPatch)
    ensures MergeAppUser(a, NoAppUserChange) == a
    ensures MergeAppUser(MergeAppUser(a, p), p) == MergeAppUser(a, p)
  {
  }
}
