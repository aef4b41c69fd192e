/** `GET /api/company/settings` and `PUT /api/company/settings`: a
    representative reading its company with plan and staff counts, and
    updating the company's name, destination email and domain. */
module SettingsRoute {
  import opened Base
  import opened Arrays
  import opened Types
  import opened Auth
  import opened Store
  import opened Api

  /** The `usage` block of the `GET` response and the company and plan beside it. */
  datatype SettingsView = SettingsView(
    company: Company,
    subscriptionPlan: Option<Plan>,
    staffCount: nat,
    activeStaffCount: nat,
    receiptsThisMonth: int,
    maxUsers: int,
    maxReceipts: int)

  /** The fixed receipt count the `GET` handler reports. */
  const MockReceiptsThisMonth := 156

  /** `GET` at time `now`: the session guards, 403 unless the caller represents
      a company, 404 when that company is missing; then the company, its plan
      (none without a plan id) and its staff counts, with quotas of 0 when
      there is no plan. */
  function Settings(store: DataStore, token: Option<Token>, now: int): (r: Reply<SettingsView>)
    reads store
    ensures SessionRepresentative(store, token, now).Stop? ==>
      r == Failure(SessionRepresentative(store, token, now).status, SessionRepresentative(store, token, now).error)
    ensures SessionRepresentative(store, token, now).Pass? ==>
      var cid := SessionRepresentative(store, token, now).value.1;
      && (store.CompanyById(cid).None? ==> r == Failure(404, "Company not found"))
      && (store.CompanyById(cid).Some? ==>
            && r.Success? && r.status == 200
            && r.body.company == store.CompanyById(cid).value
            && r.body.subscriptionPlan == CurrentPlan(store, store.CompanyById(cid))
            && r.body.staffCount == |store.AppUsersByCompany(cid)|
            && r.body.activeStaffCount == Count(store.appUsers, Both(AppUserInCompany(cid), StaffIsActive()))
            && r.body.activeStaffCount <= r.body.staffCount
            && r.body.receiptsThisMonth == MockReceiptsThisMonth
            && (r.body.subscriptionPlan.None? ==> r.body.maxUsers == 0 && r.body.maxReceipts == 0)
            && (r.body.subscriptionPlan.Some? ==>
                  r.body.maxUsers == r.body.subscriptionPlan.value.maxUsers &&
                  r.body.maxReceipts == r.body.subscriptionPlan.value.maxReceiptsPerMonth))
  {
    match SessionRepresentative(store, token, now)
    case Stop(status, error) => Failure(status, error)
    case Pass((_, cid)) =>
      match store.CompanyById(cid)
      case None => Failure(404, "Company not found")
      case Some(company) =>
        var plan := CurrentPlan(store, Some(company));
        var staff := store.AppUsersByCompany(cid);
        FilterFilter(store.appUsers, AppUserInCompany(cid), StaffIsActive());
        Success(200, SettingsView(
          company, plan, |staff|, Count(staff, StaffIsActive()), MockReceiptsThisMonth,
          if plan.Some? then plan.value.maxUsers else 0,
          if plan.Some? then plan.value.maxReceiptsPerMonth else 0))
  }

  /** The `domain` key of a `PUT` body: absent, `null`, or a string. */
  datatype DomainInput = Omitted | NullValue | Given(text: string)

  /** The JSON body of a `PUT`; a string field is `None` when the body lacks it. */
  datatype SettingsRequest = SettingsRequest(
    name: Option<string>,
    destinationEmail: Option<string>,
    domain: DomainInput)

  /** The validation of a `PUT` body: the destination email is checked before
      the name, and the name must keep a `.length` of at least two once trimmed. */
  function SettingsError(req: SettingsRequest, isValidEmail: string -> bool): (e: Option<string>)
    ensures e == Some("Valid destination email is required") <==>
      !Present(req.destinationEmail) || !isValidEmail(req.destinationEmail.value)
    ensures e == Some("Company name must be at least 2 characters") <==>
      && Present(req.destinationEmail) && isValidEmail(req.destinationEmail.value)
      && (!Present(req.name) || Utf16Length(Trim(req.name.value)) < 2)
    ensures e.None? <==>
      && Present(req.destinationEmail) && isValidEmail(req.destinationEmail.value)
      && Present(req.name) && Utf16Length(Trim(req.name.value)) >= 2
  {
    if !Present(req.destinationEmail) || !isValidEmail(req.destinationEmail.value) then
      Some("Valid destination email is required")
    else if !Present(req.name) || Utf16Length(Trim(req.name.value)) < 2 then
      Some("Company name must be at least 2 characters")
    else None
  }

  /** `domain?.trim() || null` when the key is present: `None` for `null` and
      for text that trims to nothing. */
  function DomainUpdate(d: DomainInput): (u: Option<Option<string>>)
    ensures d == Omitted <==> u.None?
    ensures d == NullValue ==> u == Some(None)
    ensures d.Given? && u.value.Some? ==> u.value.value == Trim(d.text)
  {
    match d
    case Omitted => None
    case NullValue => Some(None)
    case Given(text) =>
      var t := Trim(text);
      if t == [] then Some(None) else Some(Some(t))
  }

  /** A given domain is cleared exactly when it is blank, and a stored domain
      starts and ends with a non-space. */
  lemma {:induction false} DomainUpdateClean(text: string)
    ensures DomainUpdate(Given(text)) == Some(None) <==> AllSpace(text)
    ensures DomainUpdate(Given(text)).value.Some? ==>
      var t := DomainUpdate(Given(text)).value.value;
      t != [] && !IsSpace(t[0]) && !IsSpace(t[|t| - 1])
  {
    var t := Trim(text);
    assert DomainUpdate(Given(text)) == if t == [] then Some(None) else Some(Some(t));
    TrimEmptyIffBlank(text);
  }

  /** The update object the handler builds from a valid body at time `now`. */
  function SettingsPatch(req: SettingsRequest, now: int): CompanyPatch
    requires Present(req.name) && Present(req.destinationEmail)
  {
    NoCompanyChange.(name := Some(Trim(req.name.value)),
                     destinationEmail := Some(Lower(req.destinationEmail.value)),
                     updatedAt := Some(Some(now)),
                     domain := DomainUpdate(req.domain))
  }

  /** The update touches the name, the destination email, `updatedAt` and, when
      the body has the key, the domain; the identity, subscription and creation
      date of the company are kept. */
  lemma SettingsPatchKeeps(c: Company, req: SettingsRequest, now: int)
    requires Present(req.name) && Present(req.destinationEmail)
    ensures var after := MergeCompany(c, SettingsPatch(req, now));
      && after.id == c.id
      && after.subscriptionPlanId == c.subscriptionPlanId
      && after.subscriptionStatus == c.subscriptionStatus
      && after.subscriptionStartDate == c.subscriptionStartDate
      && after.subscriptionEndDate == c.subscriptionEndDate
      && after.createdAt == c.createdAt
      && after.updatedAt == Some(now)
      && (req.domain == Omitted ==> after.domain == c.domain)
  {
  }

  /** A name stored from a valid body has a `.length` of at least two and is its
      own trim; a stored email is its own lower case. */
  lemma {:induction false} SettingsPatchNormalises(c: Company, req: SettingsRequest, now: int,
                                                   isValidEmail: string -> bool)
    requires SettingsError(req, isValidEmail).None?
    ensures var after := MergeCompany(c, SettingsPatch(req, now));
      && Utf16Length(after.name) >= 2 && Trim(after.name) == after.name
      && Lower(after.destinationEmail) == after.destinationEmail
  {
    TrimIdempotent(req.name.value);
    LowerIdempotent(req.destinationEmail.value);
  }

  /** `PUT` at time `now`: the guards of `GET`, then the body's validation; a
      valid body merges the update into the caller's company and returns the
      company as stored, and every failure leaves the store as it was. */
  method UpdateSettings(store: DataStore, token: Option<Token>, req: SettingsRequest, now: int,
                        isValidEmail: string -> bool) returns (r: Reply<Company>)
    modifies store
    ensures r.Failure? ==> store.State() == old(store.State())
    ensures old(SessionRepresentative(store, token, now)).Stop? ==>
      r == Failure(old(SessionRepresentative(store, token, now)).status,
                   old(SessionRepresentative(store, token, now)).error)
    ensures old(SessionRepresentative(store, token, now)).Pass? ==>
      var cid := old(SessionRepresentative(store, token, now)).value.1;
      && (old(store.CompanyById(cid)).None? ==> r == Failure(404, "Company not found"))
      && (old(store.CompanyById(cid)).Some? && SettingsError(req, isValidEmail).Some? ==>
            r == Failure(400, SettingsError(req, isValidEmail).value))
      && (old(store.CompanyById(cid)).Some? && SettingsError(req, isValidEmail).None? ==>
            && r.Success? && r.status == 200
            && store.State() == old(store.State()).(companies :=
                 UpdateFirst(old(store.companies), CompanyIdIs(cid), MergeCompanyWith(SettingsPatch(req, now))))
            && r.body == MergeCompany(old(store.CompanyById(cid)).value, SettingsPatch(req, now))
            && store.CompanyById(cid) == Some(r.body))
  {
    var gate := SessionRepresentative(store, token, now);
    if gate.Stop? {
      return Failure(gate.status, gate.error);
    }
    var cid := gate.value.1;
    var company := store.CompanyById(cid);
    if company.None? {
      return Failure(404, "Company not found");
    }
    var error := SettingsError(req, isValidEmail);
    if error.Some? {
      return Failure(400, error.value);
    }
    ghost var before := store.companies;
    store.UpdateCompany(cid, SettingsPatch(req, now));
    CompanyFoundAfterUpdate(before, cid, SettingsPatch(req, now));
    var updated := store.CompanyById(cid);
    r := Success(200, updated.value);
  }
}
