/** `POST /api/register`: self-service sign-up, which creates a company on a
    30-day trial, its representative, and a zero-amount billing entry, and
    signs the representative in. */
module RegisterRoute {
  import opened Base
  import opened Arrays
  import opened Types
  import opened Auth
  import opened Store
  import opened Api

  /** The JSON body; a field is `None` when the body lacks it. */
  datatype RegisterRequest = RegisterRequest(
    companyName: Option<string>,
    companyDomain: Option<string>,
    destinationEmail: Option<string>,
    representativeName: Option<string>,
    representativeEmail: Option<string>,
    representativePassword: Option<string>,
    selectedPlanId: Option<string>)

  /** The six required fields are present and not empty; the domain is optional. */
  predicate RequiredGiven(req: RegisterRequest) {
    && Present(req.companyName) && Present(req.destinationEmail)
    && Present(req.representativeName) && Present(req.representativeEmail)
    && Present(req.representativePassword) && Present(req.selectedPlanId)
  }

  /** The checks the handler makes before touching the store, in its order:
      the required fields, then an existing portal user with the same email
      (staff emails are not consulted), then the plan id. The plan's
      `isActive` flag is not consulted. */
  function RegisterError(t: Tables, req: RegisterRequest): (e: Option<string>)
    ensures e == Some("All required fields must be provided") <==> !RequiredGiven(req)
    ensures e == Some("A user with this email already exists") <==>
      RequiredGiven(req) && exists k :: 0 <= k < |t.users| && t.users[k].email == req.representativeEmail.value
    ensures e == Some("Invalid subscription plan selected") <==>
      && RequiredGiven(req)
      && (forall k :: 0 <= k < |t.users| ==> t.users[k].email != req.representativeEmail.value)
      && (forall k :: 0 <= k < |t.plans| ==> t.plans[k].id != req.selectedPlanId.value)
    ensures e.None? <==>
      && RequiredGiven(req)
      && Find(t.users, UserEmailIs(req.representativeEmail.value)).None?
      && Find(t.plans, PlanIdIs(req.selectedPlanId.value)).Some?
  {
    if !RequiredGiven(req) then Some("All required fields must be provided")
    else if Find(t.users, UserEmailIs(req.representativeEmail.value)).Some? then
      Some("A user with this email already exists")
    else if Find(t.plans, PlanIdIs(req.selectedPlanId.value)).None? then
      Some("Invalid subscription plan selected")
    else None
  }

  /** The length of the trial, in days. */
  const TrialDays := 30

  /** The company a valid request creates at time `now`. */
  function NewCompany(req: RegisterRequest, now: int, cal: Calendar): Company
    requires RequiredGiven(req)
  {
    Company("company_" + IntToDecimal(now), req.companyName.value, req.companyDomain,
            req.destinationEmail.value, req.selectedPlanId, Trial,
            Some(now), Some(cal.addDays(now, TrialDays)), now, None)
  }

  /** The representative a valid request creates at time `now`. */
  function NewRepresentative(req: RegisterRequest, now: int): User
    requires RequiredGiven(req)
  {
    User("user_" + IntToDecimal(now), req.representativeEmail.value, req.representativePassword.value,
         req.representativeName.value, CompanyRepresentative, Some("company_" + IntToDecimal(now)), true, now)
  }

  /** The trial billing entry a valid request creates at time `now`. */
  function TrialEntry(req: RegisterRequest, plan: Plan, now: int, cal: Calendar): BillingEntry
    requires RequiredGiven(req)
  {
    BillingEntry("bill_" + IntToDecimal(now), "company_" + IntToDecimal(now), req.selectedPlanId.value,
                 plan.name, 0, plan.billingCycle, Paid, now, cal.addDays(now, TrialDays),
                 "30-day trial for " + plan.name + " plan", now)
  }

  /** The three new records agree with each other: the representative is an
      active representative of the new company; the company is on a trial of
      the selected plan that ends 30 days after it starts; the entry charges
      nothing, is paid, names the plan and is next due when the trial ends. */
  lemma NewRecordsAgree(req: RegisterRequest, plan: Plan, now: int, cal: Calendar)
    requires RequiredGiven(req)
    ensures var c := NewCompany(req, now, cal);
      var u := NewRepresentative(req, now);
      var b := TrialEntry(req, plan, now, cal);
      && u.companyId == Some(c.id) && u.role == CompanyRepresentative && u.isActive
      && u.email == req.representativeEmail.value
      && c.subscriptionStatus == Trial && c.subscriptionPlanId == req.selectedPlanId
      && c.subscriptionStartDate == Some(now)
      && c.subscriptionEndDate == Some(cal.addDays(c.subscriptionStartDate.value, TrialDays))
      && b.companyId == c.id && Some(b.planId) == c.subscriptionPlanId && b.planName == plan.name
      && b.amount == 0 && b.status == Paid && Some(b.nextBillingDate) == c.subscriptionEndDate
  {
  }

  /** The representative as the response shows it. */
  datatype RegisteredUser = RegisteredUser(
    id: string, email: string, name: string, role: PortalRole, companyId: Option<string>)

  /** The company as the response shows it. */
  datatype RegisteredCompany = RegisteredCompany(
    id: string, name: string, destinationEmail: string, subscriptionStatus: SubscriptionStatus)

  datatype RegisterResult = RegisterResult(
    message: string,
    user: RegisteredUser,
    company: RegisteredCompany,
    token: Token,
    planName: string,
    trialEndDate: int)

  /** The tables after a valid request: the company, the representative and
      the trial entry appended. */
  function Registered(t: Tables, req: RegisterRequest, now: int, cal: Calendar): Tables
    requires RegisterError(t, req).None?
  {
    var plan := Find(t.plans, PlanIdIs(req.selectedPlanId.value)).value;
    t.(companies := t.companies + [NewCompany(req, now, cal)],
       users := t.users + [NewRepresentative(req, now)],
       billingHistory := t.billingHistory + [TrialEntry(req, plan, now, cal)])
  }

  /** The answer to a valid request. The token is generated only after the
      three records are stored, so when `btoa` refuses the new user's email
      the answer is a 500 with the records already in place. */
  function RegisteredReply(t: Tables, req: RegisterRequest, now: int, cal: Calendar): Reply<RegisterResult>
    requires RegisterError(t, req).None?
  {
    var plan := Find(t.plans, PlanIdIs(req.selectedPlanId.value)).value;
    var c := NewCompany(req, now, cal);
    var u := NewRepresentative(req, now);
    match GenerateToken(u, now)
    case None => Failure(500, "Internal server error during registration")
    case Some(token) =>
      Success(200, RegisterResult(
        "Company registration successful",
        RegisteredUser(u.id, u.email, u.name, u.role, u.companyId),
        RegisteredCompany(c.id, c.name, c.destinationEmail, c.subscriptionStatus),
        token, plan.name, c.subscriptionEndDate.value))
  }

  /** What the handler answers and what the store holds afterwards, given
      the store's tables before the call. */
  function Registration(t: Tables, req: RegisterRequest, now: int, cal: Calendar): (Reply<RegisterResult>, Tables)
  {
    match RegisterError(t, req)
    case Some(e) => (Failure(400, e), t)
    case None => (RegisteredReply(t, req, now, cal), Registered(t, req, now, cal))
  }

  /** Every check comes before any change: a 400 comes exactly when a check
      fails, with that check's message, and leaves the tables as they were. */
  lemma RegistrationRefused(t: Tables, req: RegisterRequest, now: int, cal: Calendar)
    ensures var (r, after) := Registration(t, req, now, cal);
      && (r.Failure? && r.status == 400 <==> RegisterError(t, req).Some?)
      && (RegisterError(t, req).Some? ==> r == Failure(400, RegisterError(t, req).value) && after == t)
  {
  }

  /** A valid request appends exactly one company, one user and one billing
      entry for the chosen plan, whatever the reply turns out to be. */
  lemma RegistrationStores(t: Tables, req: RegisterRequest, now: int, cal: Calendar)
    requires RegisterError(t, req).None?
    ensures var after := Registration(t, req, now, cal).1;
      && after.plans == t.plans && after.appUsers == t.appUsers && after.receipts == t.receipts
      && after.users == t.users + [NewRepresentative(req, now)]
      && after.companies == t.companies + [NewCompany(req, now, cal)]
      && |after.billingHistory| == |t.billingHistory| + 1
      && after.billingHistory[..|t.billingHistory|] == t.billingHistory
      && var b := after.billingHistory[|t.billingHistory|];
         && Find(t.plans, PlanIdIs(b.planId)).Some?
         && b == TrialEntry(req, Find(t.plans, PlanIdIs(b.planId)).value, now, cal)
  {
    var after := Registered(t, req, now, cal);
    var plan := Find(t.plans, PlanIdIs(req.selectedPlanId.value)).value;
    var b := TrialEntry(req, plan, now, cal);
    assert after.billingHistory == t.billingHistory + [b];
    assert after.billingHistory[..|t.billingHistory|] == t.billingHistory;
  }

  /** After a valid request the handler answers with the new records and a
      token for the new user exactly when the email can be encoded into a
      token, and with a 500 otherwise (the records stay stored). */
  lemma RegistrationOutcome(t: Tables, req: RegisterRequest, now: int, cal: Calendar)
    requires RegisterError(t, req).None?
    ensures var r := Registration(t, req, now, cal).0;
      var u := NewRepresentative(req, now);
      var c := NewCompany(req, now, cal);
      && (r.Success? <==> Latin1(req.representativeEmail.value))
      && (r.Failure? ==> r == Failure(500, "Internal server error during registration"))
      && (r.Success? ==>
            && r.status == 200
            && r.body.user == RegisteredUser(u.id, u.email, u.name, u.role, u.companyId)
            && r.body.company == RegisteredCompany(c.id, c.name, c.destinationEmail, c.subscriptionStatus)
            && Some(r.body.token) == GenerateToken(u, now)
            && r.body.planName == Find(t.plans, PlanIdIs(req.selectedPlanId.value)).value.name
            && r.body.trialEndDate == c.subscriptionEndDate.value)
  {
    NewIdIsLatin1(now);
  }

  /** The generated user id is plain ASCII, so it never stops the token. */
  lemma NewIdIsLatin1(now: int)
    ensures Latin1("user_" + IntToDecimal(now))
  {
    DecimalIsLatin1(now);
    var id := "user_" + IntToDecimal(now);
    forall k | 0 <= k < |id| ensures id[k] as int <= 0xFF {
      if k >= 5 {
        assert id[k] == IntToDecimal(now)[k - 5];
      }
    }
  }

  /** The token of a successful registration admits the new representative,
      provided no existing user already had its id. */
  lemma RegisteredUserSignedIn(store: DataStore, t: Tables, req: RegisterRequest, now: int, cal: Calendar)
    requires RegisterError(t, req).None?
    requires Registration(t, req, now, cal).0.Success?
    requires forall k :: 0 <= k < |t.users| ==> t.users[k].id != NewRepresentative(req, now).id
    requires store.State() == Registration(t, req, now, cal).1
    ensures SessionOf(store, Some(Registration(t, req, now, cal).0.body.token), now) == Admitted(NewRepresentative(req, now))
  {
    var u := NewRepresentative(req, now);
    RegistrationStores(t, req, now, cal);
    assert store.users == t.users + [u];
    UserFoundAfterAppend(t.users, u);
    assert store.UserById(u.id) == Some(u);
  }

  /** The handler at time `now`, with `cal` for calendar arithmetic: the reply
      and the new state are those of `Registration`, and the reply's token
      admits the new user. */
  method Register(store: DataStore, req: RegisterRequest, now: int, cal: Calendar) returns (r: Reply<RegisterResult>)
    modifies store
    ensures (r, store.State()) == Registration(old(store.State()), req, now, cal)
    ensures r.Success? && (forall k :: 0 <= k < |old(store.users)| ==> old(store.users)[k].id != NewRepresentative(req, now).id) ==>
      SessionOf(store, Some(r.body.token), now) == Admitted(NewRepresentative(req, now))
  {
    ghost var t0 := store.State();
    var error := RegisterError(store.State(), req);
    if error.Some? {
      return Failure(400, error.value);
    }
    var plan := store.PlanById(req.selectedPlanId.value).value;
    var c := NewCompany(req, now, cal);
    var u := NewRepresentative(req, now);
    store.AddCompany(c);
    store.AddUser(u);
    var b := TrialEntry(req, plan, now, cal);
    store.AddBillingHistory(b);
    var token := GenerateToken(u, now);
    if token.None? {
      r := Failure(500, "Internal server error during registration");
      assert (r, store.State()) == Registration(t0, req, now, cal);
      return;
    }
    r := Success(200, RegisterResult(
      "Company registration successful",
      RegisteredUser(u.id, u.email, u.name, u.role, u.companyId),
      RegisteredCompany(c.id, c.name, c.destinationEmail, c.subscriptionStatus),
      token.value, plan.name, c.subscriptionEndDate.value));
    assert (r, store.State()) == Registration(t0, req, now, cal);
    if forall k :: 0 <= k < |t0.users| ==> t0.users[k].id != u.id {
      RegisteredUserSignedIn(store, t0, req, now, cal);
    }
  }

  /** A user appended under an id nobody had is the one found by that id. */
  lemma UserFoundAfterAppend(users: seq<User>, u: User)
    ensures (forall k :: 0 <= k < |users| ==> users[k].id != u.id) ==> Find(users + [u], UserIdIs(u.id)) == Some(u)
  {
    assert UserIdIs(u.id)((users + [u])[|users|]);
  }

  /** Registering takes the representative's email: the same request made
      again is refused. */
  lemma {:induction false} RegistrationTakesEmail(t: Tables, req: RegisterRequest, now: int, cal: Calendar)
    requires RegisterError(t, req).None?
    ensures var after := Registration(t, req, now, cal).1;
      RegisterError(after, req) == Some("A user with this email already exists")
  {
    var users := t.users + [NewRepresentative(req, now)];
    assert Registration(t, req, now, cal).1.users == users;
    assert users[|t.users|].email == req.representativeEmail.value;
  }
}
