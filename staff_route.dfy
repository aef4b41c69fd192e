/** `GET /api/staff` and `POST /api/staff`: listing staff, scoped by the
    caller's role, and a representative creating a staff member. */
module StaffRoute {
  import opened Base
  import opened Arrays
  import opened Types
  import opened Auth
  import opened Store
  import opened Api

  /** `GET`: after the session guards, a representative with a company sees
      that company's staff; the master administrator sees the staff of the
      company named by the `companyId` query parameter, or all staff without
      one; anyone else is refused. Records are returned as stored, passwords
      included. */
  function ListStaff(store: DataStore, token: Option<Token>, companyIdParam: Option<string>, now: int)
    : (r: Reply<seq<AppUser>>)
    reads store
    ensures !SessionOf(store, token, now).Admitted? ==>
      r == Failure(SessionGate(store, token, now).status, SessionGate(store, token, now).error)
    ensures SessionOf(store, token, now).Admitted? ==>
      var u := SessionOf(store, token, now).user;
      && (RepresentsCompany(u) ==>
            r.Success? && r.status == 200 &&
            (forall a :: a in r.body <==> a in store.appUsers && Some(a.companyId) == u.companyId) &&
            (forall a :: multiset(r.body)[a] ==
               if Some(a.companyId) == u.companyId then multiset(store.appUsers)[a] else 0) &&
            IsSubsequence(r.body, store.appUsers))
      && (u.role == MasterAdmin && Present(companyIdParam) ==>
            r.Success? && r.status == 200 &&
            (forall a :: a in r.body <==> a in store.appUsers && Some(a.companyId) == companyIdParam) &&
            (forall a :: multiset(r.body)[a] ==
               if Some(a.companyId) == companyIdParam then multiset(store.appUsers)[a] else 0) &&
            IsSubsequence(r.body, store.appUsers))
      && (u.role == MasterAdmin && !Present(companyIdParam) ==> r == Success(200, store.appUsers))
      && (u.role == CompanyRepresentative && !Present(u.companyId) ==> r == Failure(403, "Unauthorized"))
  {
    match SessionGate(store, token, now)
    case Stop(status, error) => Failure(status, error)
    case Pass(u) =>
      if RepresentsCompany(u) then Success(200, store.AppUsersByCompany(u.companyId.value))
      else if u.role == MasterAdmin then
        if Present(companyIdParam) then Success(200, store.AppUsersByCompany(companyIdParam.value))
        else Success(200, store.appUsers)
      else Failure(403, "Unauthorized")
  }

  /** The JSON body of a `POST`; a field is `None` when the body lacks it. */
  datatype StaffRequest = StaffRequest(
    email: Option<string>,
    name: Option<string>,
    role: Option<string>,
    password: Option<string>)

  predicate AllFieldsGiven(req: StaffRequest) {
    Present(req.email) && Present(req.name) && Present(req.role) && Present(req.password)
  }

  function StaffEmailIs(email: string): AppUser -> bool { (a: AppUser) => a.email == email }

  /** An email is taken when a portal user or a staff member already has it,
      compared exactly. */
  predicate EmailTaken(t: Tables, email: string) {
    Find(t.users, UserEmailIs(email)).Some? || Find(t.appUsers, StaffEmailIs(email)).Some?
  }

  /** The validation of a `POST` body, in the order the handler makes it: the
      message of the first check that fails, or `None`. Each message is
      characterised on its own: the earlier checks pass and this one fails. */
  function CreateStaffError(t: Tables, req: StaffRequest, isValidEmail: string -> bool): (e: Option<string>)
    ensures e == Some("All fields are required") <==> !AllFieldsGiven(req)
    ensures e == Some("Invalid email format") <==> AllFieldsGiven(req) && !isValidEmail(req.email.value)
    ensures e == Some("Invalid role") <==>
      AllFieldsGiven(req) && isValidEmail(req.email.value) && ParseStaffRole(req.role.value).None?
    ensures e == Some("Email already exists") <==>
      && AllFieldsGiven(req) && isValidEmail(req.email.value) && ParseStaffRole(req.role.value).Some?
      && ((exists k :: 0 <= k < |t.users| && t.users[k].email == req.email.value) ||
          (exists k :: 0 <= k < |t.appUsers| && t.appUsers[k].email == req.email.value))
    ensures e.None? <==>
      && AllFieldsGiven(req) && isValidEmail(req.email.value)
      && ParseStaffRole(req.role.value).Some? && !EmailTaken(t, req.email.value)
  {
    if !AllFieldsGiven(req) then Some("All fields are required")
    else if !isValidEmail(req.email.value) then Some("Invalid email format")
    else if ParseStaffRole(req.role.value).None? then Some("Invalid role")
    else if EmailTaken(t, req.email.value) then Some("Email already exists")
    else None
  }

  /** The record a valid request creates: the caller's company, active, created
      by the caller at `now`, with the identifier `newId`. */
  function NewStaff(req: StaffRequest, caller: User, now: int, newId: string): AppUser
    requires AllFieldsGiven(req) && ParseStaffRole(req.role.value).Some? && RepresentsCompany(caller)
  {
    AppUser(newId, req.email.value, req.password.value, req.name.value, caller.companyId.value,
            ParseStaffRole(req.role.value).value, true, caller.id, now)
  }

  /** A staff member as the `POST` response shows it: everything but the password. */
  datatype StaffView = StaffView(
    id: string,
    email: string,
    name: string,
    companyId: string,
    role: StaffRole,
    isActive: bool,
    createdBy: string,
    createdAt: int)

  function StaffWithoutPassword(a: AppUser): StaffView {
    StaffView(a.id, a.email, a.name, a.companyId, a.role, a.isActive, a.createdBy, a.createdAt)
  }

  /** `POST` at time `now`, with `isValidEmail` and the identifier `newId` the
      handler would generate: the session guards, then 403 unless the caller
      represents a company, then the body's validation; only a request that
      passes everything appends one staff member, and every failure leaves the
      store as it was. */
  method CreateStaff(store: DataStore, token: Option<Token>, req: StaffRequest, now: int,
                     isValidEmail: string -> bool, newId: string) returns (r: Reply<StaffView>)
    modifies store
    ensures r.Failure? ==> store.State() == old(store.State())
    ensures old(SessionRepresentative(store, token, now)).Stop? ==>
      r == Failure(old(SessionRepresentative(store, token, now)).status,
                   old(SessionRepresentative(store, token, now)).error)
    ensures old(SessionRepresentative(store, token, now)).Pass? &&
            old(CreateStaffError(store.State(), req, isValidEmail)).Some? ==>
      r == Failure(400, old(CreateStaffError(store.State(), req, isValidEmail)).value)
    ensures r.Success? <==>
      old(SessionRepresentative(store, token, now)).Pass? && old(CreateStaffError(store.State(), req, isValidEmail)).None?
    ensures r.Success? ==>
      var a := NewStaff(req, old(SessionRepresentative(store, token, now)).value.0, now, newId);
      && r == Success(201, StaffWithoutPassword(a))
      && store.State() == old(store.State()).(appUsers := old(store.appUsers) + [a])
  {
    var gate := SessionRepresentative(store, token, now);
    if gate.Stop? {
      return Failure(gate.status, gate.error);
    }
    var caller := gate.value.0;
    var error := CreateStaffError(store.State(), req, isValidEmail);
    if error.Some? {
      return Failure(400, error.value);
    }
    var a := NewStaff(req, caller, now, newId);
    store.AddAppUser(a);
    r := Success(201, StaffWithoutPassword(a));
  }

  /** Creating a staff member takes its email: the same request made again is
      refused with "Email already exists", and the new member is listed with
      its company's staff. */
  lemma {:induction false} CreatedStaffTakesEmail(t: Tables, req: StaffRequest, isValidEmail: string -> bool,
                                                  caller: User, now: int, newId: string)
    requires RepresentsCompany(caller)
    requires CreateStaffError(t, req, isValidEmail).None?
    ensures var a := NewStaff(req, caller, now, newId);
      var after := t.(appUsers := t.appUsers + [a]);
      && CreateStaffError(after, req, isValidEmail) == Some("Email already exists")
      && Filter(after.appUsers, AppUserInCompany(caller.companyId.value)) ==
         Filter(t.appUsers, AppUserInCompany(caller.companyId.value)) + [a]
  {
    var a := NewStaff(req, caller, now, newId);
    var after := t.(appUsers := t.appUsers + [a]);
    assert after.appUsers[|t.appUsers|].email == req.email.value;
    ListingAfterAddAppUser(t.appUsers, a, caller.companyId.value);
  }
}
