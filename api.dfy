/** What the route handlers share: the reply shape (status code and either a
    body or an error message) and the guard chains they run before doing any
    work. Two chains exist. One validates the token with the session service,
    then looks the user up and requires it to be active. The other trusts the
    `verifyToken` helper's claims, requires the representative role, and
    requires the user to exist and to have a company. */
module Api {
  import opened Base
  import opened Types
  import opened Auth
  import opened Store

  /** A response: `NextResponse.json(body, { status })`. */
  datatype Reply<T> = Success(status: int, body: T) | Failure(status: int, error: string)

  /** The result of a guard: go on with a value, or stop with this response. */
  datatype Gate<T> = Pass(value: T) | Stop(status: int, error: string)

  /** `!token`: no `Authorization` header, or nothing left of it once
      `"Bearer "` is removed. */
  predicate NoToken(token: Option<Token>) {
    token.None? || token.value == Opaque("")
  }

  /** The outcome of the first chain, before messages are attached. */
  datatype Session = MissingToken | InvalidToken | UnknownUser | Admitted(user: User)

  /** No token, then an invalid or expired token, then an unknown or inactive
      user; otherwise the user the token names. */
  function SessionOf(store: DataStore, token: Option<Token>, now: int): (s: Session)
    reads store
    ensures s == MissingToken <==> NoToken(token)
    ensures s == InvalidToken <==> !NoToken(token) && ValidateToken(token.value, now).None?
    ensures s == UnknownUser <==>
      && !NoToken(token)
      && ValidateToken(token.value, now).Some?
      && var id := ValidateToken(token.value, now).value.userId;
         id.None? || store.UserById(id.value).None? || !store.UserById(id.value).value.isActive
    ensures s.Admitted? ==>
      && !NoToken(token)
      && ValidateToken(token.value, now).Some?
      && ValidateToken(token.value, now).value.userId == Some(s.user.id)
      && s.user.isActive
      && store.UserById(s.user.id) == Some(s.user)
  {
    if NoToken(token) then MissingToken
    else
      match ValidateToken(token.value, now)
      case None => InvalidToken
      case Some(p) =>
        if p.userId.None? then UnknownUser
        else
          match store.UserById(p.userId.value)
          case None => UnknownUser
          case Some(u) => if u.isActive then Admitted(u) else UnknownUser
  }

  /** The first chain with the messages most routes use. */
  function SessionGate(store: DataStore, token: Option<Token>, now: int): (g: Gate<User>)
    reads store
    ensures g.Pass? <==> SessionOf(store, token, now).Admitted?
    ensures g.Pass? ==> g.value == SessionOf(store, token, now).user
    ensures g.Stop? ==> g.status == (if SessionOf(store, token, now) == UnknownUser then 404 else 401)
  {
    match SessionOf(store, token, now)
    case MissingToken => Stop(401, "No token provided")
    case InvalidToken => Stop(401, "Invalid token")
    case UnknownUser => Stop(404, "User not found")
    case Admitted(u) => Pass(u)
  }

  /** The role test the representative-only handlers of the first chain make. */
  predicate RepresentsCompany(u: User) {
    u.role == CompanyRepresentative && Present(u.companyId)
  }

  /** The first chain followed by that role test, which answers 403; on
      success, the caller and its company id. */
  function SessionRepresentative(store: DataStore, token: Option<Token>, now: int): (g: Gate<(User, string)>)
    reads store
    ensures !SessionOf(store, token, now).Admitted? ==>
      g == Stop(SessionGate(store, token, now).status, SessionGate(store, token, now).error)
    ensures SessionOf(store, token, now).Admitted? && !RepresentsCompany(SessionOf(store, token, now).user) ==>
      g == Stop(403, "Unauthorized")
    ensures g.Pass? <==> SessionOf(store, token, now).Admitted? && RepresentsCompany(SessionOf(store, token, now).user)
    ensures g.Pass? ==>
      g.value.0 == SessionOf(store, token, now).user && g.value.0.companyId == Some(g.value.1)
  {
    match SessionGate(store, token, now)
    case Stop(status, error) => Stop(status, error)
    case Pass(u) => if RepresentsCompany(u) then Pass((u, u.companyId.value)) else Stop(403, "Unauthorized")
  }

  /** The token check of the second chain: no token is 401, and claims that
      are missing or not a representative's are 403. */
  function RepresentativeClaims(token: Option<Token>, verify: Token -> Option<Claims>): (g: Gate<Claims>)
    ensures g == Stop(401, "Unauthorized") <==> NoToken(token)
    ensures g == Stop(403, "Forbidden") <==>
      !NoToken(token) && (verify(token.value).None? || verify(token.value).value.role != "company_representative")
    ensures g.Pass? <==>
      !NoToken(token) && verify(token.value).Some? && verify(token.value).value.role == "company_representative"
    ensures g.Pass? ==> verify(token.value) == Some(g.value)
  {
    if NoToken(token) then Stop(401, "Unauthorized")
    else
      match verify(token.value)
      case None => Stop(403, "Forbidden")
      case Some(c) => if c.role != "company_representative" then Stop(403, "Forbidden") else Pass(c)
  }

  /** The four handlers of the second chain as they stand: they import
      `verifyToken` from the auth module, which exports no such function, so
      the call throws inside the handler's `try`. Only a request without a
      token gets past it, with its 401; every other request is answered 500. */
  function RepresentativeRouteAsWritten<T>(token: Option<Token>): (r: Reply<T>)
    ensures r.Failure?
    ensures r.status == 401 <==> NoToken(token)
    ensures !NoToken(token) ==> r == Failure(500, "Internal server error")
  {
    if NoToken(token) then Failure(401, "Unauthorized") else Failure(500, "Internal server error")
  }

  /** The verifier the handlers evidently expect: the session service's
      token validation, giving the claimed user id and role. */
  function SessionVerifier(now: int): Token -> Option<Claims> {
    (t: Token) =>
      var v := ValidateToken(t, now);
      if v.Some? && v.value.userId.Some? && v.value.role.Some?
      then Some(Claims(v.value.userId.value, v.value.role.value))
      else None
  }

  /** A representative's fresh session token is refused with a 500 by the
      handlers as they stand, and passes the token check of the second chain
      once `verify` is the session service's validation. */
  lemma MissingVerifierRefusesSessions<T>(u: User, issued: int, now: int)
    requires u.role == CompanyRepresentative && Latin1(u.id) && Latin1(u.email)
    requires now - issued <= TokenLifetime
    ensures var token := Some(GenerateToken(u, issued).value);
      && RepresentativeRouteAsWritten<T>(token) == Failure(500, "Internal server error")
      && RepresentativeClaims(token, SessionVerifier(now)) == Pass(Claims(u.id, "company_representative"))
  {
    TokenRoundTrip(u, issued, now);
  }

  /** With the session service's validation as `verify`, any recent payload
      that names a user and the representative role passes the token check:
      nothing proves where the token came from. */
  lemma UnsignedTokensReachRepresentativeRoutes(p: Payload, now: int)
    requires p.userId.Some? && p.role == Some("company_representative")
    requires p.timestamp.None? || now - p.timestamp.value <= TokenLifetime
    ensures RepresentativeClaims(Some(Encode(p)), SessionVerifier(now)) ==
      Pass(Claims(p.userId.value, "company_representative"))
  {
    UnsignedTokensAccepted(p, now);
  }

  /** The user lookup of the second chain: the user must exist and have a
      company id; whether it is active is not checked. */
  function CallerCompany(store: DataStore, userId: string): (g: Gate<(User, string)>)
    reads store
    ensures g.Stop? ==> g == Stop(404, "User or company not found")
    ensures g.Pass? <==> store.UserById(userId).Some? && Present(store.UserById(userId).value.companyId)
    ensures g.Pass? ==> Some(g.value.0) == store.UserById(userId) && g.value.0.companyId == Some(g.value.1)
  {
    match store.UserById(userId)
    case None => Stop(404, "User or company not found")
    case Some(u) =>
      if !Present(u.companyId) then Stop(404, "User or company not found") else Pass((u, u.companyId.value))
  }

  /** The plan a company refers to: none when it has no plan id, and also
      none when the id names no plan. */
  function CurrentPlan(store: DataStore, company: Option<Company>): (p: Option<Plan>)
    reads store
    ensures (company.None? || !Present(company.value.subscriptionPlanId)) ==> p.None?
    ensures p.Some? ==> p.value in store.plans && Some(p.value.id) == company.value.subscriptionPlanId
    ensures company.Some? && Present(company.value.subscriptionPlanId) ==>
      && (p.None? <==> forall k :: 0 <= k < |store.plans| ==> store.plans[k].id != company.value.subscriptionPlanId.value)
      && p == store.PlanById(company.value.subscriptionPlanId.value)
  {
    if company.Some? && Present(company.value.subscriptionPlanId)
    then store.PlanById(company.value.subscriptionPlanId.value)
    else None
  }
}
