/** `GET /api/auth/me`: the user a session token names, without its password. */
module MeRoute {
  import opened Base
  import opened Types
  import opened Auth
  import opened Store
  import opened Api

  /** A portal user as the route returns it: every field but `password`. */
  datatype UserView = UserView(
    id: string,
    email: string,
    name: string,
    role: PortalRole,
    companyId: Option<string>,
    isActive: bool,
    createdAt: int)

  /** `const { password: _, ...rest } = user`. */
  function WithoutPassword(u: User): UserView {
    UserView(u.id, u.email, u.name, u.role, u.companyId, u.isActive, u.createdAt)
  }

  /** Putting a password back into a view. */
  function WithPassword(v: UserView, password: string): User {
    User(v.id, v.email, password, v.name, v.role, v.companyId, v.isActive, v.createdAt)
  }

  /** The view loses exactly the password: the view and the password together
      give the user back, and users differing only in their password have the
      same view. */
  lemma ViewLosesOnlyPassword(u: User, other: string)
    ensures WithPassword(WithoutPassword(u), u.password) == u
    ensures WithoutPassword(u.(password := other)) == WithoutPassword(u)
  {
  }

  /** The handler at time `now`: 401 without a token or with an invalid or
      expired one, 404 for an unknown or inactive user, and otherwise that
      user's view. */
  function Me(store: DataStore, token: Option<Token>, now: int): (r: Reply<UserView>)
    reads store
    ensures NoToken(token) ==> r == Failure(401, "No token provided")
    ensures !NoToken(token) && ValidateToken(token.value, now).None? ==>
      r == Failure(401, "Invalid or expired token")
    ensures r.Failure? <==> !SessionOf(store, token, now).Admitted?
    ensures r.Failure? && r.status == 404 <==> SessionOf(store, token, now) == UnknownUser
    ensures r.Failure? && r.status == 404 ==> r.error == "User not found or inactive"
    ensures r.Success? ==>
      && r.status == 200
      && r.body == WithoutPassword(SessionOf(store, token, now).user)
  {
    match SessionOf(store, token, now)
    case MissingToken => Failure(401, "No token provided")
    case InvalidToken => Failure(401, "Invalid or expired token")
    case UnknownUser => Failure(404, "User not found or inactive")
    case Admitted(u) => Success(200, WithoutPassword(u))
  }
}
