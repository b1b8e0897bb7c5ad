/** The client's authentication store: the signed-in user and the session
    token, with the two predicates the pages consult. */
module AuthStore {
  import opened Common

  datatype Role = USER | ADMIN

  datatype User = User(
    id: string, name: string, email: string, role: Role,
    phone: Option<string>, address: Option<string>, city: Option<string>, pincode: Option<string>)

  datatype AuthState = AuthState(user: Option<User>, token: Option<string>)

  const Initial: AuthState := AuthState(None, None)

  /** `isAuthenticated()` is `!!token`: a present, non-empty token. */
  predicate IsAuthenticated(s: AuthState) {
    s.token.Some? && s.token.value != ""
  }

  /** `isAdmin()` is `user?.role === 'ADMIN'`; the token plays no part. */
  predicate IsAdmin(s: AuthState) {
    s.user.Some? && s.user.value.role == ADMIN
  }

  /** `login(user, token)` installs both; the session counts as
      authenticated exactly when the token is non-empty. */
  function Login(s: AuthState, u: User, t: string): (r: AuthState)
    ensures r == AuthState(Some(u), Some(t))
    ensures IsAuthenticated(r) <==> t != ""
    ensures IsAdmin(r) <==> u.role == ADMIN
  {
    AuthState(Some(u), Some(t))
  }

  /** `updateUser(user)` replaces the user and keeps the token, so it never
      changes whether the session is authenticated. */
  function UpdateUser(s: AuthState, u: User): (r: AuthState)
    ensures r.user == Some(u) && r.token == s.token
    ensures IsAuthenticated(r) == IsAuthenticated(s)
    ensures IsAdmin(r) <==> u.role == ADMIN
  {
    s.(user := Some(u))
  }

  /** `logout()` clears both fields: nobody is authenticated or admin after. */
  function Logout(s: AuthState): (r: AuthState)
    ensures r == Initial
    ensures !IsAuthenticated(r) && !IsAdmin(r)
  {
    AuthState(None, None)
  }

  /** A session is the last login's: logging in again replaces both user and
      token whatever came before, a profile update after login keeps the
      login's token, and logging out afterwards forgets it all. */
  lemma LoginSession(s: AuthState, u: User, t: string, u2: User)
    ensures Login(Login(s, u2, "x"), u, t) == Login(s, u, t)
    ensures UpdateUser(Login(s, u, t), u2).token == Some(t)
    ensures IsAuthenticated(UpdateUser(Login(s, u, t), u2)) <==> t != ""
    ensures Logout(Login(s, u, t)) == Initial
  {
  }

  /** Admin status depends on the user alone: any token, or none, gives the
      same answer. */
  lemma IsAdminIgnoresToken(s: AuthState, t: Option<string>)
    ensures IsAdmin(s.(token := t)) == IsAdmin(s)
  {
  }
}
