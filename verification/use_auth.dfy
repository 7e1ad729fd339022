/**
 * The `useAuth` hook (src/hooks/useAuth.ts): login with its guard, storage
 * writes and loading flag, and a logout that always clears the store.
 */
module UseAuth {
  import opened Options
  import opened Domain
  import Storage
  import AuthStore
  import AuthService

  /** What a call to `login` leaves behind: the session, the loading flag, the rethrown error and the navigation. */
  datatype LoginOutcome = LoginOutcome(
    session: AuthStore.Session,
    isLoading: bool,
    error: Option<AuthService.AuthError>,
    navigation: Option<string>)

  /** The guard `if (!res.token || !res.user) throw`. */
  predicate Usable(res: AuthService.AuthResponse) {
    res.token.Some? && res.token.value != "" && res.user.Some?
  }

  /** `login(data)` once `authService.login` has settled with `response`. */
  function Login(s: AuthStore.Session, response: Result<AuthService.AuthResponse, AuthService.AuthError>): (r: LoginOutcome)
    ensures !r.isLoading
    ensures response.Err? ==> r.session == s && r.error == Some(response.error) && r.navigation == None
    ensures response.Ok? && !Usable(response.value) ==>
      r.session == s && r.error == Some(AuthService.InvalidCredentials) && r.navigation == None
    ensures response.Ok? && Usable(response.value) ==>
      && r.error == None
      && r.navigation == Some("/home")
      && r.session == AuthStore.SetAuth(s, response.value.user.value, response.value.token.value)
  {
    match response
    case Err(e) => LoginOutcome(s, false, Some(e), None)
    case Ok(res) =>
      if !Usable(res) then LoginOutcome(s, false, Some(AuthService.InvalidCredentials), None)
      else
        var token := res.token.value;
        var user := res.user.value;
        var written := Storage.SetItem(Storage.SetItem(s.storage, Storage.AuthTokenKey, token), Storage.CurrentUserKey, UserJson(user));
        LoginOutcome(AuthStore.SetAuth(AuthStore.Session(s.auth, written), user, token), false, None, Some("/home"))
  }

  /** A successful login signs the user in with exactly the response's token and user. */
  lemma LoginSignsIn(s: AuthStore.Session, res: AuthService.AuthResponse)
    requires Usable(res)
    ensures var r := Login(s, Ok(res));
      && r.session.auth.isAuthenticated
      && r.session.auth.token == res.token
      && r.session.auth.user == res.user
      && Storage.GetItem(r.session.storage, Storage.AuthTokenKey) == res.token
  {
  }

  /** What a call to `logout` leaves behind. */
  datatype LogoutOutcome = LogoutOutcome(
    session: AuthStore.Session,
    error: Option<AuthService.AuthError>,
    navigation: string)

  /** `logout()`: the service call may throw (`serviceError`); the store logout and the navigation run regardless. */
  function Logout(s: AuthStore.Session, serviceError: Option<AuthService.AuthError>): (r: LogoutOutcome)
    ensures r.session == AuthStore.Logout(s)
    ensures r.error == serviceError
    ensures r.navigation == "/login"
  {
    var afterService :=
      if serviceError.None? then AuthStore.Session(s.auth, AuthService.Logout(s.storage)) else s;
    LogoutOutcome(AuthStore.Logout(afterService), serviceError, "/login")
  }
}
