/**
 * The authentication store (src/stores/authStore.ts): the signed-in user, the
 * access token and two flags, together with the `localStorage` entries its
 * actions write and remove.
 */
module AuthStore {
  import opened Options
  import opened Domain
  import Storage

  datatype AuthState = AuthState(
    user: Option<User>,
    token: Option<string>,
    isAuthenticated: bool,
    isHydrated: bool)

  /** The store's in-memory state and the browser storage it writes through. */
  datatype Session = Session(auth: AuthState, storage: Storage.Store)

  /** The state the store is created with. */
  const Initial: AuthState := AuthState(None, None, false, false)

  /** The state every logout leaves behind. */
  const LoggedOut: AuthState := AuthState(None, None, false, true)

  /** The store never claims to be authenticated without holding a token. */
  predicate TokenWhenAuthenticated(a: AuthState) {
    a.isAuthenticated ==> a.token.Some?
  }

  lemma InitialIsSignedOut()
    ensures !Initial.isAuthenticated && !Initial.isHydrated
    ensures Initial.user == None && Initial.token == None
    ensures TokenWhenAuthenticated(Initial)
  {
  }

  /** `setAuth(user, token)`. */
  function SetAuth(s: Session, user: User, token: string): (r: Session)
    ensures r.auth.user == Some(user) && r.auth.token == Some(token) && r.auth.isAuthenticated
    ensures r.auth.isHydrated == s.auth.isHydrated
    ensures Storage.GetItem(r.storage, Storage.AuthTokenKey) == Some(token)
    ensures Storage.GetItem(r.storage, Storage.CurrentUserKey) == Some(UserJson(user))
    ensures Storage.AgreeExcept(r.storage, s.storage, {Storage.AuthTokenKey, Storage.CurrentUserKey})
    ensures TokenWhenAuthenticated(r.auth)
  {
    var written := Storage.SetItem(Storage.SetItem(s.storage, Storage.AuthTokenKey, token), Storage.CurrentUserKey, UserJson(user));
    Session(s.auth.(user := Some(user), token := Some(token), isAuthenticated := true), written)
  }

  /** `logout()`. */
  function Logout(s: Session): (r: Session)
    ensures r.auth.user == None && r.auth.token == None
    ensures !r.auth.isAuthenticated && r.auth.isHydrated
    ensures forall k :: k in Storage.SessionKeys ==> Storage.GetItem(r.storage, k) == None
    ensures Storage.AgreeExcept(r.storage, s.storage, Storage.SessionKeys)
    ensures Storage.GetItem(r.storage, Storage.RefreshTokenKey) == Storage.GetItem(s.storage, Storage.RefreshTokenKey)
    ensures TokenWhenAuthenticated(r.auth)
  {
    Session(LoggedOut, Storage.RemoveSessionKeys(s.storage))
  }

  /** Logging out twice leaves the same state and storage as logging out once. */
  lemma LogoutIdempotent(s: Session)
    ensures Logout(Logout(s)) == Logout(s)
  {
    Storage.RemoveSessionKeysIdempotent(s.storage);
  }

  /** The in-memory state after a logout does not depend on the state before it. */
  lemma LogoutForgetsState(s: Session, t: Session)
    requires s.storage == t.storage
    ensures Logout(s) == Logout(t)
  {
  }

  /** `setHydrated()`. */
  function SetHydrated(s: Session): (r: Session)
    ensures r.auth.isHydrated
    ensures r.auth.user == s.auth.user && r.auth.token == s.auth.token
    ensures r.auth.isAuthenticated == s.auth.isAuthenticated
    ensures r.storage == s.storage
    ensures TokenWhenAuthenticated(s.auth) ==> TokenWhenAuthenticated(r.auth)
  {
    Session(s.auth.(isHydrated := true), s.storage)
  }
}
