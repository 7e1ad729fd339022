/**
 * The authentication service (src/services/authService.ts): the mapping from
 * the login endpoint's payload to the client's `AuthResponse`, and the
 * storage keys its logout removes.
 */
module AuthService {
  import opened Options
  import opened Domain
  import Storage

  /** Why an authentication call did not produce a usable result. */
  datatype AuthError =
    | RequestFailed(message: string)
    | MalformedResponse
    | InvalidCredentials

  /** The user object of the login payload, with the server's field names. */
  datatype ServerUser = ServerUser(
    id: string,
    email: string,
    username: string,
    fullName: string,
    profilePicture: Option<string>,
    bio: Option<string>)

  datatype TokenPair = TokenPair(accessToken: Option<string>, refreshToken: Option<string>)

  /** `response.data.data` of `POST /api/auth/login`. */
  datatype LoginPayload = LoginPayload(user: ServerUser, tokens: TokenPair)

  /** `AuthResponse`: the token and user handed to the session layer. */
  datatype AuthResponse = AuthResponse(token: Option<string>, user: Option<User>)

  /** `payload.user.bio || ""`. */
  function BioOrEmpty(bio: Option<string>): (r: string)
    ensures bio.Some? ==> r == bio.value
    ensures bio.None? ==> r == ""
    ensures r == "" <==> bio.None? || bio == Some("")
  {
    match bio
    case Some(b) => b
    case None => ""
  }

  /** The body of `login` after the request has returned `payload`. */
  function Login(payload: LoginPayload): (r: AuthResponse)
    ensures r.token == payload.tokens.accessToken
    ensures r.user.Some?
    ensures r.user.value.id == payload.user.id
    ensures r.user.value.email == payload.user.email
    ensures r.user.value.username == payload.user.username
    ensures r.user.value.fullName == payload.user.fullName
    ensures r.user.value.avatar == payload.user.profilePicture
    ensures r.user.value.bio == Some(BioOrEmpty(payload.user.bio))
    ensures r.user.value.isVerified
    ensures r.user.value.createdAt == "" && r.user.value.updatedAt == ""
  {
    var u := payload.user;
    AuthResponse(
      payload.tokens.accessToken,
      Some(User(u.id, u.email, u.fullName, u.username, Some(BioOrEmpty(u.bio)), u.profilePicture,
                None, true, "", "", None, None)))
  }

  /** The refresh token of the login payload never reaches the result. */
  lemma LoginIgnoresRefreshToken(payload: LoginPayload, other: Option<string>)
    ensures Login(payload.(tokens := payload.tokens.(refreshToken := other))) == Login(payload)
  {
  }

  /**
   * `login` as a whole: a failed request rethrows its error, a body without
   * `data` throws when it is read, and otherwise the payload is mapped.
   */
  function LoginFromResponse(response: Result<Option<LoginPayload>, AuthError>): (r: Result<AuthResponse, AuthError>)
    ensures response.Err? ==> r == Err(response.error)
    ensures response.Ok? && response.value.None? ==> r == Err(MalformedResponse)
    ensures response.Ok? && response.value.Some? ==> r.Ok? && r.value.token == response.value.value.tokens.accessToken
  {
    match response
    case Err(e) => Err(e)
    case Ok(None) => Err(MalformedResponse)
    case Ok(Some(payload)) => Ok(Login(payload))
  }

  /** `logout()`: removes the three session keys and nothing else. */
  function Logout(store: Storage.Store): (r: Storage.Store)
    ensures forall k :: k in Storage.SessionKeys ==> Storage.GetItem(r, k) == None
    ensures Storage.AgreeExcept(r, store, Storage.SessionKeys)
  {
    Storage.RemoveSessionKeys(store)
  }
}
