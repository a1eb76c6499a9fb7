/**
 * Login and session resolution (routes.py:22-34, 49-55): lookups and
 * branches over the user table, around the foreign token and password
 * helpers of `Auth`.
 */
module Session {
  import opened Wrappers
  import opened Models
  import opened Schemas
  import opened Auth
  import opened Queries

  /**
   * `login`: the first user with the form's username is looked up and the
   * password verified against that user's hash. Both failures raise the same
   * 401 error; on success the token is issued for claims whose `sub` is the
   * user's username, with token type "bearer".
   */
  function Login(auth: AuthService, users: seq<User>, username: string, password: string): (r: Result<TokenResponse, HttpError>)
    ensures !HasUser(users, username) ==> r == Err(IncorrectLogin)
    ensures forall i :: FirstWithUsername(users, i, username) ==>
      r == if auth.verifyPassword(password, users[i].hashedPassword)
           then Ok(TokenResponse(auth.createAccessToken(Claims(Some(username))), "bearer"))
           else Err(IncorrectLogin)
  {
    match FindUser(users, username)
    case None => Err(IncorrectLogin)
    case Some(i) =>
      if !auth.verifyPassword(password, users[i].hashedPassword) then Err(IncorrectLogin)
      else Ok(TokenResponse(auth.createAccessToken(Claims(Some(users[i].username))), "bearer"))
  }

  /**
   * `get_current_user`: the token is decoded; a decoding failure or a
   * missing `sub` claim raises "Invalid credentials", a subject no user has
   * raises "User not found", and otherwise the first user with that
   * username is the session's user.
   */
  function GetCurrentUser(auth: AuthService, users: seq<User>, token: string): (r: Result<User, HttpError>)
    ensures r == Err(InvalidCredentials) <==>
      auth.decode(token).None? || auth.decode(token).value.sub.None?
    ensures r == Err(UserNotFound) <==>
      auth.decode(token).Some? && auth.decode(token).value.sub.Some? &&
      !HasUser(users, auth.decode(token).value.sub.value)
    ensures (auth.decode(token).Some? && auth.decode(token).value.sub.Some? &&
             HasUser(users, auth.decode(token).value.sub.value)) ==> r.Ok?
    ensures r.Ok? ==>
      auth.decode(token) == Some(Claims(Some(r.value.username))) &&
      exists i :: FirstWithUsername(users, i, r.value.username) && users[i] == r.value
  {
    match auth.decode(token)
    case None => Err(InvalidCredentials)
    case Some(claims) =>
      match claims.sub
      case None => Err(InvalidCredentials)
      case Some(username) =>
        match FindUser(users, username)
        case None => Err(UserNotFound)
        case Some(i) => Ok(users[i])
  }

  /** With unique usernames, the session's user is the only user with the token's subject. */
  lemma CurrentUserIsUnique(auth: AuthService, users: seq<User>, token: string)
    requires UniqueUsernames(users)
    requires GetCurrentUser(auth, users, token).Ok?
    ensures forall u :: u in users && u.username == GetCurrentUser(auth, users, token).value.username ==>
      u == GetCurrentUser(auth, users, token).value
  {
    var r := GetCurrentUser(auth, users, token).value;
    var i :| FirstWithUsername(users, i, r.username) && users[i] == r;
    FirstUserIsOnlyUser(users, i, r.username);
  }

  /**
   * Signing up, then logging in with the same credentials, then presenting
   * the issued token resolves to the user signup created — provided the
   * password verifies against its own hash and the token service decodes
   * the claims it issued.
   */
  lemma SignupLoginResolveRoundTrip(auth: AuthService, users: seq<User>, username: string, password: string)
    requires !HasUser(users, username)
    requires auth.verifyPassword(password, auth.hashPassword(password))
    requires DecodesIssued(auth, Claims(Some(username)))
    ensures
      var u := User(NextId(UserIds(users)), username, auth.hashPassword(password));
      var r := Login(auth, users + [u], username, password);
      r.Ok? && r.value.tokenType == "bearer" &&
      GetCurrentUser(auth, users + [u], r.value.accessToken) == Ok(u)
  {
    var u := User(NextId(UserIds(users)), username, auth.hashPassword(password));
    var users' := users + [u];
    assert FirstWithUsername(users', |users|, username) by {
      forall j | 0 <= j < |users| ensures users'[j].username != username {
        assert users'[j] == users[j];
      }
    }
  }
}
