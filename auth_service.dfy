/** The session store: three keys in the browser's key-value store plus the
    authenticated flag and current user the service broadcasts (src/app/auth.service.ts). */
module Auth {
  import opened Wrappers
  import opened Decimal
  import opened Browser
  import opened Http
  import opened UserJson

  const TokenKey := "auth_token"
  const RefreshTokenKey := "refresh_token"
  const UserKey := "user_data"

  datatype LoginRequest = LoginRequest(email: string, password: string, deviceToken: string, deviceType: int)

  datatype VerifyRequest = VerifyRequest(verifyToken: string, otp: string)

  datatype Role = Role(name: string)

  /** The fields of the login response's `response` record that the service reads. */
  datatype Profile = Profile(
    id: string,
    firstName: string,
    lastName: string,
    email: string,
    role: Role,
    profilePic: string,
    verifyToken: string)

  datatype LoginResponse = LoginResponse(message: string, response: Profile)

  /** The user record derived from a login response: the full name joined by one space,
      the role's name, and id, email and picture copied. */
  function SessionUserOf(p: Profile): (u: SessionUser)
    ensures |u.name| == |p.firstName| + 1 + |p.lastName|
    ensures u.name[..|p.firstName|] == p.firstName && u.name[|p.firstName|] == ' '
    ensures u.name[|p.firstName| + 1..] == p.lastName
    ensures u.id == p.id && u.email == p.email && u.role == p.role.name && u.profilePic == p.profilePic
  {
    SessionUser(p.id, p.firstName + " " + p.lastName, p.email, p.role.name, p.profilePic)
  }

  /** `!!localStorage.getItem('auth_token')`: a token is stored and is not empty. */
  predicate HasValidToken(items: map<string, string>) {
    TokenKey in items && items[TokenKey] != ""
  }

  /** `getUserFromStorage()`: the parsed record, or null when nothing (or "") is stored. */
  function UserFromStorage(items: map<string, string>): (r: Option<SessionUser>)
    ensures UserKey !in items || items[UserKey] == "" ==> r == None
    ensures UserKey in items && items[UserKey] != "" ==> r == ParseUser(items[UserKey])
    ensures r.Some? ==> UserKey in items && ParseUser(items[UserKey]) == r
  {
    if UserKey in items && items[UserKey] != "" then ParseUser(items[UserKey]) else None
  }

  /** The keys a successful login writes. */
  function LoggedIn(items: map<string, string>, p: Profile): map<string, string> {
    items[TokenKey := p.verifyToken][UserKey := Stringify(SessionUserOf(p))]
  }

  /** The keys logout removes. */
  function LoggedOut(items: map<string, string>): map<string, string> {
    items - {TokenKey, RefreshTokenKey, UserKey}
  }

  /** After a login the store yields the derived user, and counts as authenticated
      exactly when the verify token is not empty; no other key changes. */
  lemma LoginThenRead(items: map<string, string>, p: Profile)
    ensures UserFromStorage(LoggedIn(items, p)) == Some(SessionUserOf(p))
    ensures HasValidToken(LoggedIn(items, p)) <==> p.verifyToken != ""
    ensures forall k :: k in items && k != TokenKey && k != UserKey ==> k in LoggedIn(items, p) && LoggedIn(items, p)[k] == items[k]
  {
    StringifyNonEmpty(SessionUserOf(p));
    ParseStringify(SessionUserOf(p));
  }

  /** After logout nothing is authenticated and no user is stored, while every other key
      (such as `remember_email`) keeps its value. */
  lemma LogoutThenRead(items: map<string, string>)
    ensures !HasValidToken(LoggedOut(items)) && UserFromStorage(LoggedOut(items)) == None
    ensures forall k :: k in items && k != TokenKey && k != RefreshTokenKey && k != UserKey ==>
      k in LoggedOut(items) && LoggedOut(items)[k] == items[k]
    ensures LoggedOut(LoggedOut(items)) == LoggedOut(items)
  {
  }

  const ErrorCodePrefix := "Error Code: "

  /** `handleError`: the value an auth request fails with. A client-side error gives its
      own message; otherwise the server's `message` when it is truthy (a non-empty string,
      or a non-string value passed on as it is); otherwise "Error Code: " followed by the
      status in decimal. */
  function HandleError(e: HttpErrorResponse): (t: Thrown)
    ensures t.ThrownObject? <==> e.error.ServerValue?
    ensures e.error.ClientSide? ==> t == ThrownString(e.error.message)
    ensures e.error.ServerSide? && e.error.message != "" ==> t == ThrownString(e.error.message)
    ensures e.error.NoMessage? || e.error == ServerSide("") ==>
      && t.ThrownString?
      && |t.text| > |ErrorCodePrefix| && t.text[..|ErrorCodePrefix|] == ErrorCodePrefix
      && AllDigits(t.text[|ErrorCodePrefix|..]) && Parse(t.text[|ErrorCodePrefix|..]) == e.status
  {
    if e.error.ClientSide? then ThrownString(e.error.message)
    else if e.error.ServerSide? && e.error.message != "" then ThrownString(e.error.message)
    else if e.error.ServerValue? then ThrownObject
    else
      ParseShow(e.status);
      var msg := ErrorCodePrefix + Show(e.status);
      assert msg[|ErrorCodePrefix|..] == Show(e.status);
      ThrownString(msg)
  }

  class AuthService {
    const storage: LocalStorage
    const router: Router
    /** The value of `isAuthenticatedSubject`. */
    var authenticated: bool
    /** The value of `currentUserSubject`. */
    var currentUser: Option<SessionUser>

    /** Both broadcast values start from what the store holds. */
    constructor(storage: LocalStorage, router: Router)
      ensures this.storage == storage && this.router == router
      ensures authenticated == HasValidToken(storage.items)
      ensures currentUser == UserFromStorage(storage.items)
    {
      this.storage := storage;
      this.router := router;
      authenticated := HasValidToken(storage.items);
      currentUser := UserFromStorage(storage.items);
    }

    /** `localStorage.getItem('auth_token')`. */
    function GetToken(): (r: Option<string>)
      reads storage
      ensures r.Some? <==> TokenKey in storage.items
      ensures r.Some? ==> r.value == storage.items[TokenKey]
    {
      storage.GetItem(TokenKey)
    }

    /** `!!this.getToken()`: a token is stored and it is not the empty string. */
    predicate IsAuthenticated(): (b: bool)
      reads storage
      ensures b <==> GetToken().Some? && GetToken().value != ""
    {
      HasValidToken(storage.items)
    }

    /** The user read back from `user_data`: none without a stored, non-empty text. */
    function GetCurrentUser(): (r: Option<SessionUser>)
      reads storage
      ensures UserKey !in storage.items || storage.items[UserKey] == "" ==> r == None
      ensures UserKey in storage.items && storage.items[UserKey] != "" ==> r == ParseUser(storage.items[UserKey])
      ensures r.Some? ==> UserKey in storage.items && ParseUser(storage.items[UserKey]) == r
    {
      UserFromStorage(storage.items)
    }

    /** What `login` does with the reply to `POST /auth/login`: on success it stores the
        verify token as the session token and the derived user, and broadcasts both; on
        failure it changes nothing and fails with what `handleError` throws. */
    method OnLoginReply(reply: HttpReply<LoginResponse>) returns (result: Result<LoginResponse, Thrown>)
      modifies this, storage
      ensures reply.Success? ==>
        && result == Ok(reply.body)
        && storage.items == LoggedIn(old(storage.items), reply.body.response)
        && authenticated && currentUser == Some(SessionUserOf(reply.body.response))
        && GetCurrentUser() == currentUser
        && (IsAuthenticated() <==> reply.body.response.verifyToken != "")
      ensures reply.Failure? ==>
        && result == Err(HandleError(reply.response))
        && storage.items == old(storage.items)
        && authenticated == old(authenticated) && currentUser == old(currentUser)
    {
      match reply
      case Success(response) =>
        HandleLoginSuccess(response);
        LoginThenRead(old(storage.items), response.response);
        result := Ok(response);
      case Failure(error) =>
        result := Err(HandleError(error));
    }

    method HandleLoginSuccess(response: LoginResponse)
      modifies this, storage
      ensures storage.items == LoggedIn(old(storage.items), response.response)
      ensures authenticated && currentUser == Some(SessionUserOf(response.response))
    {
      storage.SetItem(TokenKey, response.response.verifyToken);
      var user := SessionUserOf(response.response);
      storage.SetItem(UserKey, Stringify(user));
      authenticated := true;
      currentUser := Some(user);
    }

    /** What `verify` does with the reply to `PUT /auth/verify`: it passes a success
        through and changes no session state; a failure becomes what `handleError` throws. */
    method OnVerifyReply<T>(reply: HttpReply<T>) returns (result: Result<T, Thrown>)
      ensures result.Ok? <==> reply.Success?
      ensures reply.Success? ==> result.value == reply.body
      ensures reply.Failure? ==> result.error == HandleError(reply.response)
    {
      match reply
      case Success(body) => result := Ok(body);
      case Failure(error) => result := Err(HandleError(error));
    }

    /** Removes the three session keys, broadcasts "signed out" and goes to the login page. */
    method Logout()
      modifies this, storage, router
      ensures storage.items == LoggedOut(old(storage.items))
      ensures !authenticated && currentUser == None
      ensures !IsAuthenticated() && GetCurrentUser() == None
      ensures router.navigations == old(router.navigations) + [Navigation("/login", map[])]
    {
      storage.RemoveItem(TokenKey);
      storage.RemoveItem(RefreshTokenKey);
      storage.RemoveItem(UserKey);
      authenticated := false;
      currentUser := None;
      router.Navigate("/login", map[]);
    }
  }
}
