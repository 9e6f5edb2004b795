/**
 * The login and logout endpoints of pages/api/auth/index.ts. Login runs
 * behind `checkNotAuthenticated`, hands the body to the local strategy and
 * answers from its verdict and from `req.logIn`; logout runs behind
 * `checkAuthenticated`, destroys the session and answers 204.
 */
module AuthApi {
  import opened Base
  import opened Strings
  import opened Http
  import opened AuthGuards
  import opened Database
  import opened Passport

  /** `{ ...user, password: undefined }`: every field but the password hash. */
  function PublicOf(u: UserDoc): (p: PublicUser)
    ensures p.id == u.id && p.username == u.username
  {
    PublicUser(u.id, u.username)
  }

  /** The guard request passport's session gives a handler. */
  function SessionRequest(authenticated: bool, host: Option<string>): (r: GuardRequest)
    ensures r.isAuthenticated == authenticated && r.isUnauthenticated == !authenticated && r.host == host
  {
    GuardRequest(authenticated, !authenticated, host)
  }

  /** The custom callback of `passport.authenticate("local", ...)`; `logInOk` is whether `req.logIn` succeeded. */
  function LoginReply(d: Done, logInOk: bool): (h: Handled)
    ensures h.Forwarded? <==> d.DoneError?
    ensures h.Forwarded? ==> h.error == d.error
    ensures d.DoneFail? ==> h == Sent(Response(401, ErrorJson(d.message)))
    ensures h.Sent? && h.response.status == 200 <==> d.DoneUser? && logInOk
    ensures d.DoneUser? && logInOk ==> h.response.body == UserJson(PublicOf(d.user))
    ensures d.DoneUser? && !logInOk ==> h == Sent(InternalError)
  {
    match d
    case DoneError(e) => Forwarded(e)
    case DoneFail(m) => Sent(Response(401, ErrorJson(m)))
    case DoneUser(u) => if logInOk then Sent(Response(200, UserJson(PublicOf(u)))) else Sent(InternalError)
  }

  /** The awaited lookup the verify callback sees: a thrown store error, or `findOne`'s answer. */
  function Lookup(users: seq<UserDoc>, username: Option<string>, lookupThrows: Option<string>): (r: Reply<Option<UserDoc>>)
    ensures lookupThrows.Some? ==> r == Threw(lookupThrows.value)
    ensures lookupThrows.None? && username.Some? ==> r == Ok(FindUser(users, username.value))
  {
    if lookupThrows.Some? then Threw(lookupThrows.value)
    else if username.None? then Ok(None)
    else Ok(FindUser(users, username.value))
  }

  /** The user the strategy accepts once the guard has let the request through, if any. */
  function Accepted(authenticated: bool, users: seq<UserDoc>, username: Option<string>, password: Option<string>,
                    lookupThrows: Option<string>, compare: (string, string) -> Reply<bool>): (r: Option<UserDoc>)
    ensures r.Some? ==> r.value in users && username == Some(r.value.username)
  {
    if authenticated then None
    else match Strategy(username, password, Lookup(users, username, lookupThrows), compare)
      case DoneUser(u) => Some(u)
      case _ => None
  }

  /** The whole POST: the guard, then the strategy's verdict, then `req.logIn`. */
  function LoginOutcome(authenticated: bool, host: Option<string>, users: seq<UserDoc>,
                        username: Option<string>, password: Option<string>, lookupThrows: Option<string>,
                        compare: (string, string) -> Reply<bool>, logInOk: bool): Handled
  {
    match CheckNotAuthenticated(SessionRequest(authenticated, host))
    case Reject(r) => Sent(r)
    case CallNext => LoginReply(Strategy(username, password, Lookup(users, username, lookupThrows), compare), logInOk)
  }

  /** A logged-in client is turned away before the strategy runs. */
  lemma LoginRequiresLoggedOut(host: Option<string>, users: seq<UserDoc>, username: Option<string>, password: Option<string>,
                               lookupThrows: Option<string>, compare: (string, string) -> Reply<bool>, logInOk: bool)
    ensures LoginOutcome(true, host, users, username, password, lookupThrows, compare, logInOk)
            == Sent(Response(401, RedirectJson("/")))
  {
  }

  /**
   * Login answers 200 exactly when the client is logged out, both fields are
   * filled in, the lookup finds a user, bcrypt accepts the password and the
   * session login succeeds; the body is then that user without the hash.
   */
  lemma LoginSucceedsIff(authenticated: bool, host: Option<string>, users: seq<UserDoc>,
                         username: Option<string>, password: Option<string>, lookupThrows: Option<string>,
                         compare: (string, string) -> Reply<bool>, logInOk: bool)
    ensures var h := LoginOutcome(authenticated, host, users, username, password, lookupThrows, compare, logInOk);
            h.Sent? && h.response.status == 200
            <==> !authenticated && Truthy(username) && Truthy(password) && lookupThrows.None?
                 && FindUser(users, username.value).Some?
                 && compare(password.value, FindUser(users, username.value).value.password) == Ok(true)
                 && logInOk
    ensures var h := LoginOutcome(authenticated, host, users, username, password, lookupThrows, compare, logInOk);
            h.Sent? && h.response.status == 200
            ==> h.response.body == UserJson(PublicOf(FindUser(users, username.value).value))
  {
    if !authenticated {
      var d := Strategy(username, password, Lookup(users, username, lookupThrows), compare);
      assert LoginOutcome(authenticated, host, users, username, password, lookupThrows, compare, logInOk) == LoginReply(d, logInOk);
    }
  }

  /** Only store or bcrypt exceptions reach the framework's error handler. */
  lemma LoginForwardsOnlyErrors(authenticated: bool, host: Option<string>, users: seq<UserDoc>,
                                username: Option<string>, password: Option<string>, lookupThrows: Option<string>,
                                compare: (string, string) -> Reply<bool>, logInOk: bool)
    ensures LoginOutcome(authenticated, host, users, username, password, lookupThrows, compare, logInOk).Forwarded?
            ==> !authenticated && Truthy(username) && Truthy(password)
                && (lookupThrows.Some? || compare(password.value, FindUser(users, username.value).value.password).Threw?)
  {
    if !authenticated && Truthy(username) && Truthy(password) && lookupThrows.None? {
      var d := Verify(Ok(FindUser(users, username.value)), password.value, compare);
      assert LoginOutcome(authenticated, host, users, username, password, lookupThrows, compare, logInOk) == LoginReply(d, logInOk);
    }
  }

  /**
   * `passport.authenticate("local")`: the strategy refuses missing fields
   * without a lookup; otherwise the store is queried unless told to throw.
   */
  method RunStrategy(db: XDatabase, username: Option<string>, password: Option<string>,
                     lookupThrows: Option<string>, compare: (string, string) -> Reply<bool>) returns (d: Done)
    requires db.Valid()
    modifies db
    ensures db.Valid() && db.SameContents()
    ensures d == Strategy(username, password, Lookup(old(db.users), username, lookupThrows), compare)
  {
    var lookup: Reply<Option<UserDoc>>;
    if !Truthy(username) || !Truthy(password) {
      lookup := Ok(None);
    } else if lookupThrows.Some? {
      lookup := Threw(lookupThrows.value);
    } else {
      var found := db.GetUserFromUsername(username.value);
      lookup := Ok(found);
    }
    d := Strategy(username, password, lookup, compare);
  }

  /** POST /api/auth (login). */
  method Login(host: Option<string>, db: XDatabase, s: Session,
               username: Option<string>, password: Option<string>, lookupThrows: Option<string>,
               compare: (string, string) -> Reply<bool>, logInFails: bool) returns (h: Handled)
    requires db.Valid()
    modifies db, s
    ensures db.Valid() && db.SameContents()
    ensures h == LoginOutcome(old(s.IsAuthenticated()), host, old(db.users), username, password, lookupThrows, compare, !logInFails)
    ensures var a := Accepted(old(s.IsAuthenticated()), old(db.users), username, password, lookupThrows, compare);
            s.user == if a.Some? && !logInFails then Some(SerializeUser(a.value)) else old(s.user)
  {
    var guard := CheckNotAuthenticated(SessionRequest(s.IsAuthenticated(), host));
    if guard.Reject? {
      return Sent(guard.response);
    }
    var d := RunStrategy(db, username, password, lookupThrows, compare);
    match d {
      case DoneError(e) =>
        h := Forwarded(e);
      case DoneFail(m) =>
        h := Sent(Response(401, ErrorJson(m)));
      case DoneUser(u) =>
        var ok := s.LogIn(u, logInFails);
        h := if ok then Sent(Response(200, UserJson(PublicOf(u)))) else Sent(InternalError);
    }
  }

  /** DELETE /api/auth (logout). */
  method Logout(cfg: GuardConfig, host: Option<string>, s: Session) returns (h: Handled)
    modifies s
    ensures old(s.IsAuthenticated()) ==> h == Sent(Response(204, NoBody)) && s.user == None
    ensures !old(s.IsAuthenticated()) ==>
              s.user == old(s.user) && h == Sent(Response(401, LoginFirstJson(LoginFirst, LoginRedirect(cfg, host))))
  {
    var guard := CheckAuthenticated(cfg, SessionRequest(s.IsAuthenticated(), host));
    if guard.Reject? {
      return Sent(guard.response);
    }
    s.Destroy();
    h := Sent(Response(204, NoBody));
  }
}
