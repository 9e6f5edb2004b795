/**
 * The login form of pages/home/login/index.tsx: two blank-field checks, the
 * POST to the login endpoint, and what its reply does. A reply that is not
 * JSON stops the handler at `res.json()`. Otherwise a 401 shows the reply's
 * error, and any other status stores the reply's user, navigates to the
 * login referral (or "/") and clears the referral, so it is used once.
 */
module LoginPage {
  import opened Base
  import opened Strings
  import opened Http
  import opened Database
  import opened Passport
  import opened AuthApi
  import opened ClientRuntime
  import opened AppShell
  import opened AuthProvider

  const EnterUsername := "Please enter a username."
  const EnterPassword := "Please enter a password."

  /** `x?.trim() === ""`: an absent field is not blank. */
  predicate BlankField(x: Option<string>) {
    x.Some? && Trim(x.value) == ""
  }

  /** The form checks: the first blank field, username first, or `None` when the request is sent. */
  function LoginFormError(username: Option<string>, password: Option<string>): Option<string> {
    if BlankField(username) then Some(EnterUsername)
    else if BlankField(password) then Some(EnterPassword)
    else None
  }

  /** The form is refused exactly when a present field holds only white space, and the username is checked first. */
  lemma LoginFormErrorIff(username: Option<string>, password: Option<string>)
    ensures LoginFormError(username, password) == Some(EnterUsername) <==> username.Some? && IsBlank(username.value)
    ensures LoginFormError(username, password) == Some(EnterPassword)
            <==> !(username.Some? && IsBlank(username.value)) && password.Some? && IsBlank(password.value)
    ensures LoginFormError(username, password).None?
            <==> !(username.Some? && IsBlank(username.value)) && !(password.Some? && IsBlank(password.value))
  {
    if username.Some? { TrimEmptyIffBlank(username.value); }
    if password.Some? { TrimEmptyIffBlank(password.value); }
  }

  /** What the page does with the endpoint's reply; `Stopped` is a rejected `res.json()`, after which nothing runs. */
  datatype LoginEffect =
    | Stopped
    | ShowError(error: Option<string>)
    | Navigate(to: string, referral: string, user: Option<PublicUser>)

  function AfterLoginReply(r: Response, referral: string): LoginEffect {
    if !IsJson(r.body) then Stopped
    else if r.status == 401 then ShowError(ErrorField(r.body))
    else Navigate(if referral == "" then "/" else referral, "", UserField(r.body))
  }

  /**
   * Any JSON reply but a 401 navigates to the referral, or "/" without one,
   * and leaves no referral behind; a reply that is not JSON navigates nowhere.
   */
  lemma ReferralUsedOnce(r: Response, referral: string)
    requires r.status != 401
    ensures AfterLoginReply(r, referral).Navigate? <==> IsJson(r.body)
    ensures IsJson(r.body) ==> AfterLoginReply(r, referral).referral == ""
    ensures IsJson(r.body) ==> AfterLoginReply(r, referral).to == if referral == "" then "/" else referral
  {
  }

  /**
   * Against a store with unique usernames, a wrong password for a known user
   * shows "Incorrect Password." and the right one navigates with that user.
   */
  lemma LoginAgainstStore(host: Option<string>, users: seq<UserDoc>, u: UserDoc, password: string,
                          hash: string -> string, referral: string)
    requires UniqueUsernames(users) && u in users && u.username != "" && password != ""
    ensures var reply := LoginOutcome(false, host, users, Some(u.username), Some(password), None, HashCompare(hash), true);
            reply.Sent?
            && (hash(password) != u.password ==> AfterLoginReply(reply.response, referral) == ShowError(Some(WrongPassword)))
            && (hash(password) == u.password ==>
                  AfterLoginReply(reply.response, referral).Navigate? && AfterLoginReply(reply.response, referral).user == Some(PublicOf(u)))
  {
    var i :| 0 <= i < |users| && users[i] == u;
    FindUserOfUnique(users, u.username, i);
  }

  /**
   * A client that is already logged in gets the guard's 401, whose body has
   * no `error`: the page shows an empty error and stays.
   */
  lemma LoggedInLoginShowsNothing(host: Option<string>, users: seq<UserDoc>, username: Option<string>, password: Option<string>,
                                  lookupThrows: Option<string>, compare: (string, string) -> Reply<bool>, logInOk: bool, referral: string)
    ensures var h := LoginOutcome(true, host, users, username, password, lookupThrows, compare, logInOk);
            h.Sent? && AfterLoginReply(h.response, referral) == ShowError(None)
  {
    LoginRequiresLoggedOut(host, users, username, password, lookupThrows, compare, logInOk);
  }

  /** The handler stops, whatever the status, exactly when the reply is not JSON. */
  lemma UnparsedReplyStops(r: Response, referral: string)
    ensures AfterLoginReply(r, referral) == Stopped <==> !IsJson(r.body)
  {
  }

  /**
   * The JSON 500 of a failed `req.logIn` is not a 401: the page navigates as
   * after a login, with no user.
   */
  lemma ServerErrorNavigates(host: Option<string>, users: seq<UserDoc>, username: Option<string>, password: Option<string>,
                             compare: (string, string) -> Reply<bool>, referral: string)
    requires Accepted(false, users, username, password, None, compare).Some?
    ensures var r := Delivered(LoginOutcome(false, host, users, username, password, None, compare, false));
            r == InternalError && AfterLoginReply(r, referral).Navigate? && AfterLoginReply(r, referral).user == None
  {
  }

  /**
   * A lookup that throws is forwarded to the error handler, whose plain-text
   * 500 stops the page: nothing is cached, shown or pushed. So does the
   * limiters' 429.
   */
  lemma FailedLookupStops(host: Option<string>, users: seq<UserDoc>, username: Option<string>, password: Option<string>,
                          e: string, compare: (string, string) -> Reply<bool>, logInOk: bool, referral: string)
    requires Truthy(username) && Truthy(password)
    ensures AfterLoginReply(Delivered(LoginOutcome(false, host, users, username, password, Some(e), compare, logInOk)), referral)
            == Stopped
    ensures AfterLoginReply(Limited, referral) == Stopped
  {
  }

  /**
   * `handleLogin` with the given form values; `reply` is the endpoint's
   * answer, used only when the request is sent.
   */
  method HandleLogin(username: Option<string>, password: Option<string>, reply: Response,
                     app: App, auth: AuthState, cache: UserCache, router: Router) returns (sent: bool)
    modifies app`error, auth`loginReferral, cache, router`pushed
    ensures sent <==> LoginFormError(username, password).None?
    ensures !sent ==>
              app.error.message == LoginFormError(username, password) && app.error.toggle == !old(app.error.toggle)
              && auth.loginReferral == old(auth.loginReferral) && cache.data == old(cache.data) && router.pushed == old(router.pushed)
    ensures sent && AfterLoginReply(reply, old(auth.loginReferral)).Stopped? ==>
              app.error == old(app.error)
              && auth.loginReferral == old(auth.loginReferral) && cache.data == old(cache.data) && router.pushed == old(router.pushed)
    ensures sent && AfterLoginReply(reply, old(auth.loginReferral)).ShowError? ==>
              app.error.message == AfterLoginReply(reply, old(auth.loginReferral)).error && app.error.toggle == !old(app.error.toggle)
              && auth.loginReferral == old(auth.loginReferral) && cache.data == old(cache.data) && router.pushed == old(router.pushed)
    ensures sent && AfterLoginReply(reply, old(auth.loginReferral)).Navigate? ==>
              var n := AfterLoginReply(reply, old(auth.loginReferral));
              app.error == old(app.error) && auth.loginReferral == n.referral
              && cache.data == Some(UserData(n.user)) && router.pushed == old(router.pushed) + [n.to]
  {
    var e := LoginFormError(username, password);
    if e.Some? {
      app.SetError(e);
      return false;
    }
    sent := true;
    if !IsJson(reply.body) {
      return;
    }
    if reply.status == 401 {
      app.SetError(ErrorField(reply.body));
      return;
    }
    cache.Mutate(UserField(reply.body));
    if auth.loginReferral == "" {
      router.Push("/");
      return;
    }
    router.Push(auth.loginReferral);
    auth.SetLoginReferral("");
  }
}
