/**
 * The sign-up form of pages/home/signup/index.tsx: three client checks in a
 * fixed order, the POST to the signup endpoint, and its reply. A reply that
 * is not JSON stops the handler at `res.json()`. Of the JSON replies only a
 * 400 counts as a failure; any other stores the reply's user and navigates
 * to "/".
 */
module SignupPage {
  import opened Base
  import opened Strings
  import opened Http
  import opened AuthGuards
  import opened Database
  import opened UsersApi
  import opened ClientRuntime
  import opened AppShell
  import opened LoginPage

  /** The form checks, in order; `None` when the request is sent. */
  function SignupFormError(username: Option<string>, password1: Option<string>, password2: Option<string>): Option<string> {
    if BlankField(username) then Some(EnterUsername)
    else if BlankField(password1) then Some(EnterPassword)
    else if password1 != password2 then Some(PasswordsDiffer)
    else None
  }

  /** The form is sent exactly when no present field is blank and the two passwords are equal. */
  lemma SignupFormErrorIff(username: Option<string>, password1: Option<string>, password2: Option<string>)
    ensures SignupFormError(username, password1, password2).None?
            <==> !(username.Some? && IsBlank(username.value)) && !(password1.Some? && IsBlank(password1.value))
                 && password1 == password2
  {
    if username.Some? { TrimEmptyIffBlank(username.value); }
    if password1.Some? { TrimEmptyIffBlank(password1.value); }
  }

  /**
   * A filled-in form that passes the page's checks also passes the server's
   * first three rules: the server can only refuse it as taken or too short.
   */
  lemma ClientChecksCoverFirstRules(username: string, password1: string, password2: Option<string>, taken: bool)
    requires SignupFormError(Some(username), Some(password1), password2).None?
    ensures var e := SignupCheck(Some(username), Some(password1), password2, taken);
            e.None? || e == Some(UsernameTaken) || e == Some(UsernameTooShort) || e == Some(PasswordTooShort)
  {
    assert Trim("") == "";
    assert username != "" && password1 != "";
  }

  /** What the page does with the endpoint's reply; `SignupStopped` is a rejected `res.json()`, after which nothing runs. */
  datatype SignupEffect = SignupStopped | SignupError(error: Option<string>) | SignedUp(user: Option<PublicUser>)

  function AfterSignupReply(r: Response): SignupEffect {
    if !IsJson(r.body) then SignupStopped
    else if r.status == 400 then SignupError(ErrorField(r.body))
    else SignedUp(UserField(r.body))
  }

  /**
   * The handler stops exactly on a reply that is not JSON, such as the
   * limiters' 429; every answer of the signup handler itself is JSON.
   */
  lemma UnparsedReplyStops(r: Response)
    ensures AfterSignupReply(r) == SignupStopped <==> !IsJson(r.body)
    ensures AfterSignupReply(Limited) == SignupStopped
  {
  }

  /**
   * Against the endpoint: a refused rule shows that rule's message, a stored
   * and logged-in user is cached, and a store failure still counts as signed
   * up, with no user.
   */
  lemma SignupPageOnOutcome(host: Option<string>, users: seq<UserDoc>, newId: nat,
                            username: Option<string>, password1: Option<string>, password2: Option<string>,
                            insertThrows: bool, logInOk: bool)
    ensures var h := SignupOutcome(false, host, users, newId, username, password1, password2, insertThrows, logInOk);
            var e := SignupCheck(username, password1, password2, Taken(users, username));
            (e.Some? ==> AfterSignupReply(h.response) == SignupError(e))
            && (e.None? && !insertThrows && logInOk ==> AfterSignupReply(h.response) == SignedUp(Some(PublicUser(newId, username.value))))
            && (e.None? && (insertThrows || !logInOk) ==> AfterSignupReply(h.response) == SignedUp(None))
  {
  }

  /** A client that is already logged in gets the guard's 401, which is not a 400: the page goes home with no user. */
  lemma LoggedInSignupGoesHome(host: Option<string>, users: seq<UserDoc>, newId: nat,
                               username: Option<string>, password1: Option<string>, password2: Option<string>,
                               insertThrows: bool, logInOk: bool)
    ensures AfterSignupReply(SignupOutcome(true, host, users, newId, username, password1, password2, insertThrows, logInOk).response)
            == SignedUp(None)
  {
  }

  /** `handleSignUp`; `reply` is the endpoint's answer, used only when the request is sent. */
  method HandleSignUp(username: Option<string>, password1: Option<string>, password2: Option<string>, reply: Response,
                      app: App, cache: UserCache, router: Router) returns (sent: bool)
    modifies app`error, cache, router`pushed
    ensures sent <==> SignupFormError(username, password1, password2).None?
    ensures !sent ==>
              app.error.message == SignupFormError(username, password1, password2) && app.error.toggle == !old(app.error.toggle)
              && cache.data == old(cache.data) && router.pushed == old(router.pushed)
    ensures sent && !IsJson(reply.body) ==>
              app.error == old(app.error) && cache.data == old(cache.data) && router.pushed == old(router.pushed)
    ensures sent && IsJson(reply.body) && reply.status == 400 ==>
              app.error.message == ErrorField(reply.body) && app.error.toggle == !old(app.error.toggle)
              && cache.data == old(cache.data) && router.pushed == old(router.pushed)
    ensures sent && IsJson(reply.body) && reply.status != 400 ==>
              app.error == old(app.error) && cache.data == Some(UserData(UserField(reply.body)))
              && router.pushed == old(router.pushed) + ["/"]
  {
    var e := SignupFormError(username, password1, password2);
    if e.Some? {
      app.SetError(e);
      return false;
    }
    sent := true;
    if !IsJson(reply.body) {
      return;
    }
    if reply.status == 400 {
      app.SetError(ErrorField(reply.body));
      return;
    }
    cache.Mutate(UserField(reply.body));
    router.Push("/");
  }
}
