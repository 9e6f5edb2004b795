/**
 * The signup and account-deletion endpoints of pages/api/auth/users.ts.
 * Signup runs behind `checkNotAuthenticated`, checks the body against seven
 * rules in a fixed order (the first failing rule answers 400), then stores
 * the bcrypt hash of the password and logs the new user in. Deletion runs
 * behind `checkAuthenticated`, destroys the session, then deletes the user.
 */
module UsersApi {
  import opened Base
  import opened Strings
  import opened Http
  import opened AuthGuards
  import opened Database
  import opened Passport
  import opened AuthApi

  const UsernameRequired := "Username is required."
  const PasswordRequired := "Password is required."
  const PasswordsDiffer := "Passwords do not match."
  const UsernameTaken := "Username is already taken."
  const UsernameTooShort := "Username must be at least 2 characters long."
  const PasswordTooShort := "Password must be at least 7 characters long."

  /** One validation rule: whether it fails, and the error it answers with. */
  datatype Rule = Rule(fails: bool, message: string)

  /** The seven checks of the handler, in the order it runs them. */
  function SignupRules(username: Option<string>, password1: Option<string>, password2: Option<string>, taken: bool): seq<Rule> {
    [ Rule(!Truthy(username), UsernameRequired),
      Rule(!Truthy(password1), PasswordRequired),
      Rule(password1 != password2, PasswordsDiffer),
      Rule(taken, UsernameTaken),
      Rule(username.Some? && |username.value| < 2, UsernameTooShort),
      Rule(password1 != password2, PasswordsDiffer),
      Rule(password1.Some? && |password1.value| < 7, PasswordTooShort) ]
  }

  /** The index of the first failing rule, or -1 when every rule passes. */
  function FirstFailingIndex(rules: seq<Rule>): (k: int)
    ensures -1 <= k < |rules|
    ensures k == -1 <==> forall i :: 0 <= i < |rules| ==> !rules[i].fails
    ensures k >= 0 ==> rules[k].fails && forall i :: 0 <= i < k ==> !rules[i].fails
  {
    if rules == [] then -1
    else if rules[0].fails then 0
    else
      var k := FirstFailingIndex(rules[1..]);
      if k == -1 then -1 else k + 1
  }

  /** The message of the first failing rule. */
  function FirstFailing(rules: seq<Rule>): Option<string> {
    var k := FirstFailingIndex(rules);
    if k < 0 then None else Some(rules[k].message)
  }

  /** A rule that fails after only passing rules is the one that answers. */
  lemma FirstFailingAt(rules: seq<Rule>, k: nat)
    requires k < |rules| && rules[k].fails
    requires forall i :: 0 <= i < k ==> !rules[i].fails
    ensures FirstFailing(rules) == Some(rules[k].message)
  {
    var j := FirstFailingIndex(rules);
    assert j != -1 by { assert rules[k].fails; }
    assert !(j < k) && !(k < j);
  }

  /**
   * The handler's chain of early returns; `taken` is whether the lookup of
   * the username found a user. It accepts exactly a filled-in, free name of
   * at least 2 characters with two equal passwords of at least 7.
   */
  function SignupCheck(username: Option<string>, password1: Option<string>, password2: Option<string>, taken: bool): (r: Option<string>)
    ensures r.None? <==> Truthy(username) && Truthy(password1) && password1 == password2 && !taken
                         && |username.value| >= 2 && |password1.value| >= 7
  {
    if !Truthy(username) then Some(UsernameRequired)
    else if !Truthy(password1) then Some(PasswordRequired)
    else if password1 != password2 then Some(PasswordsDiffer)
    else if taken then Some(UsernameTaken)
    else if |username.value| < 2 then Some(UsernameTooShort)
    else if password1 != password2 then Some(PasswordsDiffer)
    else if |password1.value| < 7 then Some(PasswordTooShort)
    else None
  }

  /** The chain of early returns answers exactly the first failing rule of the seven. */
  lemma SignupCheckIsFirstFailing(username: Option<string>, password1: Option<string>, password2: Option<string>, taken: bool)
    ensures SignupCheck(username, password1, password2, taken) == FirstFailing(SignupRules(username, password1, password2, taken))
  {
    var rules := SignupRules(username, password1, password2, taken);
    if !Truthy(username) {
      FirstFailingAt(rules, 0);
    } else if !Truthy(password1) {
      FirstFailingAt(rules, 1);
    } else if password1 != password2 {
      FirstFailingAt(rules, 2);
    } else if taken {
      FirstFailingAt(rules, 3);
    } else if |username.value| < 2 {
      FirstFailingAt(rules, 4);
    } else if |password1.value| < 7 {
      FirstFailingAt(rules, 6);
    } else {
      assert forall i :: 0 <= i < |rules| ==> !rules[i].fails;
    }
  }

  /** The second mismatch check (rule 6) never decides: rule 3 has already answered. */
  lemma SecondMismatchNeverDecides(username: Option<string>, password1: Option<string>, password2: Option<string>, taken: bool)
    ensures FirstFailingIndex(SignupRules(username, password1, password2, taken)) != 5
  {
    var rules := SignupRules(username, password1, password2, taken);
    if rules[5].fails {
      assert rules[2].fails;
    }
  }

  /** Until the first three rules pass, the lookup's answer makes no difference. */
  lemma TakenOnlyAfterFirstThree(username: Option<string>, password1: Option<string>, password2: Option<string>)
    requires !Truthy(username) || !Truthy(password1) || password1 != password2
    ensures SignupCheck(username, password1, password2, true) == SignupCheck(username, password1, password2, false)
  {
  }

  /** Whether the username is taken in the store. */
  predicate Taken(users: seq<UserDoc>, username: Option<string>) {
    username.Some? && FindUser(users, username.value).Some?
  }

  /** The response that ends a signup before the insert: the guard's, or the first failing rule's 400. */
  function SignupRejection(authenticated: bool, host: Option<string>, users: seq<UserDoc>,
                           username: Option<string>, password1: Option<string>, password2: Option<string>): (r: Option<Response>)
    ensures authenticated ==> r == Some(Response(401, RedirectJson("/")))
    ensures !authenticated ==>
              r == (var e := SignupCheck(username, password1, password2, Taken(users, username));
                    if e.Some? then Some(Response(400, ErrorJson(e.value))) else None)
  {
    match CheckNotAuthenticated(SessionRequest(authenticated, host))
    case Reject(resp) => Some(resp)
    case CallNext =>
      var e := SignupCheck(username, password1, password2, Taken(users, username));
      if e.Some? then Some(Response(400, ErrorJson(e.value))) else None
  }

  /** Whether `insertUser` is called and succeeds. */
  predicate SignupInserts(authenticated: bool, host: Option<string>, users: seq<UserDoc>,
                          username: Option<string>, password1: Option<string>, password2: Option<string>, insertThrows: bool) {
    SignupRejection(authenticated, host, users, username, password1, password2).None? && !insertThrows
  }

  /** The answer of the whole POST; `newId` is the id the store assigns. */
  function SignupOutcome(authenticated: bool, host: Option<string>, users: seq<UserDoc>, newId: nat,
                         username: Option<string>, password1: Option<string>, password2: Option<string>,
                         insertThrows: bool, logInOk: bool): (h: Handled)
    ensures h.Sent?
    ensures h.response.status == 201 <==> SignupInserts(authenticated, host, users, username, password1, password2, insertThrows) && logInOk
    ensures h.response.status == 201 ==> h.response.body == UserJson(PublicUser(newId, username.value))
    ensures SignupRejection(authenticated, host, users, username, password1, password2).None? && !(h.response.status == 201)
            ==> h.response == InternalError
  {
    match SignupRejection(authenticated, host, users, username, password1, password2)
    case Some(resp) => Sent(resp)
    case None =>
      if insertThrows || !logInOk then Sent(InternalError)
      else Sent(Response(201, UserJson(PublicUser(newId, username.value))))
  }

  /** Every rejected signup is the guard's 401 or a 400 carrying the first failing rule's message. */
  lemma RejectionIsFirstFailingRule(authenticated: bool, host: Option<string>, users: seq<UserDoc>,
                                    username: Option<string>, password1: Option<string>, password2: Option<string>)
    requires !authenticated
    ensures var r := SignupRejection(authenticated, host, users, username, password1, password2);
            var e := FirstFailing(SignupRules(username, password1, password2, Taken(users, username)));
            (r.None? <==> e.None?) && (r.Some? ==> r.value == Response(400, ErrorJson(e.value)))
  {
    SignupCheckIsFirstFailing(username, password1, password2, Taken(users, username));
  }

  /**
   * Signing up and then logging in with the same name and password finds the
   * new user, whatever the store held before, as long as names were unique
   * and bcrypt accepts a password against its own hash.
   */
  lemma SignupThenLogin(host: Option<string>, users: seq<UserDoc>, newId: nat,
                        username: Option<string>, password1: Option<string>, password2: Option<string>,
                        hash: string -> string, compare: (string, string) -> Reply<bool>)
    requires UniqueUsernames(users)
    requires SignupInserts(false, host, users, username, password1, password2, false)
    requires forall p :: compare(p, hash(p)) == Ok(true)
    ensures var stored := users + [UserDoc(newId, username.value, hash(password1.value))];
            LoginOutcome(false, host, stored, username, password1, None, compare, true)
            == Sent(Response(200, UserJson(PublicUser(newId, username.value))))
  {
    var u := UserDoc(newId, username.value, hash(password1.value));
    FindAppended(users, u);
    var stored := users + [u];
    assert compare(password1.value, u.password) == Ok(true);
    assert Strategy(username, password1, Lookup(stored, username, None), compare) == DoneUser(u);
  }

  /** The chain of checks of the signup POST, with the store lookup between the third and the fourth. */
  method Validate(db: XDatabase, username: Option<string>, password1: Option<string>, password2: Option<string>)
    returns (e: Option<string>)
    requires db.Valid()
    modifies db
    ensures db.Valid() && db.SameContents()
    ensures e == SignupCheck(username, password1, password2, Taken(old(db.users), username))
  {
    if !Truthy(username) {
      return Some(UsernameRequired);
    }
    if !Truthy(password1) {
      return Some(PasswordRequired);
    }
    if password1 != password2 {
      return Some(PasswordsDiffer);
    }
    var user := db.GetUserFromUsername(username.value);
    if user.Some? {
      return Some(UsernameTaken);
    }
    if |username.value| < 2 {
      return Some(UsernameTooShort);
    }
    if password1 != password2 {
      return Some(PasswordsDiffer);
    }
    if |password1.value| < 7 {
      return Some(PasswordTooShort);
    }
    return None;
  }

  /** POST /api/auth/users (signup); `hash` stands for `bcrypt.hash(_, 10)`. */
  method Signup(host: Option<string>, db: XDatabase, s: Session,
                username: Option<string>, password1: Option<string>, password2: Option<string>,
                hash: string -> string, insertThrows: bool, logInFails: bool) returns (h: Handled)
    requires db.Valid()
    modifies db, s
    ensures db.Valid() && db.waifus == old(db.waifus) && db.series == old(db.series)
    ensures h == SignupOutcome(old(s.IsAuthenticated()), host, old(db.users), old(db.nextId),
                               username, password1, password2, insertThrows, !logInFails)
    ensures var inserted := SignupInserts(old(s.IsAuthenticated()), host, old(db.users), username, password1, password2, insertThrows);
            db.users == if inserted then old(db.users) + [UserDoc(old(db.nextId), username.value, hash(password1.value))] else old(db.users)
    ensures var inserted := SignupInserts(old(s.IsAuthenticated()), host, old(db.users), username, password1, password2, insertThrows);
            s.user == if inserted && !logInFails then Some(SessionUser(old(db.nextId))) else old(s.user)
    ensures UniqueUsernames(old(db.users)) ==> UniqueUsernames(db.users)
  {
    var guard := CheckNotAuthenticated(SessionRequest(s.IsAuthenticated(), host));
    if guard.Reject? {
      return Sent(guard.response);
    }
    var e := Validate(db, username, password1, password2);
    if e.Some? {
      return Sent(Response(400, ErrorJson(e.value)));
    }
    var hashed := hash(password1.value);
    if insertThrows {
      return Sent(InternalError);
    }
    var before := db.users;
    var insertedId := db.InsertUser(username.value, hashed);
    if UniqueUsernames(before) {
      InsertKeepsUnique(before, UserDoc(insertedId, username.value, hashed));
    }
    var ok := s.LogIn(UserDoc(insertedId, username.value, hashed), logInFails);
    if !ok {
      return Sent(InternalError);
    }
    h := Sent(Response(201, UserJson(PublicUser(insertedId, username.value))));
  }

  /** DELETE /api/auth/users: the session is destroyed before the store is touched. */
  method DeleteAccount(cfg: GuardConfig, host: Option<string>, db: XDatabase, s: Session, deleteThrows: bool)
    returns (h: Handled)
    requires db.Valid()
    modifies db, s
    ensures db.Valid() && db.waifus == old(db.waifus) && db.series == old(db.series)
    ensures !old(s.IsAuthenticated()) ==>
              h == Sent(Response(401, LoginFirstJson(LoginFirst, LoginRedirect(cfg, host))))
              && s.user == old(s.user) && db.users == old(db.users)
    ensures old(s.IsAuthenticated()) ==> s.user == None
    ensures old(s.IsAuthenticated()) ==>
              db.users == if deleteThrows then old(db.users) else DeleteFirstWithId(old(db.users), old(s.user).value.id)
    ensures old(s.IsAuthenticated()) ==>
              h == if !deleteThrows && exists i :: 0 <= i < |old(db.users)| && old(db.users)[i].id == old(s.user).value.id
                   then Sent(Response(204, NoBody)) else Sent(InternalError)
    ensures UniqueUsernames(old(db.users)) ==> UniqueUsernames(db.users)
  {
    var guard := CheckAuthenticated(cfg, SessionRequest(s.IsAuthenticated(), host));
    if guard.Reject? {
      return Sent(guard.response);
    }
    var id := s.RequestUser().value.id;
    s.Destroy();
    if deleteThrows {
      return Sent(InternalError);
    }
    var before := db.users;
    var deletedCount := db.DeleteUser(id);
    if UniqueUsernames(before) {
      DeleteKeepsUnique(before, id);
    }
    h := if deletedCount == 1 then Sent(Response(204, NoBody)) else Sent(InternalError);
  }
}
