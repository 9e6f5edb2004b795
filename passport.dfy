/**
 * The local strategy of lib/auth/passport.ts: the verify callback that
 * decides a login from the user lookup and the password comparison, the
 * session (de)serialisation, and the session object that passport's
 * `req.logIn` and next-session's `destroy` update.
 */
module Passport {
  import opened Base
  import opened Strings
  import opened Database

  const NoSuchUser := "There is no user with that username."
  const WrongPassword := "Incorrect Password."
  /** passport-local's answer when the username or password field is missing or empty. */
  const MissingCredentials := "Missing credentials"

  /** The single call of `done`: `done(err)`, `done(null, false, { message })` or `done(null, user)`. */
  datatype Done = DoneError(error: string) | DoneFail(message: string) | DoneUser(user: UserDoc)

  /**
   * `authenticateUser`: `lookup` is the awaited `getUserFromUsername`, and
   * `compare(password, hash)` stands for `bcrypt.compare`, which is only
   * consulted when a user was found.
   */
  function Verify(lookup: Reply<Option<UserDoc>>, password: string, compare: (string, string) -> Reply<bool>): (d: Done)
    ensures d.DoneUser? <==> lookup.Ok? && lookup.value.Some? && compare(password, lookup.value.value.password) == Ok(true)
    ensures d.DoneUser? ==> d.user == lookup.value.value
    ensures d.DoneError? <==> lookup.Threw? || (lookup.value.Some? && compare(password, lookup.value.value.password).Threw?)
    ensures d.DoneError? && lookup.Threw? ==> d.error == lookup.error
    ensures d == DoneFail(NoSuchUser) <==> lookup == Ok(None)
    ensures d == DoneFail(WrongPassword) <==> lookup.Ok? && lookup.value.Some? && compare(password, lookup.value.value.password) == Ok(false)
  {
    match lookup
    case Threw(e) => DoneError(e)
    case Ok(None) => DoneFail(NoSuchUser)
    case Ok(Some(u)) =>
      match compare(password, u.password)
      case Threw(e) => DoneError(e)
      case Ok(false) => DoneFail(WrongPassword)
      case Ok(true) => DoneUser(u)
  }

  /** Without a user there is no comparison: the verdict is the same whatever `compare` does. */
  lemma UnknownUserSkipsCompare(lookup: Reply<Option<UserDoc>>, password: string, c1: (string, string) -> Reply<bool>, c2: (string, string) -> Reply<bool>)
    requires lookup.Threw? || lookup == Ok(None)
    ensures Verify(lookup, password, c1) == Verify(lookup, password, c2)
  {
  }

  /** bcrypt's comparison against a deterministic hash: `compare(p, h)` holds iff `hash(p) == h`. */
  function HashCompare(hash: string -> string): (string, string) -> Reply<bool> {
    (p: string, h: string) => Ok(hash(p) == h)
  }

  /**
   * Over a store with unique usernames, and a comparison that never throws,
   * the strategy accepts exactly the stored user with that name whose stored
   * hash is the hash of the given password.
   */
  lemma VerifyAgainstStore(users: seq<UserDoc>, username: string, password: string, hash: string -> string, u: UserDoc)
    requires UniqueUsernames(users)
    ensures Verify(Ok(FindUser(users, username)), password, HashCompare(hash)) == DoneUser(u)
            <==> u in users && u.username == username && u.password == hash(password)
  {
    if u in users && u.username == username {
      var i :| 0 <= i < |users| && users[i] == u;
      FindUserOfUnique(users, username, i);
    }
  }

  /** In a store with unique usernames, the lookup finds the one user with that name. */
  lemma {:induction false} FindUserOfUnique(users: seq<UserDoc>, username: string, i: nat)
    requires UniqueUsernames(users)
    requires i < |users| && users[i].username == username
    ensures FindUser(users, username) == Some(users[i])
  {
    if i > 0 {
      assert users[0].username != username;
      FindUserOfUnique(users[1..], username, i - 1);
    }
  }

  /**
   * passport-local's strategy: it refuses a missing or empty field before
   * the verify callback runs; otherwise the verdict is `Verify`'s.
   */
  function Strategy(username: Option<string>, password: Option<string>,
                    lookup: Reply<Option<UserDoc>>, compare: (string, string) -> Reply<bool>): (d: Done)
    ensures !Truthy(username) || !Truthy(password) ==> d == DoneFail(MissingCredentials)
    ensures Truthy(username) && Truthy(password) ==> d == Verify(lookup, password.value, compare)
  {
    if !Truthy(username) || !Truthy(password) then DoneFail(MissingCredentials)
    else Verify(lookup, password.value, compare)
  }

  /** What the session stores about a user: `{ id: user._id }`. */
  datatype SessionUser = SessionUser(id: nat)

  function SerializeUser(u: UserDoc): (s: SessionUser)
    ensures s.id == u.id
  {
    SessionUser(u.id)
  }

  /** `deserializeUser` hands the stored value back as `req.user`, unchanged. */
  function DeserializeUser(s: SessionUser): (r: SessionUser)
    ensures r == s
  {
    s
  }

  /** After a login, `req.user.id` on later requests is the logged-in user's `_id`. */
  lemma SessionRoundTrip(u: UserDoc)
    ensures DeserializeUser(SerializeUser(u)).id == u.id
  {
  }

  /** The per-request session: the user passport stored in it, if any. */
  class Session {
    var user: Option<SessionUser>

    constructor ()
      ensures user == None
    {
      user := None;
    }

    /** `req.isAuthenticated()` */
    predicate IsAuthenticated()
      reads this
    {
      user.Some?
    }

    /** `req.user` as deserialised for the current request. */
    function RequestUser(): (r: Option<SessionUser>)
      reads this
      ensures r.Some? <==> IsAuthenticated()
    {
      match user
      case None => None
      case Some(s) => Some(DeserializeUser(s))
    }

    /** `req.logIn(user, cb)`; `fails` is an error passed to the callback. */
    method LogIn(u: UserDoc, fails: bool) returns (ok: bool)
      modifies this
      ensures ok == !fails
      ensures user == if ok then Some(SerializeUser(u)) else old(user)
    {
      if fails {
        return false;
      }
      user := Some(SerializeUser(u));
      return true;
    }

    /** `req.session.destroy()` */
    method Destroy()
      modifies this
      ensures user == None && !IsAuthenticated()
    {
      user := None;
    }
  }
}
