/**
 * The two client-side collaborators the pages drive: Next's router, reduced
 * to the current path and the list of `router.push` targets, and SWR's cache
 * of the current-user request, reduced to what `mutate` last stored.
 */
module ClientRuntime {
  import opened Base
  import opened Http

  class Router {
    var asPath: string
    var pushed: seq<string>

    constructor (asPath: string)
      ensures this.asPath == asPath && pushed == []
    {
      this.asPath := asPath;
      pushed := [];
    }

    /** `router.push(url)`; the navigation itself completes later and is not modelled. */
    method Push(url: string)
      modifies this`pushed
      ensures pushed == old(pushed) + [url]
    {
      pushed := pushed + [url];
    }
  }

  /** The `{ user }` object of `/api/auth/user`: `None` is a null or undefined user. */
  datatype UserData = UserData(user: Option<PublicUser>)

  class UserCache {
    /** The cached data, `None` while the request has not answered. */
    var data: Option<UserData>

    constructor ()
      ensures data == None
    {
      data := None;
    }

    /** `mutate({ user })` */
    method Mutate(user: Option<PublicUser>)
      modifies this
      ensures data == Some(UserData(user))
    {
      data := Some(UserData(user));
    }
  }
}
