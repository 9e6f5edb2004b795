/**
 * The application shell of components/App.tsx: the error shown by the
 * navigation bar, the links a page contributes to it, and the latch that
 * lets a page set its links once per route.
 */
module AppShell {
  import opened Base

  /** A navigation link (`Link` of components/App.tsx); `callback` is whether a click handler is given. */
  datatype Link = Link(name: string, href: Option<string>, subdomain: Option<string>, root: bool, callback: bool)

  /**
   * The error passed to the navigation bar. `toggle` flips on every
   * `setError`, so that the same message twice is still a new value.
   */
  datatype NavBarError = NavBarError(message: Option<string>, toggle: bool)

  class App {
    var error: NavBarError
    var links: seq<Link>
    var loginReferral: string
    var lastRoute: string
    var mounting: bool

    constructor ()
      ensures error == NavBarError(Some(""), false) && links == [] && loginReferral == ""
      ensures lastRoute == "" && mounting
    {
      error := NavBarError(Some(""), false);
      links := [];
      loginReferral := "";
      lastRoute := "";
      mounting := true;
    }

    /** `setError(err)`: a new error value even when the message repeats. */
    method SetError(err: Option<string>)
      modifies this`error
      ensures error.message == err && error.toggle == !old(error.toggle)
      ensures error != old(error)
    {
      error := NavBarError(err, !error.toggle);
    }

    /** `setLinks(ls)` on the route `asPath`: only the first call after a route change has an effect. */
    method SetLinks(ls: seq<Link>, asPath: string)
      modifies this
      ensures error == old(error) && loginReferral == old(loginReferral)
      ensures !old(mounting) ==> links == old(links) && mounting == old(mounting) && lastRoute == old(lastRoute)
      ensures old(mounting) ==> links == ls && !mounting && lastRoute == asPath
    {
      if !mounting {
        return;
      }
      links := ls;
      mounting := false;
      lastRoute := asPath;
    }

    /** The effect on `[lastRoute, router.asPath]`: re-arms the latch, and a new route drops the old links. */
    method RouteEffect(asPath: string)
      modifies this
      ensures mounting && error == old(error) && loginReferral == old(loginReferral)
      ensures old(lastRoute) != asPath ==> lastRoute == asPath && links == []
      ensures old(lastRoute) == asPath ==> lastRoute == old(lastRoute) && links == old(links)
    {
      mounting := true;
      if lastRoute != asPath {
        lastRoute := asPath;
        links := [];
      }
    }
  }
}
