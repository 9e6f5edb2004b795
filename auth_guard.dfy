/**
 * The route guard of components/AuthGuard.tsx: what it renders from the
 * authentication context, and its effect, which sends a logged-out visitor
 * to the login page after recording where they were going.
 */
module AuthGuard {
  import opened Base
  import opened ClientRuntime
  import opened AuthProvider

  datatype View = LoadingView | ChildrenView | NothingView

  /** The effect's condition: the context has settled on "logged out". */
  predicate Redirects(initializing: bool, isAuthenticated: bool) {
    !initializing && !isAuthenticated
  }

  /** The render: the loading view while initialising, else the children iff authenticated. */
  function Render(initializing: bool, isAuthenticated: bool): (v: View)
    ensures v == LoadingView <==> initializing
    ensures v == ChildrenView <==> !initializing && isAuthenticated
  {
    if initializing then LoadingView
    else if isAuthenticated then ChildrenView else NothingView
  }

  /**
   * The render and the effect agree: the guard renders nothing exactly when
   * it redirects, and never shows the children of a page it redirects away
   * from.
   */
  lemma NothingIffRedirect(initializing: bool, isAuthenticated: bool)
    ensures Render(initializing, isAuthenticated) == NothingView <==> Redirects(initializing, isAuthenticated)
    ensures Redirects(initializing, isAuthenticated) ==> Render(initializing, isAuthenticated) != ChildrenView
  {
  }

  /** The effect on `[initializing, isAuthenticated]`. */
  method Effect(auth: AuthState, router: Router)
    modifies auth`loginReferral, router`pushed
    ensures Redirects(auth.initializing, auth.isAuthenticated) ==>
              auth.loginReferral == router.asPath && router.pushed == old(router.pushed) + ["/login"]
    ensures !Redirects(auth.initializing, auth.isAuthenticated) ==>
              auth.loginReferral == old(auth.loginReferral) && router.pushed == old(router.pushed)
  {
    if !auth.initializing && !auth.isAuthenticated {
      auth.SetLoginReferral(router.asPath);
      router.Push("/login");
    }
  }
}
