/**
 * The authentication context of components/AuthProvider.tsx: whether the
 * current-user request has answered yet, whether it named a user, and the
 * login referral the guard and the login page share.
 */
module AuthProvider {
  import opened Base
  import opened ClientRuntime

  class AuthState {
    var initializing: bool
    var isAuthenticated: bool
    var loginReferral: string

    constructor ()
      ensures initializing && !isAuthenticated && loginReferral == ""
    {
      initializing := true;
      isAuthenticated := false;
      loginReferral := "";
    }

    /**
     * The effect on the SWR data: nothing until the request answers, then
     * authenticated iff the answer holds a user. Initialisation never restarts.
     */
    method OnData(data: Option<UserData>)
      modifies this`initializing, this`isAuthenticated
      ensures data.None? ==> initializing == old(initializing) && isAuthenticated == old(isAuthenticated)
      ensures data.Some? ==> !initializing && isAuthenticated == data.value.user.Some?
      ensures !old(initializing) ==> !initializing
    {
      if data.None? {
        return;
      }
      isAuthenticated := data.value.user.Some?;
      initializing := false;
    }

    /** `setLoginReferral(r)` */
    method SetLoginReferral(r: string)
      modifies this`loginReferral
      ensures loginReferral == r
    {
      loginReferral := r;
    }
  }
}
