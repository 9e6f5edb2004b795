/**
 * The route guards of lib/auth/middleware.ts. `checkAuthenticated` lets an
 * authenticated request through and otherwise answers 401 with a login URL
 * on the root domain; `checkNotAuthenticated` lets an unauthenticated
 * request through and otherwise answers 401 with a redirect to "/".
 */
module AuthGuards {
  import opened Base
  import opened Strings
  import opened Http

  /** `dev` and `subdomains` from the configuration. */
  datatype GuardConfig = GuardConfig(dev: bool, subdomains: seq<string>)

  /** What a guard sees of a request: passport's two predicates and the host header. */
  datatype GuardRequest = GuardRequest(isAuthenticated: bool, isUnauthenticated: bool, host: Option<string>)

  /** Either `next()` is called (and nothing is written) or one response is sent. */
  datatype GuardResult = CallNext | Reject(response: Response)

  const LoginFirst := "Please login first."

  /**
   * The login URL of a rejection. In production the first configured
   * subdomain that the host merely starts with is chosen, and the first
   * occurrence of "{subdomain}." anywhere in the host is removed; an absent
   * host interpolates as "undefined".
   */
  function LoginRedirect(cfg: GuardConfig, host: Option<string>): string {
    if cfg.dev then "http://localhost:3000/login"
    else
      var index := if host.Some? then FindPrefixIndex(cfg.subdomains, host.value) else -1;
      if index == -1 then "https://" + Interpolate(host) + "/login"
      else "https://" + RemoveFirst(host.value, cfg.subdomains[index] + ".") + "/login"
  }

  /** Every login URL is absolute: it starts with "http". */
  lemma LoginRedirectIsAbsolute(cfg: GuardConfig, host: Option<string>)
    ensures StartsWith(LoginRedirect(cfg, host), "http")
  {
    var r := LoginRedirect(cfg, host);
    if !cfg.dev {
      var index := if host.Some? then FindPrefixIndex(cfg.subdomains, host.value) else -1;
      var rest := if index == -1 then Interpolate(host) else RemoveFirst(host.value, cfg.subdomains[index] + ".");
      assert r == "https://" + rest + "/login";
    }
    assert r[..4] == "http";
  }

  function CheckAuthenticated(cfg: GuardConfig, req: GuardRequest): (r: GuardResult)
    ensures r.CallNext? <==> req.isAuthenticated
    ensures r.Reject? ==> r.response == Response(401, LoginFirstJson(LoginFirst, LoginRedirect(cfg, req.host)))
  {
    if req.isAuthenticated then CallNext
    else Reject(Response(401, LoginFirstJson(LoginFirst, LoginRedirect(cfg, req.host))))
  }

  function CheckNotAuthenticated(req: GuardRequest): (r: GuardResult)
    ensures r.CallNext? <==> req.isUnauthenticated
    ensures r.Reject? ==> r.response == Response(401, RedirectJson("/"))
  {
    if req.isUnauthenticated then CallNext else Reject(Response(401, RedirectJson("/")))
  }

  /** When passport's two predicates are each other's negation, exactly one guard passes. */
  lemma ExactlyOneGuardPasses(cfg: GuardConfig, req: GuardRequest)
    requires req.isUnauthenticated == !req.isAuthenticated
    ensures CheckAuthenticated(cfg, req).CallNext? != CheckNotAuthenticated(req).CallNext?
  {
  }

  /** In dev mode every rejection points at the local login page, whatever the host. */
  lemma DevRedirect(subdomains: seq<string>, host: Option<string>)
    ensures LoginRedirect(GuardConfig(true, subdomains), host) == "http://localhost:3000/login"
  {
  }

  /** A host starting with no configured subdomain is kept as it is. */
  lemma RootHostRedirect(subdomains: seq<string>, host: string)
    requires forall i :: 0 <= i < |subdomains| ==> !StartsWith(host, subdomains[i])
    ensures LoginRedirect(GuardConfig(false, subdomains), Some(host)) == "https://" + host + "/login"
  {
  }

  /** A missing host header yields the literal "https://undefined/login". */
  lemma MissingHostRedirect(subdomains: seq<string>)
    ensures LoginRedirect(GuardConfig(false, subdomains), None) == "https://undefined/login"
  {
  }

  /**
   * "{sub}.{root}" where `sub` is the first configured subdomain the host
   * starts with: the login URL is on "{root}".
   */
  lemma SubdomainHostRedirect(subdomains: seq<string>, k: nat, root: string)
    requires k < |subdomains|
    requires forall i :: 0 <= i < k ==> !StartsWith(subdomains[k] + "." + root, subdomains[i])
    ensures LoginRedirect(GuardConfig(false, subdomains), Some(subdomains[k] + "." + root))
            == "https://" + root + "/login"
  {
    var host := subdomains[k] + "." + root;
    assert StartsWith(host, subdomains[k]) by { assert host[..|subdomains[k]|] == subdomains[k]; }
    assert FindPrefixIndex(subdomains, host) == k;
    assert host == (subdomains[k] + ".") + root;
    PatternFirst(subdomains[k] + ".", root);
  }

  /**
   * The prefix test is `startsWith`, not a label match: a host that starts
   * with a subdomain but never contains "{sub}." (such as "blogger.example.com"
   * for "blog") is kept as it is.
   */
  lemma PrefixWithoutDotRedirect(subdomains: seq<string>, host: string)
    requires FindPrefixIndex(subdomains, host) >= 0
    requires forall i :: !OccursAt(host, subdomains[FindPrefixIndex(subdomains, host)] + ".", i)
    ensures LoginRedirect(GuardConfig(false, subdomains), Some(host)) == "https://" + host + "/login"
  {
    RemoveAbsent(host, subdomains[FindPrefixIndex(subdomains, host)] + ".");
  }
}
