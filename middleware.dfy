/**
 * The edge router of middleware.ts: it classifies the `Host` header into a
 * subdomain (tenant) and rewrites the request to that tenant's namespace,
 * redirects a visitor holding a session cookie away from the auth forms, or
 * rewrites to the default `/home` namespace. The `config.matcher` predicate
 * says which paths the router runs on at all.
 */
module HostRouter {
  import opened Base
  import opened Strings

  /** `dev` and `subdomains` from the configuration, and the production hostnames. */
  datatype Deployment = Deployment(dev: bool, subdomains: seq<string>, hostnames: seq<string>)

  /**
   * The production hostnames, in the order the classifier visits them: the
   * Vercel deployment host, the Vercel git-branch host, the public domain.
   */
  function Hostnames(projectName: string, username: string, domain: string): (r: seq<string>)
    ensures |r| == 3 && r[2] == domain
    ensures r[0] == projectName + "-" + username + ".vercel.app"
    ensures r[1] == projectName + "-git-master-" + username + ".vercel.app"
  {
    [projectName + "-" + username + ".vercel.app",
     projectName + "-git-master-" + username + ".vercel.app",
     domain]
  }

  const DevSuffix := ".localhost:3000"

  /** Dev mode: the host with its first ".localhost:3000" removed. */
  function DevSubdomain(host: string): string {
    RemoveFirst(host, DevSuffix)
  }

  /** A dot-free tenant in front of ".localhost:3000" is exactly what dev mode yields. */
  lemma DevLabel(tenant: string)
    requires '.' !in tenant
    ensures DevSubdomain(tenant + DevSuffix) == tenant
  {
    LabelThenPattern(tenant, DevSuffix);
  }

  /** The bare dev host has no ".localhost:3000" in it and is kept unchanged. */
  lemma DevBareHost()
    ensures DevSubdomain("localhost:3000") == "localhost:3000"
  {
    TooLongAbsent("localhost:3000", DevSuffix);
  }

  /**
   * Prod mode, as a specification: every hostname the host ends with
   * overwrites the result with the host minus the first ".{hostname}", so the
   * LAST matching hostname in the list decides; with no match the result is "".
   */
  function ProdSubdomainOf(host: string, hostnames: seq<string>): string
    decreases |hostnames|
  {
    if hostnames == [] then ""
    else
      var h := hostnames[|hostnames| - 1];
      if EndsWith(host, h) then RemoveFirst(host, "." + h)
      else ProdSubdomainOf(host, hostnames[..|hostnames| - 1])
  }

  /** No hostname is a suffix of the host: the prod subdomain is "". */
  lemma {:induction false} ProdNoMatch(host: string, hostnames: seq<string>)
    requires forall i :: 0 <= i < |hostnames| ==> !EndsWith(host, hostnames[i])
    ensures ProdSubdomainOf(host, hostnames) == ""
  {
    if hostnames != [] {
      ProdNoMatch(host, hostnames[..|hostnames| - 1]);
    }
  }

  /** The last hostname the host ends with decides the prod subdomain. */
  lemma {:induction false} ProdLastMatch(host: string, hostnames: seq<string>, k: nat)
    requires k < |hostnames| && EndsWith(host, hostnames[k])
    requires forall j :: k < j < |hostnames| ==> !EndsWith(host, hostnames[j])
    ensures ProdSubdomainOf(host, hostnames) == RemoveFirst(host, "." + hostnames[k])
  {
    if k < |hostnames| - 1 {
      var init := hostnames[..|hostnames| - 1];
      assert !EndsWith(host, hostnames[|hostnames| - 1]);
      ProdLastMatch(host, init, k);
    }
  }

  /** A dot-free tenant in front of the deciding hostname is exactly what prod mode yields. */
  lemma ProdLabel(tenant: string, hostnames: seq<string>, k: nat)
    requires k < |hostnames| && '.' !in tenant
    requires forall j :: k < j < |hostnames| ==> !EndsWith(tenant + "." + hostnames[k], hostnames[j])
    ensures ProdSubdomainOf(tenant + "." + hostnames[k], hostnames) == tenant
  {
    var h := hostnames[k];
    var host := tenant + "." + h;
    assert host == tenant + ("." + h);
    assert EndsWith(host, h) by { assert host[|host| - |h|..] == h; }
    ProdLastMatch(host, hostnames, k);
    LabelThenPattern(tenant, "." + h);
  }

  /** A dot in front of a dot-free project name stops the deployment host from ending with the git-branch host. */
  lemma DeploymentHostIsNotGitHost(tenant: string, projectName: string, username: string, domain: string)
    requires '.' !in projectName
    ensures var hs := Hostnames(projectName, username, domain);
            !EndsWith(tenant + "." + hs[0], hs[1])
  {
    var hs := Hostnames(projectName, username, domain);
    var host := tenant + "." + hs[0];
    var g := hs[1];
    if |g| <= |host| {
      var off := |host| - |g|;
      assert off + 10 == |tenant|;
      assert g[10] != '.' by {
        if |projectName| > 10 {
          assert g[10] == projectName[10];
        } else {
          assert g[10] == ("-git-master-" + username + ".vercel.app")[10 - |projectName|];
        }
      }
      assert host[|tenant|] == '.';
      assert host[off..][10] != g[10];
    }
  }

  /**
   * On the deployed hostnames: a tenant in front of the public domain is
   * always recognised, since the domain is visited last. A tenant in front
   * of a Vercel host is recognised unless the public domain is a suffix of
   * that host; a dot-free project name keeps the deployment host from ending
   * with the git-branch host.
   */
  lemma DeployedTenantLabel(tenant: string, projectName: string, username: string, domain: string, k: nat)
    requires '.' !in tenant && '.' !in projectName && k < 3
    requires k < 2 ==> !EndsWith(tenant + "." + Hostnames(projectName, username, domain)[k], domain)
    ensures var hs := Hostnames(projectName, username, domain);
            ProdSubdomainOf(tenant + "." + hs[k], hs) == tenant
  {
    var hs := Hostnames(projectName, username, domain);
    if k == 0 {
      DeploymentHostIsNotGitHost(tenant, projectName, username, domain);
    }
    ProdLabel(tenant, hs, k);
  }

  /** The `forEach` loop of the prod classifier, reassigning `ret` on every match. */
  method ProdSubdomain(host: string, hostnames: seq<string>) returns (ret: string)
    ensures ret == ProdSubdomainOf(host, hostnames)
  {
    ret := "";
    for i := 0 to |hostnames|
      invariant ret == ProdSubdomainOf(host, hostnames[..i])
    {
      assert hostnames[..i + 1][..i] == hostnames[..i];
      if EndsWith(host, hostnames[i]) {
        ret := RemoveFirst(host, "." + hostnames[i]);
      }
    }
    assert hostnames[..|hostnames|] == hostnames;
  }

  /** The subdomain the router derives from a present host header. */
  function SubdomainOf(d: Deployment, host: string): string {
    if d.dev then DevSubdomain(host) else ProdSubdomainOf(host, d.hostnames)
  }

  /** `NextResponse.rewrite(url)` or `NextResponse.redirect(url)`, with the final pathname. */
  datatype Decision = Rewrite(pathname: string) | Redirect(pathname: string)

  /**
   * The routing decision for a request with the given host header, pathname
   * and presence of an "sid" cookie.
   */
  function Route(d: Deployment, host: Option<string>, path: string, hasSid: bool): (r: Decision)
    ensures !Truthy(host) ==> r == Rewrite("/404")
    ensures Truthy(host) && SubdomainOf(d, host.value) in d.subdomains ==>
              r == Rewrite("/" + SubdomainOf(d, host.value) + path)
    ensures r.Redirect? <==>
              Truthy(host) && SubdomainOf(d, host.value) !in d.subdomains
              && path in ["/login", "/signup"] && hasSid
    ensures r.Redirect? ==> r.pathname == "/"
    ensures r.Rewrite? && Truthy(host) && SubdomainOf(d, host.value) !in d.subdomains ==>
              r.pathname == "/home" + path
  {
    if !Truthy(host) then Rewrite("/404")
    else
      var sub := SubdomainOf(d, host.value);
      if sub in d.subdomains then Rewrite("/" + sub + path)
      else if path in ["/login", "/signup"] && hasSid then Redirect("/")
      else Rewrite("/home" + path)
  }

  /** A recognised tenant is rewritten whatever the cookies say. */
  lemma TenantIgnoresCookie(d: Deployment, host: string, path: string)
    requires SubdomainOf(d, host) in d.subdomains
    ensures Route(d, Some(host), path, true) == Route(d, Some(host), path, false)
    ensures Route(d, Some(host), path, true).Rewrite?
  {
  }

  /** Dev mode: "{tenant}.localhost:3000" for a recognised tenant goes to "/{tenant}{path}". */
  lemma DevTenantRoute(d: Deployment, tenant: string, path: string, hasSid: bool)
    requires d.dev && '.' !in tenant && tenant in d.subdomains
    ensures Route(d, Some(tenant + DevSuffix), path, hasSid) == Rewrite("/" + tenant + path)
  {
    DevLabel(tenant);
  }

  /** Prod mode: "{tenant}.{hostname}" for a recognised tenant goes to "/{tenant}{path}". */
  lemma ProdTenantRoute(d: Deployment, tenant: string, k: nat, path: string, hasSid: bool)
    requires !d.dev && k < |d.hostnames| && '.' !in tenant && tenant in d.subdomains
    requires forall j :: k < j < |d.hostnames| ==> !EndsWith(tenant + "." + d.hostnames[k], d.hostnames[j])
    ensures Route(d, Some(tenant + "." + d.hostnames[k]), path, hasSid) == Rewrite("/" + tenant + path)
  {
    ProdLabel(tenant, d.hostnames, k);
  }

  /**
   * Prod mode: a host under none of the hostnames (say "evil.attacker.com")
   * is never taken for a tenant, unless "" itself were a configured subdomain.
   */
  lemma ForeignHostRoute(d: Deployment, host: string, path: string, hasSid: bool)
    requires !d.dev && "" !in d.subdomains && host != ""
    requires forall i :: 0 <= i < |d.hostnames| ==> !EndsWith(host, d.hostnames[i])
    ensures Route(d, Some(host), path, hasSid) ==
              if path in ["/login", "/signup"] && hasSid then Redirect("/") else Rewrite("/home" + path)
  {
    ProdNoMatch(host, d.hostnames);
  }

  /** The request URL; the router only changes its pathname. */
  class NextUrl {
    var pathname: string

    constructor (pathname: string)
      ensures this.pathname == pathname
    {
      this.pathname := pathname;
    }
  }

  datatype ResponseKind = RewriteTo | RedirectTo

  /**
   * `middleware(req)`: classifies the host, mutates `url.pathname` in place
   * and answers with exactly one rewrite or one redirect of that URL.
   */
  method Middleware(d: Deployment, host: Option<string>, url: NextUrl, hasSid: bool)
    returns (kind: ResponseKind)
    modifies url
    ensures url.pathname == Route(d, host, old(url.pathname), hasSid).pathname
    ensures kind == RedirectTo <==> Route(d, host, old(url.pathname), hasSid).Redirect?
  {
    if !Truthy(host) {
      url.pathname := "/404";
      return RewriteTo;
    }
    var h := host.value;
    var subdomain;
    if d.dev {
      subdomain := DevSubdomain(h);
    } else {
      subdomain := ProdSubdomain(h, d.hostnames);
    }
    if subdomain in d.subdomains {
      url.pathname := "/" + subdomain + url.pathname;
      return RewriteTo;
    }
    if url.pathname in ["/login", "/signup"] && hasSid {
      url.pathname := "/";
      return RedirectTo;
    }
    url.pathname := "/home" + url.pathname;
    return RewriteTo;
  }

  /* ---------------------------- config.matcher ---------------------------- */

  /** `\w` in a JavaScript regular expression. */
  predicate IsWordChar(c: char) {
    ('a' <= c <= 'z') || ('A' <= c <= 'Z') || ('0' <= c <= '9') || c == '_'
  }

  predicate IsWordOrDash(c: char) {
    IsWordChar(c) || c == '-'
  }

  /** Characters `.` does not match. */
  predicate IsLineTerminator(c: char) {
    c == '\n' || c == '\r' || c == '\U{2028}' || c == '\U{2029}'
  }

  /** Length of the longest prefix of `t` made of `[\w-]` characters. */
  function WordDashRun(t: string): (k: nat)
    ensures k <= |t|
    ensures forall j :: 0 <= j < k ==> IsWordOrDash(t[j])
    ensures k < |t| ==> !IsWordOrDash(t[k])
  {
    if t == [] || !IsWordOrDash(t[0]) then 0 else 1 + WordDashRun(t[1..])
  }

  /** `t` opens with `k` characters of `[\w-]`, a dot and a `\w` character. */
  predicate FileNameAt(t: string, k: int) {
    1 <= k && k + 1 < |t| && t[k] == '.' && IsWordChar(t[k + 1])
    && forall j :: 0 <= j < k ==> IsWordOrDash(t[j])
  }

  /** The lookahead `[\w-]+\.\w+` matches at the start of `t`, as a regular-expression search would find it. */
  ghost predicate FileNameAheadSpec(t: string) {
    exists k :: FileNameAt(t, k)
  }

  /** The same lookahead, decided by one scan: the dot must end the `[\w-]` run. */
  predicate FileNameAhead(t: string) {
    var k := WordDashRun(t);
    1 <= k && k + 1 < |t| && t[k] == '.' && IsWordChar(t[k + 1])
  }

  lemma FileNameAheadCorrect(t: string)
    ensures FileNameAhead(t) <==> FileNameAheadSpec(t)
  {
    var k := WordDashRun(t);
    if FileNameAheadSpec(t) {
      var k' :| FileNameAt(t, k');
      assert !IsWordOrDash(t[k']);
      assert k == k';
    }
    if FileNameAhead(t) {
      assert FileNameAt(t, k);
    }
  }

  /** The negative lookahead `(?!api|_next|fonts|images|[\w-]+\.\w+)` fails. */
  predicate Excluded(t: string) {
    StartsWith(t, "api") || StartsWith(t, "_next") || StartsWith(t, "fonts")
    || StartsWith(t, "images") || FileNameAhead(t)
  }

  /**
   * `config.matcher` "/((?!api|_next|fonts|images|[\w-]+\.\w+).*)": the router
   * runs on a path that is "/" followed by text that starts with none of the
   * excluded names and no file name, and has no line terminator.
   */
  predicate MatcherApplies(path: string) {
    |path| >= 1 && path[0] == '/' && !Excluded(path[1..])
    && forall i :: 1 <= i < |path| ==> !IsLineTerminator(path[i])
  }

  /** The exclusions are prefix tests: "/apiary" is skipped just like "/api/auth". */
  lemma MatcherSkipsApiPrefix(rest: string)
    ensures !MatcherApplies("/api" + rest)
  {
    assert ("/api" + rest)[1..] == "api" + rest;
    assert ("api" + rest)[..3] == "api";
  }

  /** A root file such as "/favicon.ico" is skipped. */
  lemma MatcherSkipsRootFile(name: string, ext: string)
    requires |name| >= 1 && |ext| >= 1
    requires forall j :: 0 <= j < |name| ==> IsWordOrDash(name[j])
    requires IsWordChar(ext[0])
    ensures !MatcherApplies("/" + name + "." + ext)
  {
    var t := name + "." + ext;
    assert ("/" + name + "." + ext)[1..] == t;
    assert t[|name|] == '.' && t[|name| + 1] == ext[0];
    assert forall j :: 0 <= j < |name| ==> t[j] == name[j];
    FileNameAheadCorrect(t);
    assert FileNameAheadSpec(t);
  }
}
