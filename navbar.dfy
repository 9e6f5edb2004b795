/**
 * The navigation bar of components/NavBar.tsx: the href each link gets from
 * the host it is shown on, the list of links it shows, and the live-search
 * state machine behind its search box (loading flag, result list, and the
 * dropdown hidden while scrolling down). `setError` and `router.push` calls
 * are recorded in the state as lists.
 */
module NavBar {
  import opened Base
  import opened Strings
  import opened Http
  import opened AuthGuards
  import opened AppShell
  import opened Database
  import opened LiveSearchApi

  const DevHostSuffix := ".localhost:3000"

  /** `linkHref` of `navBarLink`: `None` is an undefined href. */
  function LinkHref(dev: bool, subdomains: seq<string>, host: string, l: Link): Option<string> {
    if !Truthy(l.href) then l.href
    else
      var href := l.href.value;
      var base := if !Truthy(l.subdomain) then href
                  else if dev then "http://" + l.subdomain.value + DevHostSuffix + href
                  else "https://" + l.subdomain.value + "." + host + href;
      var k := FindPrefixIndex(subdomains, host);
      if l.root && k != -1 then Some("https://" + RemoveFirst(host, subdomains[k] + ".") + href)
      else Some(base)
  }

  /** The rendered `href={linkHref || "#"}`. */
  function RenderedHref(dev: bool, subdomains: seq<string>, host: string, l: Link): string {
    var h := LinkHref(dev, subdomains, host, l);
    if Truthy(h) then h.value else "#"
  }

  /** The click handler calls `preventDefault` exactly when there is no href. */
  predicate PreventsDefault(dev: bool, subdomains: seq<string>, host: string, l: Link) {
    !Truthy(LinkHref(dev, subdomains, host, l))
  }

  /** A link without an href renders "#" and its click does not navigate. */
  lemma LinkWithoutHref(dev: bool, subdomains: seq<string>, host: string, l: Link)
    requires !Truthy(l.href)
    ensures RenderedHref(dev, subdomains, host, l) == "#" && PreventsDefault(dev, subdomains, host, l)
  {
  }

  /** A link with an href always navigates, and never to "#". */
  lemma LinkWithHref(dev: bool, subdomains: seq<string>, host: string, l: Link)
    requires Truthy(l.href)
    ensures !PreventsDefault(dev, subdomains, host, l)
    ensures EndsWith(RenderedHref(dev, subdomains, host, l), l.href.value)
  {
    var href := l.href.value;
    var r := RenderedHref(dev, subdomains, host, l);
    var k := FindPrefixIndex(subdomains, host);
    var pre := if l.root && k != -1 then "https://" + RemoveFirst(host, subdomains[k] + ".")
               else if !Truthy(l.subdomain) then ""
               else if dev then "http://" + l.subdomain.value + DevHostSuffix
               else "https://" + l.subdomain.value + "." + host;
    assert r == pre + href;
    assert r[|r| - |href|..] == href;
  }

  /** A subdomain link (not a root link) points at that subdomain of the local or the current host. */
  lemma SubdomainLinkHref(dev: bool, subdomains: seq<string>, host: string, l: Link)
    requires Truthy(l.href) && Truthy(l.subdomain) && !l.root
    ensures dev ==> RenderedHref(dev, subdomains, host, l) == "http://" + l.subdomain.value + ".localhost:3000" + l.href.value
    ensures !dev ==> RenderedHref(dev, subdomains, host, l) == "https://" + l.subdomain.value + "." + host + l.href.value
  {
  }

  /** A root link shown on `sub.root` (the first listed prefix being `sub`) points at `root`. */
  lemma RootLinkOnSubdomain(dev: bool, subdomains: seq<string>, k: nat, root: string, l: Link)
    requires k < |subdomains| && Truthy(l.href) && l.root
    requires forall i :: 0 <= i < k ==> !StartsWith(subdomains[k] + "." + root, subdomains[i])
    ensures RenderedHref(dev, subdomains, subdomains[k] + "." + root, l) == "https://" + root + l.href.value
  {
    var host := subdomains[k] + "." + root;
    assert StartsWith(host, subdomains[k]) by { assert host[..|subdomains[k]|] == subdomains[k]; }
    assert FindPrefixIndex(subdomains, host) == k;
    assert host == (subdomains[k] + ".") + root;
    PatternFirst(subdomains[k] + ".", root);
  }

  /** A root link on a host that starts with no listed subdomain keeps its plain href. */
  lemma RootLinkElsewhere(dev: bool, subdomains: seq<string>, host: string, l: Link)
    requires Truthy(l.href) && l.root && !Truthy(l.subdomain)
    requires forall i :: 0 <= i < |subdomains| ==> !StartsWith(host, subdomains[i])
    ensures RenderedHref(dev, subdomains, host, l) == l.href.value
  {
  }

  /**
   * On a subdomain host in production, the Login link leads where the
   * server's guard redirects a logged-out request: the same URL.
   */
  lemma LoginLinkMatchesGuardRedirect(subdomains: seq<string>, host: string)
    requires FindPrefixIndex(subdomains, host) != -1
    ensures RenderedHref(false, subdomains, host, LoggedOutLinks[0]) == LoginRedirect(GuardConfig(false, subdomains), Some(host))
  {
  }

  const BaseLinks := [
    Link("Home", Some("/"), None, false, false),
    Link("Blog", Some("/"), Some("blog"), false, false),
    Link("Résumé", Some("/api/files/resume"), None, false, false)
  ]

  const LoggedInLinks := [
    Link("Browse", Some("/waifus/browse"), None, false, false),
    Link("Logout", None, None, false, true)
  ]

  const LoggedOutLinks := [
    Link("Login", Some("/login"), None, true, false),
    Link("Sign Up", Some("/signup"), None, true, false)
  ]

  /** The filter of `navLinks`: a subdomain link is hidden on a host that starts with that subdomain. */
  predicate Shown(host: string, l: Link) {
    !Truthy(l.subdomain) || !StartsWith(host, l.subdomain.value)
  }

  function Candidates(pageLinks: seq<Link>, loggedIn: bool): seq<Link> {
    pageLinks + BaseLinks + (if loggedIn then LoggedInLinks else LoggedOutLinks)
  }

  /** `navLinks`: page links, base links, then the session's links, minus the hidden ones. */
  function NavLinks(pageLinks: seq<Link>, loggedIn: bool, host: string): seq<Link> {
    Keep(Candidates(pageLinks, loggedIn), (l: Link) => Shown(host, l))
  }

  /** A link is rendered iff it is a candidate for this session and not hidden on this host. */
  lemma NavLinksMembers(pageLinks: seq<Link>, loggedIn: bool, host: string, l: Link)
    ensures l in NavLinks(pageLinks, loggedIn, host)
            <==> (l in pageLinks || l in BaseLinks || l in (if loggedIn then LoggedInLinks else LoggedOutLinks))
                 && Shown(host, l)
  {
    KeepMembership(Candidates(pageLinks, loggedIn), (l: Link) => Shown(host, l), l);
  }

  /** The filter keeps the three groups in order: page links first, then base, then session links. */
  lemma NavLinksOrder(pageLinks: seq<Link>, loggedIn: bool, host: string)
    ensures var shown := (l: Link) => Shown(host, l);
            NavLinks(pageLinks, loggedIn, host)
            == Keep(pageLinks, shown) + Keep(BaseLinks, shown)
               + Keep(if loggedIn then LoggedInLinks else LoggedOutLinks, shown)
  {
    var shown := (l: Link) => Shown(host, l);
    var session := if loggedIn then LoggedInLinks else LoggedOutLinks;
    KeepAppend(pageLinks + BaseLinks, session, shown);
    KeepAppend(pageLinks, BaseLinks, shown);
  }

  /** The Blog link is hidden exactly on hosts that start with "blog". */
  lemma BlogLinkShownIff(pageLinks: seq<Link>, loggedIn: bool, host: string)
    requires BaseLinks[1] !in pageLinks
    ensures BaseLinks[1] in NavLinks(pageLinks, loggedIn, host) <==> !StartsWith(host, "blog")
  {
    NavLinksMembers(pageLinks, loggedIn, host, BaseLinks[1]);
  }

  /** A logged-in user sees Browse and Logout; the Login and Sign Up links are not added. */
  lemma SessionLinks(pageLinks: seq<Link>, host: string)
    ensures LoggedInLinks[0] in NavLinks(pageLinks, true, host) && LoggedInLinks[1] in NavLinks(pageLinks, true, host)
    ensures LoggedOutLinks[0] !in pageLinks ==> LoggedOutLinks[0] !in NavLinks(pageLinks, true, host)
    ensures LoggedOutLinks[0] in NavLinks(pageLinks, false, host)
  {
    NavLinksMembers(pageLinks, true, host, LoggedInLinks[0]);
    NavLinksMembers(pageLinks, true, host, LoggedInLinks[1]);
    NavLinksMembers(pageLinks, true, host, LoggedOutLinks[0]);
    NavLinksMembers(pageLinks, false, host, LoggedOutLinks[0]);
  }

  /**
   * The live-search state: `waifus`, `waifusLoading`, `showResults`,
   * `scrollPosition`, `inputFocused`, and the logs of `setError` messages,
   * `router.push` targets and search texts sent.
   */
  datatype SearchState = SearchState(results: seq<SearchRow>, loading: bool, showResults: bool, scrollPosition: int,
                                     inputFocused: bool, errors: seq<string>, pushed: seq<string>, requests: seq<string>)

  const InitialSearch := SearchState([], false, true, 0, false, [], [], [])

  /** `doneTyping`: an empty value is ignored; otherwise loading starts and the text is sent. */
  function DoneTyping(s: SearchState, value: string): SearchState {
    if |value| == 0 then s else s.(loading := true, requests := s.requests + [value])
  }

  /**
   * A reply the bar can act on: a 200 with a JSON body carries rows (the
   * endpoint answers no other JSON with a 200, and spreading an object would
   * throw).
   */
  predicate Readable(r: Response) {
    r.status == 200 && IsJson(r.body) ==> r.body.SearchJson?
  }

  /**
   * What reaches the bar for one request: the limiters' 429 when the quota is
   * used up, otherwise the handler's answer.
   */
  function LiveSearchReceived(overQuota: bool, cfg: GuardConfig, authenticated: bool, host: Option<string>,
                              waifus: seq<Waifu>, text: Option<string>): Response {
    if overQuota then Limited else LiveSearchOutcome(cfg, authenticated, host, waifus, text)
  }

  /**
   * `livesearch` after the reply. A body that is not JSON makes `res.json()`
   * reject, and nothing after it runs, not even `setWaifusLoading(false)`.
   * Otherwise a 200 replaces the rows, and any other status has its message
   * and redirect acted on.
   */
  function OnSearchReply(s: SearchState, r: Response): SearchState
    requires Readable(r)
  {
    if !IsJson(r.body) then s
    else if r.status == 200 then s.(results := r.body.searchRows, loading := false)
    else
      var m := MessageField(r.body);
      var u := RedirectField(r.body);
      s.(errors := s.errors + (if Truthy(m) then [m.value] else []),
         pushed := s.pushed + (if Truthy(u) then [u.value] else []),
         loading := false)
  }

  /** `typingLivesearch`: starting to type empties the list. */
  function TypingLivesearch(s: SearchState): SearchState {
    if |s.results| > 0 then s.(results := []) else s
  }

  /** `checkLiveInput`: a focused input whose value trims to "" empties the list. */
  function CheckLiveInput(s: SearchState, value: string): SearchState {
    if s.inputFocused && Trim(value) == "" then s.(results := []) else s
  }

  function SetFocused(s: SearchState, focused: bool): SearchState {
    s.(inputFocused := focused)
  }

  /** `onScrollPositionChange`: hide the dropdown while scrolling down. */
  function OnScroll(s: SearchState, pos: int): SearchState {
    s.(showResults := !(pos > s.scrollPosition), scrollPosition := pos)
  }

  /** The dropdown renders iff it may show, nothing is loading and there are rows. */
  predicate ResultsVisible(s: SearchState) {
    s.showResults && !s.loading && |s.results| > 0
  }

  /**
   * Everything the bar can receive is readable: the limiters' 429 is plain
   * text, and every answer of the handler with status 200 carries rows.
   */
  lemma EndpointRepliesReadable(overQuota: bool, cfg: GuardConfig, authenticated: bool, host: Option<string>,
                                waifus: seq<Waifu>, text: Option<string>)
    ensures Readable(LiveSearchReceived(overQuota, cfg, authenticated, host, waifus, text))
    ensures overQuota ==> !IsJson(LiveSearchReceived(overQuota, cfg, authenticated, host, waifus, text).body)
    ensures !overQuota ==> IsJson(LiveSearchReceived(overQuota, cfg, authenticated, host, waifus, text).body)
  {
    LiveSearchAnswers(cfg, authenticated, host, waifus, text);
  }

  /** Once a non-empty text is sent the dropdown hides until the reply comes. */
  lemma SendingHidesResults(s: SearchState, value: string)
    requires |value| > 0
    ensures !ResultsVisible(DoneTyping(s, value)) && DoneTyping(s, value).requests == s.requests + [value]
  {
  }

  /**
   * Every JSON reply ends loading; only a 200 changes the rows, and then to
   * the reply's rows. Any other reply changes nothing, not even loading.
   */
  lemma ReplyEndsLoading(s: SearchState, r: Response)
    requires Readable(r)
    ensures IsJson(r.body) ==> !OnSearchReply(s, r).loading
    ensures IsJson(r.body) && r.status == 200 ==> OnSearchReply(s, r).results == r.body.searchRows
    ensures IsJson(r.body) && r.status != 200 ==> OnSearchReply(s, r).results == s.results
    ensures !IsJson(r.body) ==> OnSearchReply(s, r) == s
  {
  }

  /**
   * A search sent once the quota is used up never finishes: the bar keeps
   * loading, so the dropdown stays hidden, until another reply arrives.
   */
  lemma LimitedSearchKeepsLoading(s: SearchState, value: string, cfg: GuardConfig, authenticated: bool,
                                  host: Option<string>, waifus: seq<Waifu>, text: Option<string>)
    requires |value| > 0
    ensures var s2 := OnSearchReply(DoneTyping(s, value), LiveSearchReceived(true, cfg, authenticated, host, waifus, text));
            s2 == DoneTyping(s, value) && s2.loading && !ResultsVisible(s2)
            && s2.errors == s.errors && s2.pushed == s.pushed
  {
  }

  /**
   * A search while logged out: the endpoint's 401 makes the bar show
   * "Please login first." and navigate to the guard's login URL.
   */
  lemma LoggedOutSearch(cfg: GuardConfig, host: Option<string>, waifus: seq<Waifu>, text: Option<string>, s: SearchState)
    ensures var s2 := OnSearchReply(s, LiveSearchOutcome(cfg, false, host, waifus, text));
            s2.errors == s.errors + [LoginFirst]
            && s2.pushed == s.pushed + [LoginRedirect(cfg, host)]
            && s2.results == s.results
  {
    LoginRedirectIsAbsolute(cfg, host);
    LiveSearchAnswers(cfg, false, host, waifus, text);
  }

  /** A 400 answer carries `error`, not `message`: the bar shows nothing and stays on the page. */
  lemma BadRequestIsSilent(cfg: GuardConfig, host: Option<string>, waifus: seq<Waifu>, s: SearchState)
    ensures var s2 := OnSearchReply(s, LiveSearchOutcome(cfg, true, host, waifus, Some("")));
            s2.errors == s.errors && s2.pushed == s.pushed
  {
  }

  /** Replies are applied in arrival order: the last reply to arrive decides the rows, whichever request was sent last. */
  lemma LastArrivalWins(s: SearchState, r1: Response, r2: Response)
    requires Readable(r1) && Readable(r2) && r2.status == 200
    ensures IsJson(r2.body) ==> OnSearchReply(OnSearchReply(s, r1), r2).results == r2.body.searchRows
    ensures !IsJson(r2.body) ==> OnSearchReply(OnSearchReply(s, r1), r2) == OnSearchReply(s, r1)
  {
  }

  /** Starting to type always leaves an empty list and touches nothing else. */
  lemma TypingEmpties(s: SearchState)
    ensures TypingLivesearch(s) == s.(results := [])
  {
  }

  /** `checkLiveInput` empties the list exactly for a focused input holding only white space. */
  lemma CheckLiveInputClearsIff(s: SearchState, value: string)
    ensures CheckLiveInput(s, value) == if s.inputFocused && IsBlank(value) then s.(results := []) else s
  {
    TrimEmptyIffBlank(value);
  }

  /** Scrolling down hides the dropdown; scrolling up or staying shows it again if it has rows. */
  lemma ScrollVisibility(s: SearchState, pos: int)
    ensures pos > s.scrollPosition ==> !ResultsVisible(OnScroll(s, pos))
    ensures pos <= s.scrollPosition ==> ResultsVisible(OnScroll(s, pos)) == (!s.loading && |s.results| > 0)
  {
  }

  class NavBarState {
    var results: seq<SearchRow>
    var loading: bool
    var showResults: bool
    var scrollPosition: int
    var inputFocused: bool
    var errors: seq<string>
    var pushed: seq<string>
    var requests: seq<string>

    function State(): SearchState
      reads this
    {
      SearchState(results, loading, showResults, scrollPosition, inputFocused, errors, pushed, requests)
    }

    constructor ()
      ensures State() == InitialSearch
    {
      results, loading, showResults, scrollPosition := [], false, true, 0;
      inputFocused, errors, pushed, requests := false, [], [], [];
    }

    method OnDoneTyping(value: string)
      modifies this
      ensures State() == DoneTyping(old(State()), value)
    {
      if |value| == 0 {
        return;
      }
      loading := true;
      requests := requests + [value];
    }

    /** The continuation of `livesearch` once its reply `r` has arrived. */
    method OnLivesearchReply(r: Response)
      requires Readable(r)
      modifies this
      ensures State() == OnSearchReply(old(State()), r)
    {
      if !IsJson(r.body) {
        return;
      }
      if r.status == 200 {
        results := r.body.searchRows;
      } else {
        var m := MessageField(r.body);
        var u := RedirectField(r.body);
        if Truthy(m) {
          errors := errors + [m.value];
        }
        if Truthy(u) {
          pushed := pushed + [u.value];
        }
      }
      loading := false;
    }

    method OnTypingLivesearch()
      modifies this
      ensures State() == TypingLivesearch(old(State()))
    {
      if |results| > 0 {
        results := [];
      }
    }

    method OnCheckLiveInput(value: string)
      modifies this
      ensures State() == CheckLiveInput(old(State()), value)
    {
      var clear := inputFocused && Trim(value) == "";
      if clear {
        results := [];
      }
    }

    method OnFocusChange(focused: bool)
      modifies this
      ensures State() == SetFocused(old(State()), focused)
    {
      inputFocused := focused;
    }

    method OnScrollPositionChange(pos: int)
      modifies this
      ensures State() == OnScroll(old(State()), pos)
    {
      showResults := !(pos > scrollPosition);
      scrollPosition := pos;
    }

    method ShowsResults() returns (visible: bool)
      ensures visible == ResultsVisible(State())
    {
      visible := showResults && !loading && |results| > 0;
    }
  }
}
