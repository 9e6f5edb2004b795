# Waifu browser and tenant router: a Dafny model

This project models the core of a personal website built on Next.js.
An edge router sends each request to a tenant namespace picked from its
`Host` header. A small API, behind Passport's local strategy, handles login,
logout, signup and account deletion against a MongoDB user collection, plus
two searches over a waifu collection. On the client, React components keep
the navigation bar, the debounced search input, the authentication guard and
the browse, login and signup pages in step with those endpoints.

Each source file has one module:

- A file whose functions only compute becomes datatypes, functions and lemmas.
- A component or object that updates state becomes a `class`. Each of its
  methods is proved against a pure transition function (`ensures State() ==
  F(old(State()), …)`), and the lemmas are stated about those functions.
- The loops of the source are loops here:
  - the production host classifier: `HostRouter.ProdSubdomain`;
  - the row builder of the browse endpoint: `BrowseApi.BuildRows`.

Collaborators the code calls but does not define are parameters. Each call's
outcome is an explicit value:

- bcrypt's `compare` and `hash`;
- the session's `logIn` callback error;
- a throwing insert, delete or lookup;
- the HTTP reply a page receives.

The configuration (`dev`, `subdomains`, the production hostnames) is a
parameter too, because lib/config is not part of this model. The MongoDB
collections are sequences in collection order. So `findOne` returns the first
matching document, and `$match`/`skip`/`limit` keep that order.

Notes on how the model reads the code:

- `getUserFromUsername` tests a promise. The `!exists` branch of
  lib/api/database.ts:153-155 never runs, and the method returns what
  `findOne` resolves to. `Database.XDatabase.GetUserFromUsername` models that.
- `getWaifusLikeName` always resolves to an array. So the "No results found"
  answer of pages/api/waifus/livesearch.ts:22-24 is never sent
  (`LiveSearchApi.NoResultsNeverAnswered`).
- `insertOne` always returns an ObjectId. So the `!insertedId` branch of
  pages/api/auth/users.ts:49-51 never runs, and ids are natural numbers drawn
  from a counter.
- `parseInt` does not throw. So the "Page must be a number" answer of
  pages/api/waifus/browse.ts:27-31 is never sent; the parsed number is a
  parameter.
- The navigation bar applies live-search replies in arrival order. It does
  not discard stale ones: whichever reply arrives last decides the list
  (`NavBar.LastArrivalWins`).
- On the browse page, name-search results survive only until the next fetch
  of a collection page answers. That page effect runs whenever the current
  page changes, including when a search answered on another page moves back
  to page 1 (`BrowsePage.SearchElsewhereIsReplaced`, `BrowsePage.PagingDropsSearch`).
- Every page reads its reply with `await res.json()`, which rejects on a body
  that is not JSON; the handler then stops there and changes nothing. Two
  kinds of reply are plain text:
  - the rate limiters' answer, status 429, once a window's quota is used
    up (`Http.Limited`);
  - an error handed to `next(err)`, which next-connect's default handler
    answers with status 500 and the error's message (`Http.Delivered`).
  So a live search over the quota leaves the bar loading
  (`NavBar.LimitedSearchKeepsLoading`), and `?page=0` leaves the browse page
  loading (`BrowsePage.PageBelowOneNeverLoads`). A login whose user lookup
  throws neither caches nor navigates (`LoginPage.FailedLookupStops`).
- Of the JSON replies, the login page treats every status other than 401 as
  a login, and the signup page every status other than 400 as a signup. The
  JSON 500 of a failed `req.logIn`, or of a failed insert on signup, therefore
  navigates away with no user (`LoginPage.ServerErrorNavigates`,
  `SignupPage.SignupPageOnOutcome`). So does, on the signup page only, the
  guard's answer to a client that is already logged in
  (`SignupPage.LoggedInSignupGoesHome`); on the login page that answer is a
  401, which shows an empty error and stays (`LoginPage.LoggedInLoginShowsNothing`).
- On the browse page a JSON object in place of the rows (the guard's 401
  once the session has ended) has no `length`: both lists render as empty,
  and as a search reply it makes the page total NaN
  (`BrowsePage.ExpiredSessionShowsNoResults`).
- The `Link` field that components/App.tsx calls `label` is `name` here,
  because `label` is a reserved word in Dafny.
- Helper modules:
  - `Base`: Option, order-preserving filter, `slice` and skip/limit
    arithmetic;
  - `Strings`: JavaScript `startsWith`, `endsWith`, `indexOf`, first-occurrence
    `replace`, `trim`, and MongoDB's ASCII `$toLower`;
  - `Http`: the bodies the handlers send, JSON or plain text.

## Model

| member | source | states |
|---|---|---|
| Http.Delivered | pages/api/auth/index.ts:16-18 | a forwarded error reaches the client as a status-500 plain-text body, which no page can parse as JSON |
| HostRouter.Hostnames | middleware.ts:30-32 | the three production hostnames, in the order the classifier visits them |
| HostRouter.DeploymentHostIsNotGitHost | middleware.ts:30-31 | with a dot-free project name, a tenant of the deployment host never ends with the git-branch host |
| HostRouter.DeployedTenantLabel | middleware.ts:30-56 | a dot-free tenant on the public domain is always recognised; on a Vercel host it is recognised unless the domain is a suffix of that host |
| HostRouter.DevLabel | middleware.ts:44-46 | in dev mode a dot-free tenant in front of ".localhost:3000" is exactly the subdomain found |
| HostRouter.DevBareHost | middleware.ts:44-46 | the bare "localhost:3000" has no ".localhost:3000" in it and is kept whole as the subdomain |
| HostRouter.ProdNoMatch | middleware.ts:48-56 | a host that ends with none of the hostnames yields "" |
| HostRouter.ProdLastMatch | middleware.ts:48-56 | the last hostname the host ends with decides: the host minus the first ".{hostname}" |
| HostRouter.ProdLabel | middleware.ts:48-56 | "{tenant}.{hostname}" yields tenant when no later hostname matches |
| HostRouter.ProdSubdomain | middleware.ts:48-56 | the forEach loop computes the last-match classification |
| HostRouter.Route | middleware.ts:34-70 | an absent or empty host rewrites to /404; a known tenant rewrites to "/{tenant}{path}"; /login or /signup with an sid cookie redirects to "/" exactly then; otherwise "/home{path}" |
| HostRouter.TenantIgnoresCookie | middleware.ts:59-66 | a tenant request is rewritten whatever the sid cookie says |
| HostRouter.DevTenantRoute | middleware.ts:44-62 | dev "{tenant}.localhost:3000" goes to "/{tenant}{path}" |
| HostRouter.ProdTenantRoute | middleware.ts:48-62 | prod "{tenant}.{hostname}" goes to "/{tenant}{path}" |
| HostRouter.ForeignHostRoute | middleware.ts:48-69 | a host under none of the hostnames is never a tenant (unless "" is a subdomain) and gets the /home or redirect treatment |
| HostRouter.NextUrl.constructor | middleware.ts:35 | the request URL carries its pathname |
| HostRouter.Middleware | middleware.ts:34-70 | mutates the URL's pathname to the routing decision's and answers a redirect exactly when the decision is one |
| HostRouter.WordDashRun | middleware.ts:16 | the length of the leading run of `[\w-]` characters |
| HostRouter.FileNameAheadCorrect | middleware.ts:16 | the scanner for the `[\w-]+\.\w+` lookahead agrees with its definition as an existential over split points |
| HostRouter.MatcherSkipsApiPrefix | middleware.ts:16 | the router never runs on a path starting with /api |
| HostRouter.MatcherSkipsRootFile | middleware.ts:16 | the router never runs on a root file such as /favicon.ico |
| AuthGuards.LoginRedirectIsAbsolute | lib/auth/middleware.ts:21-35 | the login URL always starts with "http" |
| AuthGuards.CheckAuthenticated | lib/auth/middleware.ts:12-38 | calls next iff authenticated; otherwise 401 with "Please login first." and the login URL |
| AuthGuards.CheckNotAuthenticated | lib/auth/middleware.ts:47-56 | calls next iff unauthenticated; otherwise 401 with redirect "/" |
| AuthGuards.ExactlyOneGuardPasses | lib/auth/middleware.ts:12-56 | for a consistent session, exactly one of the two guards passes |
| AuthGuards.DevRedirect | lib/auth/middleware.ts:22-24 | in dev the login URL is http://localhost:3000/login |
| AuthGuards.RootHostRedirect | lib/auth/middleware.ts:27-31 | a host with no listed subdomain prefix logs in on itself |
| AuthGuards.MissingHostRedirect | lib/auth/middleware.ts:26-31 | a missing host interpolates as "https://undefined/login" |
| AuthGuards.SubdomainHostRedirect | lib/auth/middleware.ts:27-34 | "{sub}.{root}" (sub the first matching prefix) logs in on root |
| AuthGuards.PrefixWithoutDotRedirect | lib/auth/middleware.ts:27-34 | a host that starts with a subdomain but holds no "{sub}." keeps its host in the login URL |
| Database.ConstructorError | lib/api/database.ts:99-105 | construction fails with the Mongo URI message first, then the database name message, exactly when a variable is unset or empty |
| Database.WaifusLikeNameMembers | lib/api/database.ts:183-195 | a waifu is returned iff it is in the collection and its lowercased name contains the query |
| Database.WaifusLikeNameOrder | lib/api/database.ts:183-195 | the match keeps collection order (it distributes over concatenation) |
| Database.SeriesLikeNameMembers | lib/api/database.ts:211-225 | a series is returned iff it is in the collection and its lowercased name contains the query |
| Database.SeriesLikeNameOrder | lib/api/database.ts:211-225 | the series match keeps collection order |
| Database.EmptyQueryMatchesAll | lib/api/database.ts:189 | the empty query matches every waifu |
| Database.PageOfWaifus | lib/api/database.ts:197-201 | page p < 1 is refused (negative skip); otherwise at most 20 waifus, those at 20(p-1) onwards |
| Database.PagesAreConsecutive | lib/api/database.ts:197-201 | a non-empty page p+1 means page p is full and page p+1 continues right after it |
| Database.FindUser | lib/api/database.ts:150-158 | the first user with that username, or none iff no user has it |
| Database.FindAppended | lib/api/database.ts:160-162 | a user inserted under a fresh username is then found by it |
| Database.DeleteFirstWithId | lib/api/database.ts:164-166 | removes one user iff one has that id, and adds nothing |
| Database.DeleteKeepsDistinctIds | lib/api/database.ts:164-166 | deleting keeps ids distinct |
| Database.DeleteRemovesId | lib/api/database.ts:164-166 | with distinct ids, exactly the users with other ids remain |
| Database.InsertKeepsUnique | pages/api/auth/users.ts:29-47 | inserting a username that was not found keeps usernames unique |
| Database.DeleteKeepsUnique | lib/api/database.ts:164-166 | deleting keeps usernames unique |
| Database.XDatabase.constructor | lib/api/database.ts:91-109 | a fresh store is disconnected, with no collection handles, over the given contents |
| Database.XDatabase.Connect | lib/api/database.ts:111-117 | connects at most once and leaves the connection up; contents unchanged |
| Database.XDatabase.ListSeries | lib/api/database.ts:124-130 | connects, creates the series handle only the first time, returns it |
| Database.XDatabase.ListUsers | lib/api/database.ts:132-138 | connects, creates the users handle only the first time, returns it |
| Database.XDatabase.ListWaifus | lib/api/database.ts:140-146 | connects, creates the waifus handle only the first time, returns it |
| Database.XDatabase.GetUserFromUsername | lib/api/database.ts:150-158 | answers the first user with that username and changes no contents |
| Database.XDatabase.InsertUser | lib/api/database.ts:160-162 | appends the user under a fresh id and returns that id |
| Database.XDatabase.DeleteUser | lib/api/database.ts:164-166 | deletes the first user with the id; the count is 1 iff one existed |
| Database.XDatabase.GetWaifusLikeName | lib/api/database.ts:183-195 | answers the name match over the waifu collection |
| Database.XDatabase.GetPageNOfWaifus | lib/api/database.ts:197-201 | answers page N of the waifu collection, or the skip error |
| Database.XDatabase.GetSeriesLikeName | lib/api/database.ts:211-225 | answers the name match over the series collection |
| Passport.Verify | lib/auth/passport.ts:7-28 | a user iff found and bcrypt accepts; "There is no user with that username." iff not found; "Incorrect Password." iff bcrypt refuses; an error iff the lookup or compare throws |
| Passport.UnknownUserSkipsCompare | lib/auth/passport.ts:13-19 | when the lookup fails or finds no one, bcrypt is never consulted |
| Passport.VerifyAgainstStore | lib/auth/passport.ts:13-24 | with unique usernames, verification yields u iff u is stored under that name with the hash of the password |
| Passport.FindUserOfUnique | lib/auth/passport.ts:13 | with unique usernames the lookup finds the stored user |
| Passport.Strategy | lib/auth/passport.ts:30 | the local strategy answers "Missing credentials" for an absent or empty field, and otherwise verifies |
| Passport.SerializeUser | lib/auth/passport.ts:32-34 | the session keeps only the user's id |
| Passport.DeserializeUser | lib/auth/passport.ts:36-38 | the session object is handed back unchanged |
| Passport.SessionRoundTrip | lib/auth/passport.ts:32-38 | deserialising a serialised user gives back its id |
| Passport.Session.constructor | lib/auth/session.ts:20-31 | a new session has no user |
| Passport.Session.RequestUser | pages/api/auth/users.ts:79 | `req.user` is present iff authenticated |
| Passport.Session.LogIn | pages/api/auth/index.ts:23-28 | a login that does not fail stores the serialised user; a failing one changes nothing |
| Passport.Session.Destroy | pages/api/auth/index.ts:36 | after destruction no user is authenticated |
| AuthApi.PublicOf | pages/api/auth/index.ts:28 | the user sent back keeps id and username and drops the hash |
| AuthApi.SessionRequest | lib/auth/middleware.ts:17 | `isAuthenticated` and `isUnauthenticated` of one session are opposite |
| AuthApi.LoginReply | pages/api/auth/index.ts:15-29 | errors are forwarded, failures answer 401 with their message, a user answers 200 only when logIn succeeds and 500 otherwise |
| AuthApi.Lookup | lib/auth/passport.ts:13 | the lookup throws iff told to, otherwise answers the first match |
| AuthApi.Accepted | pages/api/auth/index.ts:14-28 | an accepted user is stored under the given username |
| AuthApi.LoginRequiresLoggedOut | pages/api/auth/index.ts:14 | a logged-in client gets 401 with redirect "/" |
| AuthApi.LoginSucceedsIff | pages/api/auth/index.ts:14-31 | 200 exactly when logged out, both fields filled in, the user found, bcrypt accepts and logIn succeeds; the body is that user without its hash |
| AuthApi.LoginForwardsOnlyErrors | pages/api/auth/index.ts:16-18 | only a throwing lookup or compare reaches the error handler |
| AuthApi.Login | pages/api/auth/index.ts:14-31 | answers the login outcome, stores the accepted user in the session exactly when one is accepted and logIn succeeds, leaves the store unchanged |
| AuthApi.Logout | pages/api/auth/index.ts:35-38 | a logged-in client's session is destroyed with 204; otherwise the guard's 401 and nothing changes |
| UsersApi.FirstFailingIndex | pages/api/auth/users.ts:19-42 | the index of the first failing rule, or -1 iff all pass |
| UsersApi.FirstFailingAt | pages/api/auth/users.ts:19-42 | a failing rule with none failing before it is the answer |
| UsersApi.SignupCheck | pages/api/auth/users.ts:19-42 | a body is accepted iff both names are non-empty, the passwords equal, the name free, at least 2 long and the password at least 7 long |
| UsersApi.SignupCheckIsFirstFailing | pages/api/auth/users.ts:19-42 | the chain of early returns answers the first failing of the seven rules |
| UsersApi.SecondMismatchNeverDecides | pages/api/auth/users.ts:37-39 | the second "passwords do not match" check never decides the answer |
| UsersApi.TakenOnlyAfterFirstThree | pages/api/auth/users.ts:19-33 | whether the name is taken matters only once the first three checks pass |
| UsersApi.SignupRejection | pages/api/auth/users.ts:16-42 | a logged-in client gets 401 with redirect "/"; otherwise the first failing rule's 400 |
| UsersApi.SignupOutcome | pages/api/auth/users.ts:16-69 | 201 with the new user iff not rejected, the insert succeeds and logIn succeeds; any other non-rejected signup answers 500 |
| UsersApi.RejectionIsFirstFailingRule | pages/api/auth/users.ts:19-42 | every 400 carries the first failing rule's message |
| UsersApi.SignupThenLogin | pages/api/auth/users.ts:44-64 | after a successful signup, logging in with the same name and password answers 200 with the new user |
| UsersApi.Signup | pages/api/auth/users.ts:16-69 | answers the signup outcome, appends the hashed user exactly when inserted, logs them in, keeps usernames unique |
| UsersApi.DeleteAccount | pages/api/auth/users.ts:73-84 | a logged-in client's session is destroyed, then its user deleted; 204 iff one was deleted, 500 otherwise |
| LiveSearchApi.SearchSeriesOf | pages/api/waifus/livesearch.ts:29-32 | the first appearance's name and slug, or empty strings without one |
| LiveSearchApi.SearchRowOf | pages/api/waifus/livesearch.ts:27-34 | a row keeps the name and links to "/waifus/{slug}" |
| LiveSearchApi.SearchRows | pages/api/waifus/livesearch.ts:26-35 | one row per result, in order |
| LiveSearchApi.ResultsReply | pages/api/waifus/livesearch.ts:22-37 | no results answer 400, results answer 200 with their rows |
| LiveSearchApi.LiveSearchAnswers | pages/api/waifus/livesearch.ts:13-37 | logged out: the guard's 401; no text: 400; otherwise 200 with a row per matching waifu in store order |
| LiveSearchApi.NoResultsNeverAnswered | pages/api/waifus/livesearch.ts:22-24 | "No results found" is never answered |
| LiveSearchApi.LiveSearch | pages/api/waifus/livesearch.ts:13-38 | answers the live-search outcome over the store's waifus, changing nothing |
| BrowseApi.BrowseRowOf | pages/api/waifus/browse.ts:41-49 | a row keeps name and picture, links to "/waifus/{slug}" and to "/series/{slug}" of the first appearance |
| BrowseApi.BrowseRowExtendsSearchRow | pages/api/waifus/browse.ts:13 | a browse row is a live-search row plus an image, except that its series link has the /series/ prefix |
| BrowseApi.BuildRows | pages/api/waifus/browse.ts:38-50 | the loop builds one row per waifu, in order |
| BrowseApi.Fetched | pages/api/waifus/browse.ts:24-36 | with `page` the page of the collection, otherwise the name match |
| BrowseApi.PagePrecedence | pages/api/waifus/browse.ts:24-36 | with `page` given, `waifu` is ignored |
| BrowseApi.PagedAnswer | pages/api/waifus/browse.ts:24-33 | page n answers at most 20 waifus, those at 20(n-1) onwards |
| BrowseApi.Browse | pages/api/waifus/browse.ts:15-53 | the guard's 401; 400 without page and waifu; the skip error below page 1; otherwise 200 with one row per fetched waifu |
| ClientRuntime.Router.constructor | components/AuthGuard.tsx:15 | the router starts at a path with nothing pushed |
| ClientRuntime.Router.Push | components/AuthGuard.tsx:21 | `router.push` records its target |
| ClientRuntime.UserCache.constructor | lib/user/hooks.ts:10-12 | the current-user request has not answered yet |
| ClientRuntime.UserCache.Mutate | pages/home/login/index.tsx:58 | `mutate({ user })` stores that user |
| AppShell.App.constructor | components/App.tsx:47-51 | the initial error, links, referral, route and mounting latch |
| AppShell.App.SetError | components/App.tsx:79-81 | sets the message and flips the toggle, so the error always changes |
| AppShell.App.SetLinks | components/App.tsx:83-90 | while mounting, sets the links, closes the latch and records the route; otherwise nothing |
| AppShell.App.RouteEffect | components/App.tsx:68-76 | reopens the latch; a new route clears the links |
| AuthProvider.AuthState.constructor | components/AuthProvider.tsx:30-32 | starts initialising, unauthenticated, with no referral |
| AuthProvider.AuthState.OnData | components/AuthProvider.tsx:36-43 | nothing until data arrives; then authenticated iff it holds a user; initialisation never restarts |
| AuthProvider.AuthState.SetLoginReferral | components/AuthProvider.tsx:32 | sets the referral |
| AuthGuard.Render | components/AuthGuard.tsx:25-33 | the spinner iff initialising; the children iff initialised and authenticated |
| AuthGuard.NothingIffRedirect | components/AuthGuard.tsx:17-33 | nothing renders exactly when the guard redirects, and the children never render then |
| AuthGuard.Effect | components/AuthGuard.tsx:17-23 | when redirecting, records the current path as referral and pushes /login; otherwise nothing |
| DebouncedInput.Delay | components/Input.tsx:29 | `doneTypingInterval \|\| 1000` |
| DebouncedInput.Cleared | components/Input.tsx:28 | `clearTimeout` removes exactly the named timer |
| DebouncedInput.PendingIndex | components/Input.tsx:19-21 | the position of a pending timer, or -1 iff none has that id |
| DebouncedInput.InitialInv | components/Input.tsx:17 | the initial state has no pending timer |
| DebouncedInput.KeyUpKeepsOneTimer | components/Input.tsx:23-30 | after a keyup exactly one timer is pending: the new one, for this event |
| DebouncedInput.FireKeepsInv | components/Input.tsx:19-21 | a timer firing keeps at most one pending |
| DebouncedInput.KeyDownKeepsInv | components/Input.tsx:32 | a keydown only reports the start of typing |
| DebouncedInput.OnlyLastKeyUpFires | components/Input.tsx:23-30 | of two keyups in a row only the second reaches `stoppedTyping` |
| DebouncedInput.Input.constructor | components/Input.tsx:16-17 | the component starts with no timer |
| DebouncedInput.Input.Typing | components/Input.tsx:23-30 | a keyup follows the keyup transition and leaves its own timer pending |
| DebouncedInput.Input.OnKeyDown | components/Input.tsx:32 | a keydown follows the keydown transition |
| DebouncedInput.Input.TimerElapsed | components/Input.tsx:19-21 | a timer fires iff it is still pending |
| NavBar.LinkWithoutHref | components/NavBar.tsx:272-278 | a link without href renders "#" and prevents navigation |
| NavBar.LinkWithHref | components/NavBar.tsx:252-278 | a link with href navigates to a URL ending in it |
| NavBar.SubdomainLinkHref | components/NavBar.tsx:254-256 | a subdomain link points at that subdomain of localhost:3000 or of the current host |
| NavBar.RootLinkOnSubdomain | components/NavBar.tsx:261-269 | a root link on "{sub}.{root}" points at root |
| NavBar.RootLinkElsewhere | components/NavBar.tsx:261-269 | a root link on a host with no listed prefix keeps its href |
| NavBar.LoginLinkMatchesGuardRedirect | components/NavBar.tsx:121-126 | on a subdomain host the Login link and the guard's login URL agree |
| NavBar.NavLinksMembers | components/NavBar.tsx:287-292 | a link renders iff it is a candidate for the session and not hidden on this host |
| NavBar.NavLinksOrder | components/NavBar.tsx:288-292 | page links, base links, then session links, each group filtered in order |
| NavBar.BlogLinkShownIff | components/NavBar.tsx:60-64 | the Blog link is hidden exactly on hosts starting with "blog" |
| NavBar.SessionLinks | components/NavBar.tsx:71-132 | logged in: Browse and Logout and no added Login; logged out: Login |
| NavBar.EndpointRepliesReadable | components/NavBar.tsx:197-201 | whatever the bar receives can be read: the limiters' 429 is not JSON, every answer of the handler is JSON and a 200 carries rows |
| NavBar.SendingHidesResults | components/NavBar.tsx:214-223 | sending a non-empty text hides the dropdown and issues the request |
| NavBar.ReplyEndsLoading | components/NavBar.tsx:197-211 | every JSON reply ends loading and only a 200 replaces the rows; a reply that is not JSON changes nothing, so loading stays on |
| NavBar.LimitedSearchKeepsLoading | components/NavBar.tsx:186-223 | a search answered by the limiter never ends loading, so the dropdown stays hidden |
| NavBar.LoggedOutSearch | components/NavBar.tsx:200-209 | a logged-out search shows "Please login first." and navigates to the guard's login URL |
| NavBar.BadRequestIsSilent | components/NavBar.tsx:200-209 | a 400 carries no message or redirect, so the bar shows nothing |
| NavBar.LastArrivalWins | components/NavBar.tsx:197-199 | the last JSON reply to arrive decides the rows |
| NavBar.TypingEmpties | components/NavBar.tsx:225-229 | starting to type leaves an empty list and touches nothing else |
| NavBar.CheckLiveInputClearsIff | components/NavBar.tsx:235-243 | the list is emptied exactly for a focused input holding only white space |
| NavBar.ScrollVisibility | components/NavBar.tsx:398-401 | scrolling down hides the dropdown; scrolling up shows it when it has rows and is not loading |
| NavBar.NavBarState.constructor | components/NavBar.tsx:40-47 | the initial search state |
| NavBar.NavBarState.OnDoneTyping | components/NavBar.tsx:214-223 | follows the done-typing transition |
| NavBar.NavBarState.OnLivesearchReply | components/NavBar.tsx:197-211 | follows the reply transition, stopping at once on a body that is not JSON |
| NavBar.NavBarState.OnTypingLivesearch | components/NavBar.tsx:225-229 | follows the typing transition |
| NavBar.NavBarState.OnCheckLiveInput | components/NavBar.tsx:235-243 | follows the input-check transition |
| NavBar.NavBarState.OnFocusChange | components/NavBar.tsx:231-233 | follows the focus transition |
| NavBar.NavBarState.OnScrollPositionChange | components/NavBar.tsx:398-401 | follows the scroll transition |
| NavBar.NavBarState.ShowsResults | components/NavBar.tsx:339-341 | the dropdown shows iff allowed, not loading and non-empty |
| BrowsePage.TotalPages | pages/home/waifus/browse.tsx:76 | `Math.ceil(n / 20)`: the least t with n <= 20t |
| BrowsePage.ColumnsShown | pages/home/waifus/browse.tsx:85-88 | a small screen shows only NAME, otherwise NAME and SERIES |
| BrowsePage.SearchPageRows | pages/home/waifus/browse.tsx:143 | search page p shows results 20(p-1) onwards, at most 20 |
| BrowsePage.ResultOnPage | pages/home/waifus/browse.tsx:76 | every result lies on a page between 1 and the total |
| BrowsePage.NoTableNoRows | pages/home/waifus/browse.tsx:178-184 | without a table there are no rows to show |
| BrowsePage.SearchShownOnFirstPage | pages/home/waifus/browse.tsx:61-81 | a search answered on page 1 shows its first 20 results and fetches nothing |
| BrowsePage.SearchElsewhereIsReplaced | pages/home/waifus/browse.tsx:42-81 | a search answered on another page fetches page 1, whose reply drops the results |
| BrowsePage.PagingDropsSearch | pages/home/waifus/browse.tsx:42-53 | changing page fetches that page and its reply drops the search results |
| BrowsePage.ResetRestores | pages/home/waifus/browse.tsx:55-59 | reset restores the original page and 1824 total and drops the search |
| BrowsePage.QueryPageSetsBoth | pages/home/waifus/browse.tsx:36-40 | the URL's page, or 1, becomes current and original page |
| BrowsePage.EndpointRepliesReadable | pages/home/waifus/browse.tsx:46-49 | no answer of the browse endpoint, delivered or limited, is a live-search array |
| BrowsePage.UnparsedReplyChangesNothing | pages/home/waifus/browse.tsx:46-80 | a reply that is not JSON changes nothing on either fetch; loading stays on |
| BrowsePage.PageBelowOneNeverLoads | pages/home/waifus/browse.tsx:42-53 | a page below 1 is forwarded as the store's error, and the page stays loading |
| BrowsePage.ExpiredSessionShowsNoResults | pages/home/waifus/browse.tsx:48-80 | the guard's 401 ends loading with no rows and "No results found"; as a search reply it makes the total NaN |
| BrowsePage.BrowsePageState.constructor | pages/home/waifus/browse.tsx:13-19 | the initial page state |
| BrowsePage.BrowsePageState.SetPage | pages/home/waifus/browse.tsx:42-53 | follows the page transition |
| BrowsePage.BrowsePageState.Mount | pages/home/waifus/browse.tsx:36-53 | follows the first-render effects |
| BrowsePage.BrowsePageState.OnQuery | pages/home/waifus/browse.tsx:36-40 | follows the query effect |
| BrowsePage.BrowsePageState.PageDataArrived | pages/home/waifus/browse.tsx:47-52 | follows the page reply: nothing on text, otherwise the reply's rows (none for an object), no search results, loading off |
| BrowsePage.BrowsePageState.Reset | pages/home/waifus/browse.tsx:55-59 | follows the reset |
| BrowsePage.BrowsePageState.WaifuSearch | pages/home/waifus/browse.tsx:61-73 | follows the search |
| BrowsePage.BrowsePageState.SearchDataArrived | pages/home/waifus/browse.tsx:74-80 | follows the search reply: nothing on text, otherwise its total (NaN for an object), its rows and page 1 |
| BrowsePage.BrowsePageState.Resized | pages/home/waifus/browse.tsx:24-26 | small screen iff narrower than 640 |
| BrowsePage.BrowsePageState.TableRows | pages/home/waifus/browse.tsx:143 | the table's rows |
| LoginPage.LoginFormErrorIff | pages/home/login/index.tsx:32-38 | refused exactly when a present field is only white space, username first; absent fields pass |
| LoginPage.ReferralUsedOnce | pages/home/login/index.tsx:56-66 | a reply other than 401 navigates iff it is JSON, then to the referral or "/", leaving no referral |
| LoginPage.UnparsedReplyStops | pages/home/login/index.tsx:50-56 | the handler stops, whatever the status, exactly when the reply is not JSON |
| LoginPage.FailedLookupStops | pages/home/login/index.tsx:50-56 | a throwing lookup's plain-text 500, and the limiters' 429, stop the page |
| LoginPage.LoginAgainstStore | pages/home/login/index.tsx:50-58 | against the endpoint: a wrong password shows "Incorrect Password.", the right one navigates with that user |
| LoginPage.LoggedInLoginShowsNothing | pages/home/login/index.tsx:50-54 | a logged-in client's 401 has no error and the page stays |
| LoginPage.ServerErrorNavigates | pages/home/login/index.tsx:50-58 | the JSON 500 of a failed `req.logIn` is treated as a login with no user |
| LoginPage.HandleLogin | pages/home/login/index.tsx:21-67 | a refused form only sets the error; a reply that is not JSON changes nothing; a JSON 401 sets the reply's error; otherwise caches the user, pushes the target and clears the referral |
| SignupPage.SignupFormErrorIff | pages/home/signup/index.tsx:30-39 | sent exactly when no present field is blank and the passwords are equal |
| SignupPage.ClientChecksCoverFirstRules | pages/home/signup/index.tsx:30-39 | a filled-in form the page sends can be refused by the server only as taken or too short |
| SignupPage.SignupPageOnOutcome | pages/home/signup/index.tsx:51-60 | against the endpoint: a refused rule shows its message, a created user is cached, a store failure caches no user |
| SignupPage.UnparsedReplyStops | pages/home/signup/index.tsx:51-57 | the handler stops exactly on a reply that is not JSON, such as the limiters' 429 |
| SignupPage.LoggedInSignupGoesHome | pages/home/signup/index.tsx:51-60 | a logged-in client's 401 is not a 400: the page goes home with no user |
| SignupPage.HandleSignUp | pages/home/signup/index.tsx:18-61 | a refused form only sets the error; a reply that is not JSON changes nothing; a JSON 400 sets the reply's error; otherwise caches the user and pushes "/" |

## Left out

- The environment-variable throws of middleware.ts:20-28 and lib/auth/session.ts:7-12 happen at module load, before any request; the hostnames are a parameter instead.
- lib/config is not part of this model: `dev` and `subdomains` are parameters.
- Rate limiting (lib/api/ratelimit.ts): the endpoint models describe a request within both limiters' quotas. Over a quota the limiter answers before any handler runs, so nothing changes on the server; the pages receive that answer as `Http.Limited`, the status and text being express-rate-limit's defaults, since ratelimit.ts sets neither. The quotas themselves are not counted, because the counts live in a MongoDB store keyed by client and time.
- `express-mongo-sanitize` and compression change no answer the model describes.
- Passport.VerifyAgainstStore: stated for `HashCompare`, a comparison against a deterministic `hash` of the password; real bcrypt salts each hash, so the lemma holds only for that idealisation (the login endpoint itself takes any `compare`, and `UsersApi.SignupThenLogin` needs only that a password matches its own hash).
- LoginPage.LoginAgainstStore: stated for `HashCompare` for the same reason.
- Session cookie options (lib/auth/session.ts:22-30): expiry and the session store are storage details; a session is its current user.
- The MongoDB client (`getClient`, the connect race of concurrent requests, connection failures) and the development-mode singleton of lib/api/database.ts:233-245: connection is a flag, and connecting never fails.
- `getRandomWaifu`, `getWaifu` and `getSeries`: random sampling and single-document lookups used only by pages outside this model.
- UsersApi.Signup: the user lookup (pages/api/auth/users.ts:29) and `bcrypt.hash` (line 44) run outside the `try`; a throw from either is not modelled, the lookup always answers and `hash` is a total function.
- BrowseApi.Browse: `parseInt` of a non-numeric page gives NaN, whose skip is not modelled; the parsed page is an integer parameter.
- BrowsePage.QueryEffect: the client's `parseInt(query.page)` (pages/home/waifus/browse.tsx:37) can give NaN as well; the parsed page is an integer parameter here too, so a NaN current page is not modelled.
- BrowsePage.HandleWaifuSearch: the typed value is put into `?waifu=${value}` without URL encoding, so `&`, `#`, `+` and `%` change the query the endpoint parses ("Rem&page=3" fetches page 3 of the collection as if it were search results; "#x" sends an empty `waifu` and gets the 400). The model records the typed text in `searchFetches`, not the query the server parses, and the reply to a search is a parameter.
- Request bodies and queries are strings or absent; arrays and other JSON values in those fields are not modelled.
- String lengths are counted in characters, where JavaScript counts UTF-16 code units; `$toLower` maps only A..Z.
- Random colours of the result lists and tables, the logout modal's `mutate({ user: null })`, the theme, toasts and all markup: they draw or decorate but decide nothing modelled.
- `logger` and `console` calls, which have no effect on state.
- Timers and network replies are discrete events; time itself is not modelled, and the event a timer reports is captured at keyup.
- React batching, re-render order and stale closures: each handler reads the state as of its call.
- NavBar.NavBarState: `setError` and `router.push` are recorded in its own state (the errors shown and the URLs pushed) rather than calling the App and Router objects.
- AuthApi.Login: when the lookup is told to throw, the store is not consulted, so its connect step is skipped.
