/**
 * The bodies the API handlers send and the pages read back. A response is a
 * status code and one of the JSON bodies the handlers build, an empty body,
 * or plain text (the rate limiters' answer and the framework's error page).
 * The client-side field readers say what destructuring a JSON body yields
 * (`undefined` is `None`).
 */
module Http {
  import opened Base

  /** `{ name, endpoint }` of a waifu's first series appearance. */
  datatype SeriesLink = SeriesLink(name: string, endpoint: string)

  /** One row of the live-search answer (`WaifuSearchResult`). */
  datatype SearchRow = SearchRow(name: string, series: SeriesLink, endpoint: string)

  /** One row of the browse answer (`BrowseSearchResult`). */
  datatype BrowseRow = BrowseRow(name: string, image: string, series: SeriesLink, endpoint: string)

  /** A user object as sent to the client: `{ ...user, password: undefined }`. */
  datatype PublicUser = PublicUser(id: nat, username: string)

  datatype Body =
    | NoBody                                          // res.end()
    | ErrorJson(error: string)                        // { error }
    | MessageJson(message: string)                    // { message }
    | LoginFirstJson(message: string, redirect: string)
    | RedirectJson(redirect: string)                  // { redirect }
    | UserJson(user: PublicUser)                      // { user }
    | SearchJson(searchRows: seq<SearchRow>)
    | BrowseJson(browseRows: seq<BrowseRow>)
    | PlainText(text: string)                         // res.send(text), res.end(text)

  datatype Response = Response(status: int, body: Body)

  /**
   * What a route handler does with a request: write one response, or pass an
   * error on to the framework's error handler (`next(err)` or a throw).
   */
  datatype Handled = Sent(response: Response) | Forwarded(error: string)

  /** Status and message of the generic store failure. */
  const InternalError := Response(500, ErrorJson("Internal Server Error"))

  /** `await res.json()` fulfils only on a JSON body: on an empty or plain-text body it rejects. */
  predicate IsJson(b: Body) {
    !b.NoBody? && !b.PlainText?
  }

  /** The default answer of an `express-rate-limit` limiter whose window's quota is used up. */
  const TooManyRequests := "Too many requests, please try again later."
  const Limited := Response(429, PlainText(TooManyRequests))

  /**
   * What the client receives for a handled request. A forwarded error reaches
   * next-connect's default error handler, which answers status 500 (the
   * store's errors carry no status of their own) with the error's message
   * as plain text.
   */
  function Delivered(h: Handled): (r: Response)
    ensures h.Sent? ==> r == h.response
    ensures h.Forwarded? ==> r.status == 500 && r.body == PlainText(h.error) && !IsJson(r.body)
  {
    match h
    case Sent(r) => r
    case Forwarded(e) => Response(500, PlainText(e))
  }

  /** `const { message } = await res.json()` */
  function MessageField(b: Body): (r: Option<string>)
    ensures r.Some? <==> b.MessageJson? || b.LoginFirstJson?
  {
    match b
    case MessageJson(m) => Some(m)
    case LoginFirstJson(m, _) => Some(m)
    case _ => None
  }

  /** `const { redirect } = await res.json()` */
  function RedirectField(b: Body): (r: Option<string>)
    ensures r.Some? <==> b.RedirectJson? || b.LoginFirstJson?
  {
    match b
    case RedirectJson(u) => Some(u)
    case LoginFirstJson(_, u) => Some(u)
    case _ => None
  }

  /** `const { error } = await res.json()` */
  function ErrorField(b: Body): (r: Option<string>)
    ensures r.Some? <==> b.ErrorJson?
  {
    match b
    case ErrorJson(e) => Some(e)
    case _ => None
  }

  /** `const { user } = await res.json()` */
  function UserField(b: Body): (r: Option<PublicUser>)
    ensures r.Some? <==> b.UserJson?
  {
    match b
    case UserJson(u) => Some(u)
    case _ => None
  }
}
