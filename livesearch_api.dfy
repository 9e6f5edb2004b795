/**
 * POST /api/waifus/livesearch (pages/api/waifus/livesearch.ts): behind
 * `checkAuthenticated`, it looks the body's `text` up with the waifu name
 * query and answers one `{ name, series, endpoint }` row per match, in store
 * order.
 */
module LiveSearchApi {
  import opened Base
  import opened Strings
  import opened Http
  import opened AuthGuards
  import opened Database
  import opened Passport
  import opened AuthApi

  const NoText := "No text provided"
  const NoResults := "No results found"

  /** The first appearance's name and bare slug, or two empty strings. */
  function SearchSeriesOf(w: Waifu): (l: SeriesLink)
    ensures |w.appearances| > 0 ==> l == SeriesLink(w.appearances[0].name, w.appearances[0].slug)
    ensures |w.appearances| == 0 ==> l == SeriesLink("", "")
  {
    if |w.appearances| > 0 then SeriesLink(w.appearances[0].name, w.appearances[0].slug) else SeriesLink("", "")
  }

  function SearchRowOf(w: Waifu): (r: SearchRow)
    ensures r.name == w.name && r.series == SearchSeriesOf(w)
    ensures r.endpoint == "/waifus/" + w.slug
  {
    SearchRow(w.name, SearchSeriesOf(w), "/waifus/" + w.slug)
  }

  /** `results.map(...)`: one row per result, in the same order. */
  function SearchRows(ws: seq<Waifu>): (rows: seq<SearchRow>)
    ensures |rows| == |ws|
    ensures forall i :: 0 <= i < |ws| ==> rows[i] == SearchRowOf(ws[i])
  {
    seq(|ws|, i requires 0 <= i < |ws| => SearchRowOf(ws[i]))
  }

  /** The part after the query: a falsy result answers 400, any array is mapped. */
  function ResultsReply(results: Option<seq<Waifu>>): (r: Response)
    ensures results.None? ==> r == Response(400, ErrorJson(NoResults))
    ensures results.Some? ==> r == Response(200, SearchJson(SearchRows(results.value)))
  {
    match results
    case None => Response(400, ErrorJson(NoResults))
    case Some(ws) => Response(200, SearchJson(SearchRows(ws)))
  }

  /** The whole POST over the waifu collection `waifus`. */
  function LiveSearchOutcome(cfg: GuardConfig, authenticated: bool, host: Option<string>,
                             waifus: seq<Waifu>, text: Option<string>): Response
  {
    match CheckAuthenticated(cfg, SessionRequest(authenticated, host))
    case Reject(r) => r
    case CallNext =>
      if !Truthy(text) then Response(400, ErrorJson(NoText))
      else ResultsReply(Some(WaifusLikeName(waifus, text.value)))
  }

  /**
   * For a logged-in client with some text, the answer is 200 with one row for
   * each waifu whose lowercased name contains the text, in store order; a
   * logged-out client gets the guard's 401, and empty text gets 400.
   */
  lemma LiveSearchAnswers(cfg: GuardConfig, authenticated: bool, host: Option<string>, waifus: seq<Waifu>, text: Option<string>)
    ensures !authenticated ==>
              LiveSearchOutcome(cfg, authenticated, host, waifus, text) == Response(401, LoginFirstJson(LoginFirst, LoginRedirect(cfg, host)))
    ensures authenticated && !Truthy(text) ==>
              LiveSearchOutcome(cfg, authenticated, host, waifus, text) == Response(400, ErrorJson(NoText))
    ensures authenticated && Truthy(text) ==>
              var r := LiveSearchOutcome(cfg, authenticated, host, waifus, text);
              r.status == 200 && r.body.SearchJson?
              && |r.body.searchRows| == |WaifusLikeName(waifus, text.value)|
              && forall i :: 0 <= i < |r.body.searchRows| ==>
                   r.body.searchRows[i] == SearchRowOf(WaifusLikeName(waifus, text.value)[i])
  {
  }

  /** The "No results found" answer is never given: the query always yields an array. */
  lemma NoResultsNeverAnswered(cfg: GuardConfig, authenticated: bool, host: Option<string>, waifus: seq<Waifu>, text: Option<string>)
    ensures LiveSearchOutcome(cfg, authenticated, host, waifus, text).body != ErrorJson(NoResults)
  {
  }

  /** The POST handler; `s` is the session behind the request. */
  method LiveSearch(cfg: GuardConfig, host: Option<string>, s: Session, db: XDatabase, text: Option<string>)
    returns (r: Response)
    requires db.Valid()
    modifies db
    ensures db.Valid() && db.SameContents()
    ensures r == LiveSearchOutcome(cfg, s.IsAuthenticated(), host, old(db.waifus), text)
  {
    var guard := CheckAuthenticated(cfg, SessionRequest(s.IsAuthenticated(), host));
    if guard.Reject? {
      return guard.response;
    }
    if !Truthy(text) {
      return Response(400, ErrorJson(NoText));
    }
    var results := db.GetWaifusLikeName(text.value);
    r := ResultsReply(Some(results));
  }
}
