/**
 * GET /api/waifus/browse (pages/api/waifus/browse.ts): behind
 * `checkAuthenticated`, it answers a page of the waifu collection when
 * `page` is given, otherwise the waifus whose name contains `waifu`, as
 * `{ name, image, series, endpoint }` rows built in a loop.
 */
module BrowseApi {
  import opened Base
  import opened Strings
  import opened Http
  import opened AuthGuards
  import opened Database
  import opened Passport
  import opened AuthApi
  import opened LiveSearchApi

  const MissingParams := "Missing page or waifu"
  /**
   * A stand-in for the server's message when the skip of a page below 1 is
   * negative. The real text is whatever MongoDB reports; nothing in the
   * model depends on its wording.
   */
  const NegativeSkip := "skip must be a non-negative number"

  function BrowseRowOf(w: Waifu): (r: BrowseRow)
    ensures r.name == w.name && r.image == w.displayPicture
    ensures r.endpoint == "/waifus/" + w.slug
    ensures |w.appearances| > 0 ==> r.series == SeriesLink(w.appearances[0].name, "/series/" + w.appearances[0].slug)
    ensures |w.appearances| == 0 ==> r.series == SeriesLink("", "")
  {
    var series := if |w.appearances| > 0
                  then SeriesLink(w.appearances[0].name, "/series/" + w.appearances[0].slug)
                  else SeriesLink("", "");
    BrowseRow(w.name, w.displayPicture, series, "/waifus/" + w.slug)
  }

  /**
   * A browse row and a live-search row of the same waifu agree on the name,
   * the endpoint and the series name; only the series endpoint differs,
   * which browse prefixes with "/series/".
   */
  lemma BrowseRowExtendsSearchRow(w: Waifu)
    ensures BrowseRowOf(w).name == SearchRowOf(w).name
    ensures BrowseRowOf(w).endpoint == SearchRowOf(w).endpoint
    ensures BrowseRowOf(w).series.name == SearchRowOf(w).series.name
    ensures BrowseRowOf(w).series.endpoint
            == if |w.appearances| > 0 then "/series/" + SearchRowOf(w).series.endpoint else ""
  {
  }

  /** The `for ... of` loop that pushes one row per record onto `ret`. */
  method BuildRows(ws: seq<Waifu>) returns (ret: seq<BrowseRow>)
    ensures |ret| == |ws|
    ensures forall i :: 0 <= i < |ws| ==> ret[i] == BrowseRowOf(ws[i])
  {
    ret := [];
    for k := 0 to |ws|
      invariant |ret| == k
      invariant forall i :: 0 <= i < k ==> ret[i] == BrowseRowOf(ws[i])
    {
      ret := ret + [BrowseRowOf(ws[k])];
    }
  }

  /** The records the handler fetches: the page when `page` is truthy, else the name query. */
  function Fetched(waifus: seq<Waifu>, page: Option<string>, pageNumber: int, waifu: Option<string>): (r: Option<seq<Waifu>>)
    requires Truthy(page) || Truthy(waifu)
    ensures Truthy(page) ==> r == PageOfWaifus(waifus, pageNumber)
    ensures !Truthy(page) ==> r == Some(WaifusLikeName(waifus, waifu.value))
  {
    if Truthy(page) then PageOfWaifus(waifus, pageNumber) else Some(WaifusLikeName(waifus, waifu.value))
  }

  /**
   * The whole GET: `page` is the raw query value and `pageNumber` its
   * `parseInt`. Rows are described element-wise, as `BuildRows` produces them.
   */
  ghost predicate BrowseAnswer(cfg: GuardConfig, authenticated: bool, host: Option<string>, waifus: seq<Waifu>,
                               page: Option<string>, pageNumber: int, waifu: Option<string>, h: Handled)
  {
    match CheckAuthenticated(cfg, SessionRequest(authenticated, host))
    case Reject(r) => h == Sent(r)
    case CallNext =>
      if !Truthy(page) && !Truthy(waifu) then h == Sent(Response(400, MessageJson(MissingParams)))
      else
        var f := Fetched(waifus, page, pageNumber, waifu);
        if f.None? then h == Forwarded(NegativeSkip)
        else h.Sent? && h.response.status == 200 && h.response.body.BrowseJson?
             && |h.response.body.browseRows| == |f.value|
             && forall i :: 0 <= i < |f.value| ==> h.response.body.browseRows[i] == BrowseRowOf(f.value[i])
  }

  /** When `page` is given, `waifu` is ignored: paging wins. */
  lemma PagePrecedence(waifus: seq<Waifu>, page: Option<string>, pageNumber: int, w1: Option<string>, w2: Option<string>)
    requires Truthy(page)
    ensures Fetched(waifus, page, pageNumber, w1) == Fetched(waifus, page, pageNumber, w2)
  {
  }

  /** With `page` given, the handler answers at most 20 rows, page `pageNumber` of the collection. */
  lemma PagedAnswer(waifus: seq<Waifu>, page: Option<string>, pageNumber: int, waifu: Option<string>)
    requires Truthy(page) && pageNumber >= 1
    ensures var f := Fetched(waifus, page, pageNumber, waifu);
            f.Some? && |f.value| <= PageSize
            && forall i :: 0 <= i < |f.value| ==> f.value[i] == waifus[PageSize * (pageNumber - 1) + i]
  {
  }

  /** The GET handler; `s` is the session behind the request. */
  method Browse(cfg: GuardConfig, host: Option<string>, s: Session, db: XDatabase,
                page: Option<string>, pageNumber: int, waifu: Option<string>) returns (h: Handled)
    requires db.Valid()
    modifies db
    ensures db.Valid() && db.SameContents()
    ensures BrowseAnswer(cfg, s.IsAuthenticated(), host, old(db.waifus), page, pageNumber, waifu, h)
  {
    var guard := CheckAuthenticated(cfg, SessionRequest(s.IsAuthenticated(), host));
    if guard.Reject? {
      return Sent(guard.response);
    }
    if !Truthy(page) && !Truthy(waifu) {
      return Sent(Response(400, MessageJson(MissingParams)));
    }
    var waifus: seq<Waifu> := [];
    if Truthy(page) {
      var p := db.GetPageNOfWaifus(pageNumber);
      if p.None? {
        return Forwarded(NegativeSkip);
      }
      waifus := p.value;
    } else {
      waifus := db.GetWaifusLikeName(waifu.value);
    }
    var ret := BuildRows(waifus);
    h := Sent(Response(200, BrowseJson(ret)));
  }
}
