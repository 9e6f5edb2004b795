/**
 * The browse page of pages/home/waifus/browse.tsx. It shows one page of the
 * collection from the browse endpoint, or, after a name search, the search
 * results sliced client-side into pages of 20. Changing `currentPage` runs
 * the page effect, which fetches that page of the collection; its reply
 * replaces the browse rows and clears the search results. Requests are
 * recorded in the state; their replies arrive as separate events. A reply
 * that is not JSON rejects `res.json()`, so its `then` never runs.
 */
module BrowsePage {
  import opened Base
  import opened Strings
  import opened Http
  import opened AuthGuards
  import opened Database
  import opened BrowseApi

  const PageRows := 20
  /** The initial `total` of the pagination control. */
  const InitialTotal := 1824
  const SmallScreenWidth := 640

  /** The pagination's `total`: `Math.ceil(data.length / 20)` is NaN when `data` has no `length`. */
  datatype PageTotal = Pages(count: int) | NotANumber

  datatype PageState = PageState(browseResults: seq<BrowseRow>, currentPage: int, loading: bool, originalPage: int,
                                 total: PageTotal, waifuResults: seq<BrowseRow>, isSmallScreen: bool,
                                 pageFetches: seq<int>, searchFetches: seq<string>)

  const Initial := PageState([], 1, false, 1, Pages(InitialTotal), [], false, [], [])

  /** `Math.ceil(n / 20)` */
  function TotalPages(n: nat): (t: nat)
    ensures n == 0 ==> t == 0
    ensures n > 0 ==> PageRows * (t - 1) < n <= PageRows * t
  {
    (n + PageRows - 1) / PageRows
  }

  /** `setCurrentPage(p)`; a changed page runs the page effect: loading, and a fetch of page `p`. */
  function SetCurrentPage(s: PageState, p: int): PageState {
    if p == s.currentPage then s
    else s.(currentPage := p, loading := true, pageFetches := s.pageFetches + [p])
  }

  /** The effect on `query`: the page in the URL, 1 without one, becomes both the current and the original page. */
  function QueryEffect(s: PageState, queryPage: Option<string>, parsedPage: int): PageState {
    var p := if Truthy(queryPage) then parsedPage else 1;
    SetCurrentPage(s.(originalPage := p), p)
  }

  /**
   * The first render's effects, in declaration order: the query effect, then
   * the page effect fetching page 1. The query effect's `setCurrentPage` only
   * takes effect at the next render, so the page effect still fetches page 1,
   * and the state is the same as applying the fetch first.
   */
  function Mounted(s: PageState, queryPage: Option<string>, parsedPage: int): PageState {
    QueryEffect(s.(loading := true, pageFetches := s.pageFetches + [s.currentPage]), queryPage, parsedPage)
  }

  /** A reply the page can read: the browse endpoint never answers live-search rows. */
  predicate BrowseReadable(r: Response) {
    !r.body.SearchJson?
  }

  /**
   * The list a parsed reply becomes in state: the rows of an array. A JSON
   * object (the guard's 401, the 400) has no `length`, so it renders and
   * counts like an empty list.
   */
  function ListOf(b: Body): seq<BrowseRow> {
    if b.BrowseJson? then b.browseRows else []
  }

  /** The reply to a page fetch. */
  function OnPageData(s: PageState, r: Response): PageState
    requires BrowseReadable(r)
  {
    if !IsJson(r.body) then s
    else s.(browseResults := ListOf(r.body), waifuResults := [], loading := false)
  }

  function ResetPage(s: PageState): PageState {
    SetCurrentPage(s.(total := Pages(InitialTotal), waifuResults := []), s.originalPage)
  }

  /** `handleWaifuSearch`: an empty value resets; any other value starts a name search. */
  function HandleWaifuSearch(s: PageState, value: string): PageState {
    if value == "" then ResetPage(s)
    else s.(loading := true, searchFetches := s.searchFetches + [value])
  }

  /** The reply to a name search: total pages, the results, and back to page 1. */
  function OnSearchData(s: PageState, r: Response): PageState
    requires BrowseReadable(r)
  {
    if !IsJson(r.body) then s
    else
      var total := if r.body.BrowseJson? then Pages(TotalPages(|r.body.browseRows|)) else NotANumber;
      SetCurrentPage(s.(total := total, waifuResults := ListOf(r.body), loading := false), 1)
  }

  function OnResize(s: PageState, width: int): PageState {
    s.(isSmallScreen := width < SmallScreenWidth)
  }

  /** The table's rows: the current page's slice of the search results, or else the browse rows. */
  function Rows(s: PageState): seq<BrowseRow> {
    if |s.waifuResults| > 0 then JsSlice(s.waifuResults, (s.currentPage - 1) * PageRows, s.currentPage * PageRows)
    else s.browseResults
  }

  predicate ShowsTable(s: PageState) {
    |s.browseResults| > 0 || |s.waifuResults| > 0
  }

  /** `columns.slice(0, 1)` on a small screen. */
  function Columns(isSmallScreen: bool): seq<string> {
    var all := ["NAME", "SERIES"];
    if isSmallScreen then JsSlice(all, 0, 1) else all
  }

  lemma ColumnsShown(isSmallScreen: bool)
    ensures Columns(isSmallScreen) == if isSmallScreen then ["NAME"] else ["NAME", "SERIES"]
  {
  }

  /** Page `p` of the search results shows results `20(p-1)` onwards, at most 20 of them. */
  lemma SearchPageRows(s: PageState, i: nat)
    requires |s.waifuResults| > 0 && s.currentPage >= 1
    ensures var start := PageRows * (s.currentPage - 1);
            |Rows(s)| == Max(Min(PageRows * s.currentPage, |s.waifuResults|) - start, 0)
            && (i < |Rows(s)| ==> start + i < |s.waifuResults| && Rows(s)[i] == s.waifuResults[start + i])
  {
    var start := PageRows * (s.currentPage - 1);
    assert (s.currentPage - 1) * PageRows == start;
    JsSliceNonNegative(s.waifuResults, start, PageRows * s.currentPage, i);
  }

  /** Every search result lies on exactly one page between 1 and the total. */
  lemma ResultOnPage(n: nat, k: nat)
    requires k < n
    ensures var p := k / PageRows + 1;
            1 <= p <= TotalPages(n) && PageRows * (p - 1) <= k < PageRows * p
  {
  }

  /** Without any rows there is no table, only "No results found". */
  lemma NoTableNoRows(s: PageState)
    requires !ShowsTable(s)
    ensures Rows(s) == []
  {
  }

  /** A search answered on page 1 shows its first 20 results and fetches nothing more. */
  lemma SearchShownOnFirstPage(s: PageState, rows: seq<BrowseRow>)
    requires s.currentPage == 1 && |rows| > 0
    ensures var s2 := OnSearchData(s, Response(200, BrowseJson(rows)));
            s2.pageFetches == s.pageFetches && !s2.loading && s2.total == Pages(TotalPages(|rows|))
            && Rows(s2) == rows[..Min(PageRows, |rows|)]
  {
  }

  /**
   * A search answered while on another page moves to page 1, which runs the
   * page effect; once that fetch answers, the search results are gone and
   * the table shows page 1 of the collection.
   */
  lemma SearchElsewhereIsReplaced(s: PageState, rows: seq<BrowseRow>, page1: seq<BrowseRow>)
    requires s.currentPage != 1
    ensures var s2 := OnSearchData(s, Response(200, BrowseJson(rows)));
            var s3 := OnPageData(s2, Response(200, BrowseJson(page1)));
            s2.pageFetches == s.pageFetches + [1] && s2.loading && s3.waifuResults == [] && Rows(s3) == page1
  {
  }

  /**
   * Turning the pagination to another page while search results are shown
   * fetches that page of the collection, and its reply drops the search
   * results: they are shown page by page only until that reply arrives.
   */
  lemma PagingDropsSearch(s: PageState, p: int, rows: seq<BrowseRow>)
    requires |s.waifuResults| > 0 && p != s.currentPage
    ensures SetCurrentPage(s, p).pageFetches == s.pageFetches + [p]
    ensures OnPageData(SetCurrentPage(s, p), Response(200, BrowseJson(rows))).waifuResults == []
  {
  }

  /** Resetting restores the original page and the initial total and drops the search results. */
  lemma ResetRestores(s: PageState)
    ensures var r := ResetPage(s);
            r.currentPage == s.originalPage && r.total == Pages(InitialTotal) && r.waifuResults == []
            && (r.pageFetches == if s.originalPage != s.currentPage then s.pageFetches + [s.originalPage] else s.pageFetches)
  {
  }

  /** The URL's page, or 1, becomes both the current and the original page. */
  lemma QueryPageSetsBoth(s: PageState, queryPage: Option<string>, parsedPage: int)
    ensures var p := if Truthy(queryPage) then parsedPage else 1;
            QueryEffect(s, queryPage, parsedPage).currentPage == p && QueryEffect(s, queryPage, parsedPage).originalPage == p
  {
  }

  /** Everything the page can receive is readable: the endpoint's answers, its forwarded error, the limiters' 429. */
  lemma EndpointRepliesReadable(cfg: GuardConfig, authenticated: bool, host: Option<string>, waifus: seq<Waifu>,
                                page: Option<string>, pageNumber: int, waifu: Option<string>, h: Handled)
    requires BrowseAnswer(cfg, authenticated, host, waifus, page, pageNumber, waifu, h)
    ensures BrowseReadable(Delivered(h)) && BrowseReadable(Limited)
  {
  }

  /** A reply that is not JSON changes nothing: loading stays as it was, and no rows change. */
  lemma UnparsedReplyChangesNothing(s: PageState, r: Response)
    requires !IsJson(r.body)
    ensures OnPageData(s, r) == s && OnSearchData(s, r) == s
  {
  }

  /**
   * A page below 1 in the URL (`?page=0`) makes the endpoint forward the
   * store's skip error; the error page is plain text, so the page fetch
   * never finishes and loading stays on.
   */
  lemma PageBelowOneNeverLoads(cfg: GuardConfig, host: Option<string>, waifus: seq<Waifu>,
                               page: Option<string>, pageNumber: int, waifu: Option<string>, h: Handled, s: PageState)
    requires Truthy(page) && pageNumber < 1
    requires BrowseAnswer(cfg, true, host, waifus, page, pageNumber, waifu, h)
    ensures h.Forwarded? && OnPageData(s, Delivered(h)) == s
  {
  }

  /**
   * Once the session has ended, the guard's JSON 401 empties both lists and
   * ends loading, so the page shows "No results found"; as a search reply
   * it also makes the total NaN.
   */
  lemma ExpiredSessionShowsNoResults(cfg: GuardConfig, host: Option<string>, waifus: seq<Waifu>,
                                     page: Option<string>, pageNumber: int, waifu: Option<string>, h: Handled, s: PageState)
    requires BrowseAnswer(cfg, false, host, waifus, page, pageNumber, waifu, h)
    ensures var s2 := OnPageData(s, Delivered(h));
            !s2.loading && !ShowsTable(s2) && Rows(s2) == []
    ensures OnSearchData(s, Delivered(h)).total == NotANumber && OnSearchData(s, Delivered(h)).waifuResults == []
  {
  }

  class BrowsePageState {
    var browseResults: seq<BrowseRow>
    var currentPage: int
    var loading: bool
    var originalPage: int
    var total: PageTotal
    var waifuResults: seq<BrowseRow>
    var isSmallScreen: bool
    var pageFetches: seq<int>
    var searchFetches: seq<string>

    function State(): PageState
      reads this
    {
      PageState(browseResults, currentPage, loading, originalPage, total, waifuResults, isSmallScreen, pageFetches, searchFetches)
    }

    constructor ()
      ensures State() == Initial
    {
      browseResults, currentPage, loading, originalPage, total := [], 1, false, 1, Pages(InitialTotal);
      waifuResults, isSmallScreen, pageFetches, searchFetches := [], false, [], [];
    }

    /** `setCurrentPage(p)` followed by the page effect when the page changed. */
    method SetPage(p: int)
      modifies this
      ensures State() == SetCurrentPage(old(State()), p)
    {
      if p == currentPage {
        return;
      }
      currentPage := p;
      loading := true;
      pageFetches := pageFetches + [p];
    }

    method Mount(queryPage: Option<string>, parsedPage: int)
      modifies this
      ensures State() == Mounted(old(State()), queryPage, parsedPage)
    {
      loading := true;
      pageFetches := pageFetches + [currentPage];
      OnQuery(queryPage, parsedPage);
    }

    method OnQuery(queryPage: Option<string>, parsedPage: int)
      modifies this
      ensures State() == QueryEffect(old(State()), queryPage, parsedPage)
    {
      var p := if Truthy(queryPage) then parsedPage else 1;
      originalPage := p;
      SetPage(p);
    }

    /** The `then` of the page fetch once its reply `r` has arrived. */
    method PageDataArrived(r: Response)
      requires BrowseReadable(r)
      modifies this
      ensures State() == OnPageData(old(State()), r)
    {
      if !IsJson(r.body) {
        return;
      }
      browseResults := ListOf(r.body);
      waifuResults := [];
      loading := false;
    }

    method Reset()
      modifies this
      ensures State() == ResetPage(old(State()))
    {
      total := Pages(InitialTotal);
      waifuResults := [];
      SetPage(originalPage);
    }

    method WaifuSearch(value: string)
      modifies this
      ensures State() == HandleWaifuSearch(old(State()), value)
    {
      if value == "" {
        Reset();
        return;
      }
      loading := true;
      searchFetches := searchFetches + [value];
    }

    /** The `then` of the name search once its reply `r` has arrived. */
    method SearchDataArrived(r: Response)
      requires BrowseReadable(r)
      modifies this
      ensures State() == OnSearchData(old(State()), r)
    {
      if !IsJson(r.body) {
        return;
      }
      if r.body.BrowseJson? {
        total := Pages((|r.body.browseRows| + PageRows - 1) / PageRows);
      } else {
        total := NotANumber;
      }
      waifuResults := ListOf(r.body);
      loading := false;
      SetPage(1);
    }

    method Resized(width: int)
      modifies this
      ensures State() == OnResize(old(State()), width)
    {
      isSmallScreen := width < SmallScreenWidth;
    }

    /** The rows `renderTable` passes to the table body. */
    method TableRows() returns (rows: seq<BrowseRow>)
      ensures rows == Rows(State())
    {
      if |waifuResults| > 0 {
        rows := JsSlice(waifuResults, (currentPage - 1) * PageRows, currentPage * PageRows);
      } else {
        rows := browseResults;
      }
    }
  }
}
