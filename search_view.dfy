/** The search page's result list (src/pages/Search.jsx): the first page fetched when
    the page's query string changes, and the "show more" step that appends the next
    batch. The listings API is not called: each fetch's outcome is an input. */
module SearchView {
  import opened Options
  import opened Numerals
  import opened QueryParams
  import opened Listings
  import opened SearchFilters

  /** What a request to the listings API came back with: the listings of the response,
      or a failure (the request or the reading of its body threw). */
  datatype FetchOutcome = Fetched(items: seq<Listing>) | FetchFailed

  /** The displayed list and whether the "show more" control is offered. */
  datatype Page = Page(listings: seq<Listing>, showMore: bool)

  /** The first page: a full batch of nine means there may be more, and only the first
      eight are shown (the ninth is a look-ahead probe); a shorter batch is shown
      whole; a failure shows nothing. */
  function FirstPage(outcome: FetchOutcome): Page {
    match outcome
    case Fetched(data) =>
      if |data| == PageSize then Page(data[..PageSize - 1], true) else Page(data, false)
    case FetchFailed => Page([], false)
  }

  /** "Show more": the batch is appended whole; a batch shorter than nine withdraws the
      control, a full one leaves it as it was; a failure keeps the list and withdraws
      the control. */
  function NextPage(p: Page, outcome: FetchOutcome): Page {
    match outcome
    case Fetched(data) =>
      Page(p.listings + data, if |data| < PageSize then false else p.showMore)
    case FetchFailed => Page(p.listings, false)
  }

  /** The first page's look-ahead: "show more" is offered exactly when nine came back,
      the list shown is the batch in order with at most the ninth held back. */
  lemma FirstPageLookahead(data: seq<Listing>)
    ensures var p := FirstPage(Fetched(data));
            && (p.showMore <==> |data| == 9)
            && p.listings <= data
            && |p.listings| == (if p.showMore then 8 else |data|)
  {
  }

  /** A failed first fetch shows an empty list without "show more". */
  lemma FirstPageFailure()
    ensures FirstPage(FetchFailed) == Page([], false)
  {
  }

  /** "Show more" keeps what was shown as a prefix and appends the batch untruncated;
      it never turns "show more" on, and turns it off exactly for a short batch or a
      failure. */
  lemma NextPageAppends(p: Page, outcome: FetchOutcome)
    ensures var r := NextPage(p, outcome);
            && p.listings <= r.listings
            && (outcome.Fetched? ==> r.listings[|p.listings|..] == outcome.items)
            && (outcome.FetchFailed? ==> r.listings == p.listings)
            && (r.showMore ==> p.showMore)
            && (!r.showMore <==> !p.showMore || outcome.FetchFailed? || |outcome.items| < 9)
  {
  }

  /** The batch a server holding the result list `all` returns for a request with the
      given `startIndex` and `limit=9`. */
  function ServerBatch(all: seq<Listing>, start: nat): (batch: seq<Listing>)
    ensures |batch| <= PageSize
  {
    if start >= |all| then []
    else if start + PageSize <= |all| then all[start..start + PageSize]
    else all[start..]
  }

  /** The page agrees with the server's list: what is shown is its beginning, in order,
      with nothing skipped or repeated, and once "show more" is withdrawn everything is
      shown. */
  predicate ConsistentWith(all: seq<Listing>, p: Page) {
    && |p.listings| <= |all|
    && p.listings == all[..|p.listings|]
    && (!p.showMore ==> p.listings == all)
  }

  /** A successful first page agrees with the server's list. */
  lemma FirstPageConsistent(all: seq<Listing>)
    ensures ConsistentWith(all, FirstPage(Fetched(ServerBatch(all, 0))))
  {
  }

  /** Asking for more from `startIndex` = the number shown keeps the page in agreement
      with the server's list: the probe held back from a full page is fetched again, not
      lost, and no listing is shown twice. */
  lemma NextPageConsistent(all: seq<Listing>, p: Page)
    requires ConsistentWith(all, p)
    ensures ConsistentWith(all, NextPage(p, Fetched(ServerBatch(all, |p.listings|))))
  {
    var n := |p.listings|;
    var batch := ServerBatch(all, n);
    var r := NextPage(p, Fetched(batch));
    if n + PageSize <= |all| {
      assert all[..n] + all[n..n + PageSize] == all[..n + PageSize];
    } else {
      assert all[..n] + all[n..] == all;
    }
  }

  /** The search page's state: the page's query string (as the location holds it), the
      sidebar's filters and the result list. */
  class SearchPage {
    var location: Params
    var sidebar: FilterState
    var loading: bool
    var listings: seq<Listing>
    var showMore: bool

    /** The page as first rendered, before its effect has read the query string. */
    constructor (search: Params)
      ensures location == search && sidebar == InitialFilters
      ensures !loading && listings == [] && !showMore
    {
      location := search;
      sidebar := InitialFilters;
      loading := false;
      listings := [];
      showMore := false;
    }

    /** The effect run when the query string changes: the sidebar is set from the query
        string, the first page is requested with the query returned here, and the list
        is replaced according to `outcome`. */
    method LocationChanged(search: Params, outcome: FetchOutcome) returns (apiQuery: Params)
      modifies this
      ensures location == search && sidebar == Decode(search)
      ensures apiQuery == FirstPageQuery(sidebar)
      ensures Page(listings, showMore) == FirstPage(outcome)
      ensures !loading
    {
      location := search;
      var f := Decode(search);
      sidebar := f;
      loading := true;
      showMore := false;
      apiQuery := FirstPageQuery(f);
      match outcome {
        case Fetched(data) =>
          if |data| == PageSize {
            showMore := true;
            listings := data[..PageSize - 1];
          } else {
            showMore := false;
            listings := data;
          }
        case FetchFailed =>
          listings := [];
          showMore := false;
      }
      loading := false;
    }

    /** An input of the sidebar changed. */
    method HandleChange(e: InputEvent)
      modifies this`sidebar
      ensures sidebar == ApplyChange(old(sidebar), e)
    {
      sidebar := ApplyChange(sidebar, e);
    }

    /** Submitting the sidebar: the query string navigated to, which reads back as the
        sidebar's filters whenever none of type, sort and order is empty. */
    method HandleSubmit() returns (target: Params)
      ensures target == Encode(sidebar)
      ensures FullyPopulated(sidebar) ==> Decode(target) == sidebar
    {
      target := Encode(sidebar);
      if FullyPopulated(sidebar) {
        RoundTrip(sidebar);
      }
    }

    /** "Show more": the next batch is requested from the number of listings shown with
        the query returned here, and appended according to `outcome`. */
    method ShowMore(outcome: FetchOutcome) returns (apiQuery: Params)
      modifies this`listings, this`showMore
      ensures apiQuery == ShowMoreQuery(location, |old(listings)|)
      ensures Page(listings, showMore) == NextPage(Page(old(listings), old(showMore)), outcome)
    {
      var numberOfListings := |listings|;
      apiQuery := ShowMoreQuery(location, numberOfListings);
      match outcome {
        case Fetched(data) =>
          if |data| < PageSize {
            showMore := false;
          }
          listings := listings + data;
        case FetchFailed =>
          showMore := false;
      }
    }
  }
}
