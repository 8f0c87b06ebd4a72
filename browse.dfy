/** The browse state machine and the result renderer: which feed is shown
    (trending or a search), the retained search parameters, the page cursor
    and page count, the rendered result grid and the visibility of the
    empty-results indicator and of the load-more control.

    Each user action is one atomic transition; the outcome of the fetch it
    issues is a parameter. The pure functions over `View` say what each
    transition does; the class `Explorer` holds the same state in fields and
    its methods are proved to perform exactly those transitions. */
module Browse {
  import opened Wrappers
  import opened Text
  import opened Mappers
  import opened Endpoints

  datatype Mode = Trending | Search

  /** What a trending or search fetch delivered: its total_pages (0 when the
      response has none) and its results (empty when it has none), or a
      failure (a non-2xx status or a transport error). */
  datatype Response = Loaded(totalPages: int, results: seq<Item>) | Failed

  /** A snapshot of the browse state. */
  datatype View = View(
    mode: Mode,
    currentPage: nat,
    totalPages: int,
    lastQuery: string,
    lastType: string,
    lastYear: string,
    grid: seq<Item>,
    emptyShown: bool,
    loadMoreShown: bool)

  /** The state after a transition, and the fetch the transition issued. */
  datatype Step = Step(view: View, request: Option<Request>)

  /** The state before the first fetch. The grid and both indicators are
      overwritten by the initial render whatever they start as. */
  const Start := View(Trending, 1, 1, "", "all", "", [], false, false)

  predicate IsPerson(item: Item) {
    TypeOf(item) == "person"
  }

  /** The items of a page that get a card: every one whose kind is not
      "person", in the order the page lists them. */
  function Displayable(items: seq<Item>): (r: seq<Item>)
    ensures |r| <= |items|
  {
    if items == [] then []
    else (if IsPerson(items[0]) then [] else [items[0]]) + Displayable(items[1..])
  }

  /** The filter drops exactly the person hits: everything it keeps is a non-person item of the page, and every
      non-person item of the page is kept. */
  lemma {:induction false} DisplayableFilters(items: seq<Item>)
    ensures forall x :: x in Displayable(items) ==> x in items && !IsPerson(x)
    ensures forall x :: x in items && !IsPerson(x) ==> x in Displayable(items)
  {
    if items != [] {
      DisplayableFilters(items[1..]);
      assert items == [items[0]] + items[1..];
    }
  }

  /** Filtering a page that starts with `x`: `x`'s card, unless it is a
      person hit, then the rest. */
  lemma DisplayableCons(x: Item, rest: seq<Item>)
    ensures Displayable([x] + rest) == (if IsPerson(x) then [] else [x]) + Displayable(rest)
  {
    assert ([x] + rest)[0] == x && ([x] + rest)[1..] == rest;
  }

  /** Filtering two pages one after the other is filtering them joined: the
      order of the input survives. */
  lemma {:induction false} DisplayableAppend(a: seq<Item>, b: seq<Item>)
    ensures Displayable(a + b) == Displayable(a) + Displayable(b)
  {
    if a == [] {
      assert a + b == b;
    } else {
      var x, rest := a[0], a[1..];
      var head := if IsPerson(x) then [] else [x];
      assert a == [x] + rest;
      assert a + b == [x] + (rest + b);
      DisplayableCons(x, rest);
      DisplayableCons(x, rest + b);
      DisplayableAppend(rest, b);
      assert head + (Displayable(rest) + Displayable(b)) == head + Displayable(rest) + Displayable(b);
    }
  }

  /** Filtering one more item of a page adds that item, unless it is a
      person hit. */
  lemma DisplayableSnoc(items: seq<Item>, i: nat)
    requires i < |items|
    ensures Displayable(items[..i + 1]) ==
      Displayable(items[..i]) + (if IsPerson(items[i]) then [] else [items[i]])
  {
    assert items[..i + 1] == items[..i] + [items[i]];
    assert Displayable([items[i]]) == if IsPerson(items[i]) then [] else [items[i]] by {
      assert [items[i]][1..] == [];
    }
    DisplayableAppend(items[..i], [items[i]]);
  }

  /** A page without person hits is shown whole, in order. */
  lemma {:induction false} DisplayableKeepsMedia(items: seq<Item>)
    requires forall i :: 0 <= i < |items| ==> !IsPerson(items[i])
    ensures Displayable(items) == items
  {
    if items != [] {
      DisplayableKeepsMedia(items[1..]);
    }
  }

  /** The page cursor is at least 1 and, once the page count is positive,
      does not pass it. */
  predicate PagingOk(v: View) {
    1 <= v.currentPage && (1 <= v.totalPages ==> v.currentPage <= v.totalPages)
  }

  /** The invariant every transition keeps: sane paging, no person card in the
      grid, and the empty indicator only over an empty grid with load-more
      hidden. */
  predicate Consistent(v: View) {
    PagingOk(v)
    && (forall x :: x in v.grid ==> !IsPerson(x))
    && (v.emptyShown ==> v.grid == [] && !v.loadMoreShown)
  }

  /** The stronger paging invariant, kept as long as no response reports a
      negative page count. */
  predicate Bounded(v: View) {
    1 <= v.currentPage <= v.totalPages
  }

  predicate NonNegativePages(outcome: Response) {
    outcome.Loaded? ==> outcome.totalPages >= 0
  }

  /** render: a fresh render of no items clears the grid, shows the empty
      indicator and hides load-more; otherwise the grid becomes the old grid
      (append) or nothing (replace) followed by the page's non-person items,
      the empty indicator is hidden and load-more is shown exactly when pages
      remain. The paging state is left alone. */
  function Rendered(v: View, items: seq<Item>, append: bool): (r: View)
    ensures r.(grid := v.grid, emptyShown := v.emptyShown, loadMoreShown := v.loadMoreShown) == v
    ensures !append && items == [] ==> r.grid == [] && r.emptyShown && !r.loadMoreShown
    ensures append || items != [] ==>
      r.grid == (if append then v.grid else []) + Displayable(items)
      && !r.emptyShown
      && (r.loadMoreShown <==> v.currentPage < v.totalPages)
    ensures Consistent(v) ==> Consistent(r)
  {
    var base := if append then v.grid else [];
    DisplayableFilters(items);
    if !append && items == [] then v.(grid := base, emptyShown := true, loadMoreShown := false)
    else v.(grid := base + Displayable(items), emptyShown := false, loadMoreShown := v.currentPage < v.totalPages)
  }

  /** `total_pages || 1`: the reported page count, or 1 when it is missing or 0. */
  function PagesOrOne(t: int): (r: int)
    ensures r != 0
    ensures t != 0 ==> r == t
  {
    if t != 0 then t else 1
  }

  /** How a fresh (non-append) fetch lands: on success the page count is taken
      from the response and its results replace the grid; on failure the page
      count stays and the grid shows the empty indicator. */
  function Refreshed(v: View, outcome: Response): (r: View)
    ensures r.mode == v.mode && r.currentPage == v.currentPage
    ensures r.lastQuery == v.lastQuery && r.lastType == v.lastType && r.lastYear == v.lastYear
    ensures outcome.Loaded? ==> r.totalPages == PagesOrOne(outcome.totalPages)
    ensures outcome.Loaded? && outcome.results != [] ==>
      r.grid == Displayable(outcome.results) && !r.emptyShown
      && (r.loadMoreShown <==> v.currentPage < r.totalPages)
    ensures outcome.Failed? || outcome.results == [] ==> r.grid == [] && r.emptyShown && !r.loadMoreShown
    ensures outcome.Failed? ==> r.totalPages == v.totalPages
    ensures Consistent(v) && v.currentPage == 1 ==> Consistent(r)
    ensures v.currentPage == 1 && (Bounded(v) || outcome.Loaded?) && NonNegativePages(outcome) ==> Bounded(r)
  {
    match outcome
    case Loaded(t, results) => Rendered(v.(totalPages := PagesOrOne(t)), results, false)
    case Failed => Rendered(v, [], false)
  }

  /** The first render, on start-up: the trending feed's first page. */
  function Initial(outcome: Response): (r: View)
    ensures r.mode == Trending && r.currentPage == 1
    ensures r.lastQuery == "" && r.lastType == "all" && r.lastYear == ""
    ensures outcome.Loaded? ==> r.totalPages == PagesOrOne(outcome.totalPages)
    ensures outcome.Failed? ==> r.totalPages == 1
    ensures outcome.Loaded? && outcome.results != [] ==>
      r.grid == Displayable(outcome.results) && !r.emptyShown
      && (r.loadMoreShown <==> 1 < r.totalPages)
    ensures outcome.Failed? || outcome.results == [] ==> r.grid == [] && r.emptyShown && !r.loadMoreShown
    ensures Consistent(r)
    ensures NonNegativePages(outcome) ==> Bounded(r)
  {
    Refreshed(Start, outcome)
  }

  /** Submitting the search form. A query that is empty once trimmed changes
      nothing and fetches nothing. Otherwise the explorer switches to search
      mode, keeps the trimmed query, the kind and the trimmed year for later
      pages, goes back to page 1, fetches that page, and lands the outcome as
      a fresh render. */
  function Submitted(v: View, rawQuery: string, kind: string, rawYear: string, outcome: Response): (r: Step)
    ensures Trim(rawQuery) == "" ==> r == Step(v, None)
    ensures Trim(rawQuery) != "" ==>
      r.request == Some(SearchPage(Trim(rawQuery), kind, Trim(rawYear), 1))
      && r.view.mode == Search && r.view.currentPage == 1
      && r.view.lastQuery == Trim(rawQuery) && r.view.lastType == kind && r.view.lastYear == Trim(rawYear)
      && r.view == Refreshed(v.(mode := Search, lastQuery := Trim(rawQuery), lastType := kind,
                                lastYear := Trim(rawYear), currentPage := 1), outcome)
    ensures Consistent(v) ==> Consistent(r.view)
    ensures Bounded(v) && NonNegativePages(outcome) ==> Bounded(r.view)
  {
    var q := Trim(rawQuery);
    var year := Trim(rawYear);
    if q == "" then Step(v, None)
    else
      var searching := v.(mode := Search, lastQuery := q, lastType := kind, lastYear := year, currentPage := 1);
      Step(Refreshed(searching, outcome), Some(SearchPage(q, kind, year, 1)))
  }

  /** Clicking "trending": trending mode, page 1, a fetch of the feed's first
      page landed as a fresh render. The retained search parameters are kept
      but no longer used. */
  function TrendingClicked(v: View, outcome: Response): (r: Step)
    ensures r.request == Some(TrendingPage(1))
    ensures r.view.mode == Trending && r.view.currentPage == 1
    ensures r.view.lastQuery == v.lastQuery && r.view.lastType == v.lastType && r.view.lastYear == v.lastYear
    ensures r.view == Refreshed(v.(mode := Trending, currentPage := 1), outcome)
    ensures Consistent(v) ==> Consistent(r.view)
    ensures Bounded(v) && NonNegativePages(outcome) ==> Bounded(r.view)
  {
    var trending := v.(mode := Trending, currentPage := 1);
    Step(Refreshed(trending, outcome), Some(TrendingPage(1)))
  }

  /** Clicking "load more". With no page left it does nothing and fetches
      nothing. Otherwise the cursor moves on by exactly one page and that page
      is fetched: from the trending feed in trending mode, else with the
      retained search parameters. Its results are appended to the grid; on
      failure the grid stays as it was and the cursor is not moved back. The
      page count is never updated here. */
  function LoadedMore(v: View, outcome: Response): (r: Step)
    ensures v.currentPage >= v.totalPages ==> r == Step(v, None)
    ensures v.currentPage < v.totalPages ==>
      r.request == Some(if v.mode == Trending then TrendingPage(v.currentPage + 1)
                        else SearchPage(v.lastQuery, v.lastType, v.lastYear, v.currentPage + 1))
      && r.view.currentPage == v.currentPage + 1 && r.view.totalPages == v.totalPages
      && r.view.mode == v.mode
      && r.view.lastQuery == v.lastQuery && r.view.lastType == v.lastType && r.view.lastYear == v.lastYear
    ensures v.currentPage < v.totalPages && outcome.Failed? ==> r.view == v.(currentPage := v.currentPage + 1)
    ensures v.currentPage < v.totalPages && outcome.Loaded? ==>
      r.view.grid == v.grid + Displayable(outcome.results) && !r.view.emptyShown
      && (r.view.loadMoreShown <==> v.currentPage + 1 < v.totalPages)
    ensures Consistent(v) ==> Consistent(r.view)
    ensures Bounded(v) ==> Bounded(r.view)
  {
    if v.currentPage >= v.totalPages then Step(v, None)
    else
      var next := v.(currentPage := v.currentPage + 1);
      var req := if v.mode == Trending then TrendingPage(next.currentPage)
                 else SearchPage(v.lastQuery, v.lastType, v.lastYear, next.currentPage);
      match outcome
      case Loaded(_, results) => Step(Rendered(next, results, true), Some(req))
      case Failed => Step(next, Some(req))
  }

  /** A search followed by "load more": the second fetch asks for page 2 with
      exactly the submitted (trimmed) query, kind and year, and on success the
      grid holds the first page's cards followed by the second's, as if the
      two pages had been one. */
  lemma SearchThenLoadMore(v: View, rawQuery: string, kind: string, rawYear: string,
                           total: int, first: seq<Item>, second: Response)
    requires Trim(rawQuery) != "" && total >= 2 && first != []
    ensures
      var s1 := Submitted(v, rawQuery, kind, rawYear, Loaded(total, first));
      var s2 := LoadedMore(s1.view, second);
      s1.view.loadMoreShown
      && s2.request == Some(SearchPage(Trim(rawQuery), kind, Trim(rawYear), 2))
      && (second.Loaded? ==> s2.view.grid == Displayable(first + second.results))
  {
    var s1 := Submitted(v, rawQuery, kind, rawYear, Loaded(total, first));
    assert s1.view.mode == Search && s1.view.currentPage == 1 && s1.view.totalPages == total;
    assert s1.view.grid == Displayable(first) && s1.view.loadMoreShown;
    var s2 := LoadedMore(s1.view, second);
    assert s2.request == Some(SearchPage(Trim(rawQuery), kind, Trim(rawYear), 2));
    if second.Loaded? {
      DisplayableAppend(first, second.results);
    }
  }

  /** Submitting the retained search again (the trimmed query, the kind and
      the trimmed year the explorer kept) issues the very request the first
      submission issued: trimming what is already trimmed changes nothing. */
  lemma ResubmitRetainedSearch(v: View, rawQuery: string, kind: string, rawYear: string,
                               first: Response, again: Response)
    requires Trim(rawQuery) != ""
    ensures
      var s1 := Submitted(v, rawQuery, kind, rawYear, first);
      var s2 := Submitted(s1.view, s1.view.lastQuery, s1.view.lastType, s1.view.lastYear, again);
      s2.request == s1.request
  {
    TrimIdempotent(rawQuery);
    TrimIdempotent(rawYear);
  }

  /** After "trending", "load more" continues the trending feed whatever
      search was retained: the old query has no effect on later pages. */
  lemma TrendingThenLoadMore(v: View, total: int, first: seq<Item>, second: Response)
    requires total >= 2
    ensures
      var s1 := TrendingClicked(v, Loaded(total, first));
      LoadedMore(s1.view, second).request == Some(TrendingPage(2))
  {
  }

  /** A failed "load more" still consumes its page: the next "load more"
      fetches the page after it, so the failed page's results are never
      shown, and the grid is unchanged by the failure. */
  lemma FailedPageIsSkipped(v: View, outcome: Response)
    requires Consistent(v) && v.currentPage + 1 < v.totalPages
    ensures
      var s1 := LoadedMore(v, Failed);
      var s2 := LoadedMore(s1.view, outcome);
      s1.view.grid == v.grid
      && s2.request.Some? && s2.request.value.page == v.currentPage + 2
  {
  }

  /** The worked example of a movie search: after searching "batman" among
      movies from 1989 and receiving a non-empty first page out of five, the
      explorer is in search mode on page 1 of 5 with load-more visible, and
      the fetch it issued is the first page of the movie search for it. */
  lemma BatmanExample(v: View, first: seq<Item>)
    requires first != []
    ensures
      var s := Submitted(v, "batman", "movie", "1989", Loaded(5, first));
      s.view.mode == Search && s.view.currentPage == 1 && s.view.totalPages == 5
      && s.view.lastQuery == "batman" && s.view.lastType == "movie" && s.view.lastYear == "1989"
      && s.view.loadMoreShown
      && s.request == Some(SearchPage("batman", "movie", "1989", 1))
  {
    TrimKeeps("batman");
    TrimKeeps("1989");
  }

  /** The URL of that first fetch: the movie search, with the year filter last. */
  lemma BatmanUrl(encode: string -> string)
    ensures RequestUrl(SearchPage("batman", "movie", "1989", 1), encode) ==
      API + "/search/movie" + ("?api_key=" + TMDB_KEY) + "&include_adult=false" + "&language=en-US"
      + ("&page=" + "1") + ("&query=" + encode("batman")) + ("&year=" + encode("1989"))
  {
    assert NatToString(1) == "1";
  }

  /** The explorer's browse state, updated in place by its event handlers. */
  class Explorer {
    var mode: Mode
    var currentPage: nat
    var totalPages: int
    var lastQuery: string
    var lastType: string
    var lastYear: string
    var grid: seq<Item>
    var emptyShown: bool
    var loadMoreShown: bool

    function Snapshot(): View
      reads this
    {
      View(mode, currentPage, totalPages, lastQuery, lastType, lastYear, grid, emptyShown, loadMoreShown)
    }

    ghost predicate Valid()
      reads this
    {
      Consistent(Snapshot())
    }

    /** Start-up: the initial state, then the trending feed's first page. */
    constructor (outcome: Response)
      ensures Valid() && Snapshot() == Initial(outcome)
    {
      mode, currentPage, totalPages := Trending, 1, 1;
      lastQuery, lastType, lastYear := "", "all", "";
      grid, emptyShown, loadMoreShown := [], false, false;
      new;
      Refresh(outcome);
    }

    /** render(items, append), card by card. */
    method Render(items: seq<Item>, append: bool)
      modifies this
      ensures Snapshot() == Rendered(old(Snapshot()), items, append)
    {
      if !append {
        grid := [];
      }
      if |items| == 0 && !append {
        emptyShown, loadMoreShown := true, false;
        return;
      }
      emptyShown := false;
      ghost var base := grid;
      var i := 0;
      assert items[..0] == [] && base + Displayable([]) == base;
      assert grid == base + Displayable(items[..0]);
      while i < |items|
        invariant 0 <= i <= |items|
        invariant grid == base + Displayable(items[..i])
        invariant emptyShown == false && loadMoreShown == old(loadMoreShown)
        invariant mode == old(mode) && currentPage == old(currentPage) && totalPages == old(totalPages)
        invariant lastQuery == old(lastQuery) && lastType == old(lastType) && lastYear == old(lastYear)
      {
        var it := items[i];
        DisplayableSnoc(items, i);
        ghost var done := Displayable(items[..i]);
        if TypeOf(it) != "person" {
          grid := grid + [it];
          assert grid == base + (done + [it]);
        }
        i := i + 1;
      }
      assert items[..i] == items;
      loadMoreShown := currentPage < totalPages;
    }

    /** The search form's submit handler. */
    method Submit(rawQuery: string, kind: string, rawYear: string, outcome: Response) returns (req: Option<Request>)
      requires Valid()
      modifies this
      ensures Valid()
      ensures Step(Snapshot(), req) == Submitted(old(Snapshot()), rawQuery, kind, rawYear, outcome)
    {
      var q := Trim(rawQuery);
      var year := Trim(rawYear);
      if q == "" {
        return None;
      }
      mode, lastQuery, lastType, lastYear, currentPage := Search, q, kind, year, 1;
      assert Snapshot() == old(Snapshot()).(mode := Search, lastQuery := q, lastType := kind,
                                            lastYear := year, currentPage := 1);
      req := Some(SearchPage(q, kind, year, currentPage));
      Refresh(outcome);
    }

    /** What the submit and trending handlers do once their fetch is back. */
    method Refresh(outcome: Response)
      modifies this
      ensures Snapshot() == Refreshed(old(Snapshot()), outcome)
    {
      match outcome {
        case Loaded(t, results) =>
          totalPages := PagesOrOne(t);
          Render(results, false);
        case Failed =>
          Render([], false);
      }
    }

    /** The "trending" button's click handler. */
    method ShowTrending(outcome: Response) returns (req: Option<Request>)
      requires Valid()
      modifies this
      ensures Valid()
      ensures Step(Snapshot(), req) == TrendingClicked(old(Snapshot()), outcome)
    {
      mode, currentPage := Trending, 1;
      req := Some(TrendingPage(currentPage));
      Refresh(outcome);
    }

    /** The "load more" button's click handler. */
    method LoadMore(outcome: Response) returns (req: Option<Request>)
      requires Valid()
      modifies this
      ensures Valid()
      ensures Step(Snapshot(), req) == LoadedMore(old(Snapshot()), outcome)
    {
      if currentPage >= totalPages {
        return None;
      }
      currentPage := currentPage + 1;
      if mode == Trending {
        req := Some(TrendingPage(currentPage));
      } else {
        req := Some(SearchPage(lastQuery, lastType, lastYear, currentPage));
      }
      match outcome {
        case Loaded(_, results) =>
          Render(results, true);
        case Failed =>
      }
    }
  }
}
