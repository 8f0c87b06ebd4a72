/** The API gateway's URLs: the weekly trending feed, the three searches and
    the per-item detail request. A URL is the API root, a path and a query
    string built from name/value parameters; each URL function also states
    its result as the template the explorer writes, one parenthesised group
    per parameter. */
module Endpoints {
  import opened Wrappers
  import opened Text

  const API := "https://api.themoviedb.org/3"
  const TMDB_KEY := "PASTE_YOUR_TMDB_API_KEY_HERE"

  /** The query parameter names the explorer uses. */
  datatype Name =
    | ApiKey | IncludeAdult | Language | Page | Query | Year | FirstAirDateYear | AppendToResponse

  function NameText(n: Name): string
  {
    match n
    case ApiKey => "api_key"
    case IncludeAdult => "include_adult"
    case Language => "language"
    case Page => "page"
    case Query => "query"
    case Year => "year"
    case FirstAirDateYear => "first_air_date_year"
    case AppendToResponse => "append_to_response"
  }

  datatype Param = Param(name: Name, value: string)

  /** The fetches the explorer issues for its result grid. */
  datatype Request =
    | TrendingPage(page: nat)
    | SearchPage(query: string, kind: string, year: string, page: nat)

  /** One parameter as it appears in a query string. */
  function Pair(p: Param): string
  {
    NameText(p.name) + "=" + p.value
  }

  /** The parameters after the first, each written as "&name=value". */
  function MoreParams(ps: seq<Param>): string
  {
    if ps == [] then "" else "&" + Pair(ps[0]) + MoreParams(ps[1..])
  }

  /** "name=value" pairs joined by "&". */
  function QueryString(ps: seq<Param>): string
  {
    if ps == [] then "" else Pair(ps[0]) + MoreParams(ps[1..])
  }

  function Url(path: string, ps: seq<Param>): string
  {
    API + path + "?" + QueryString(ps)
  }

  /** The value of the first parameter with the given name, if any. */
  function Lookup(ps: seq<Param>, name: Name): Option<string>
  {
    if ps == [] then None
    else if ps[0].name == name then Some(ps[0].value)
    else Lookup(ps[1..], name)
  }

  /** Lookup finds the first parameter of that name, and finds nothing
      exactly when the list has no parameter of that name. */
  lemma {:induction false} LookupFindsFirst(ps: seq<Param>, name: Name)
    ensures Lookup(ps, name).Some? ==>
      exists i :: 0 <= i < |ps| && ps[i] == Param(name, Lookup(ps, name).value)
                  && forall j :: 0 <= j < i ==> ps[j].name != name
    ensures Lookup(ps, name).None? ==> forall i :: 0 <= i < |ps| ==> ps[i].name != name
  {
    if ps != [] && ps[0].name != name {
      LookupFindsFirst(ps[1..], name);
      if Lookup(ps, name).Some? {
        var i :| 0 <= i < |ps[1..]| && ps[1..][i] == Param(name, Lookup(ps, name).value)
                 && forall j :: 0 <= j < i ==> ps[1..][j].name != name;
        assert ps[i + 1] == Param(name, Lookup(ps, name).value);
      }
    } else if ps != [] {
      assert ps[0] == Param(name, Lookup(ps, name).value);
    }
  }

  /** Looking a name up past a first parameter of another name. */
  lemma LookupCons(p: Param, rest: seq<Param>)
    ensures forall name :: Lookup([p] + rest, name) == if p.name == name then Some(p.value) else Lookup(rest, name)
  {
    assert ([p] + rest)[0] == p && ([p] + rest)[1..] == rest;
  }

  /** Looking a name up in two lists joined is looking it up in the first,
      then in the second. */
  lemma {:induction false} LookupAppend(ps: seq<Param>, qs: seq<Param>, name: Name)
    ensures Lookup(ps + qs, name) == if Lookup(ps, name).Some? then Lookup(ps, name) else Lookup(qs, name)
  {
    if ps != [] {
      assert (ps + qs)[1..] == ps[1..] + qs;
      LookupAppend(ps[1..], qs, name);
    } else {
      assert ps + qs == qs;
    }
  }

  lemma Join(x: string, y: string, z: string)
    ensures x + (y + z) == x + y + z
  {
  }

  /** Adding one parameter at the end adds its "&name=value" at the end. */
  lemma {:induction false} MoreParamsSnoc(ps: seq<Param>, p: Param)
    ensures MoreParams(ps + [p]) == MoreParams(ps) + ("&" + Pair(p))
  {
    if ps == [] {
      assert ps + [p] == [p];
      assert MoreParams([p]) == "&" + Pair(p) + MoreParams([]);
    } else {
      assert (ps + [p])[1..] == ps[1..] + [p];
      MoreParamsSnoc(ps[1..], p);
      calc {
        MoreParams(ps + [p]);
        "&" + Pair(ps[0]) + MoreParams(ps[1..] + [p]);
        "&" + Pair(ps[0]) + (MoreParams(ps[1..]) + ("&" + Pair(p)));
        { Join("&" + Pair(ps[0]), MoreParams(ps[1..]), "&" + Pair(p)); }
        "&" + Pair(ps[0]) + MoreParams(ps[1..]) + ("&" + Pair(p));
      }
    }
  }

  /** The URL of a single parameter. */
  lemma UrlOfOne(path: string, p: Param)
    ensures Url(path, [p]) == API + path + ("?" + Pair(p))
  {
    assert QueryString([p]) == Pair(p) + MoreParams([]);
    Join(API + path, "?", Pair(p));
  }

  /** Adding one parameter at the end of a non-empty list adds "&name=value"
      at the end of the URL. */
  lemma UrlSnoc(path: string, ps: seq<Param>, p: Param)
    requires ps != []
    ensures Url(path, ps + [p]) == Url(path, ps) + ("&" + Pair(p))
  {
    assert (ps + [p])[0] == ps[0];
    assert (ps + [p])[1..] == ps[1..] + [p];
    MoreParamsSnoc(ps[1..], p);
    Join(Pair(ps[0]), MoreParams(ps[1..]), "&" + Pair(p));
    Join(API + path + "?", QueryString(ps), "&" + Pair(p));
  }

  /** One parameter with the separator before it: the literal text up to the
      value, then the value. */
  lemma Field(sep: string, name: Name, value: string)
    ensures sep + Pair(Param(name, value)) == sep + NameText(name) + "=" + value
  {
    Join(sep, NameText(name) + "=", value);
    Join(sep, NameText(name), "=");
  }

  lemma KeyField()
    ensures "?" + Pair(Param(ApiKey, TMDB_KEY)) == "?api_key=" + TMDB_KEY
  {
    Field("?", ApiKey, TMDB_KEY);
    assert "?" + "api_key" + "=" == "?api_key=";
  }

  lemma AdultField()
    ensures "&" + Pair(Param(IncludeAdult, "false")) == "&include_adult=false"
  {
  }

  lemma LanguageField()
    ensures "&" + Pair(Param(Language, "en-US")) == "&language=en-US"
  {
  }

  lemma VideosField()
    ensures "&" + Pair(Param(AppendToResponse, "videos")) == "&append_to_response=videos"
  {
  }

  lemma PageField(page: string)
    ensures "&" + Pair(Param(Page, page)) == "&page=" + page
  {
    Field("&", Page, page);
    assert "&" + "page" + "=" == "&page=";
  }

  lemma QueryField(query: string)
    ensures "&" + Pair(Param(Query, query)) == "&query=" + query
  {
    Field("&", Query, query);
    assert "&" + "query" + "=" == "&query=";
  }

  lemma YearField(year: string)
    ensures "&" + Pair(Param(Year, year)) == "&year=" + year
  {
    Field("&", Year, year);
    assert "&" + "year" + "=" == "&year=";
  }

  lemma FirstAirDateYearField(year: string)
    ensures "&" + Pair(Param(FirstAirDateYear, year)) == "&first_air_date_year=" + year
  {
    Field("&", FirstAirDateYear, year);
    assert "&" + "first_air_date_year" + "=" == "&first_air_date_year=";
  }

  /** The search endpoint for a kind: combined search for "all", the movie
      search for "movie", and the TV search for every other value. */
  function SearchPath(kind: string): (r: string)
    ensures r == "/search/multi" <==> kind == "all"
    ensures r == "/search/movie" <==> kind == "movie"
    ensures r == "/search/tv" <==> kind != "all" && kind != "movie"
  {
    if kind == "all" then "/search/multi"
    else if kind == "movie" then "/search/movie"
    else "/search/tv"
  }

  /** The parameters every search carries, in the order the explorer writes
      them. */
  function SearchCommon(query: string, page: nat, encode: string -> string): (ps: seq<Param>)
    ensures |ps| == 5
    ensures Lookup(ps, ApiKey) == Some(TMDB_KEY)
    ensures Lookup(ps, Page) == Some(NatToString(page))
    ensures Lookup(ps, Query) == Some(encode(query))
    ensures Lookup(ps, Year) == None && Lookup(ps, FirstAirDateYear) == None
  {
    var t4 := [Param(Query, encode(query))];
    var t3 := [Param(Page, NatToString(page))] + t4;
    var t2 := [Param(Language, "en-US")] + t3;
    var t1 := [Param(IncludeAdult, "false")] + t2;
    LookupCons(Param(Query, encode(query)), []);
    LookupCons(Param(Page, NatToString(page)), t4);
    LookupCons(Param(Language, "en-US"), t3);
    LookupCons(Param(IncludeAdult, "false"), t2);
    LookupCons(Param(ApiKey, TMDB_KEY), t1);
    assert [Param(Query, encode(query))] + [] == t4;
    [Param(ApiKey, TMDB_KEY)] + t1
  }

  /** The year filter a search adds after its common parameters. */
  function YearFilter(kind: string, year: string, encode: string -> string): (r: seq<Param>)
    ensures |r| <= 1
    ensures r == [] <==> kind == "all" || year == ""
    ensures r != [] ==> r[0] == Param(if kind == "movie" then Year else FirstAirDateYear, encode(year))
  {
    if kind == "all" then []
    else if kind == "movie" then (if year != "" then [Param(Year, encode(year))] else [])
    else (if year != "" then [Param(FirstAirDateYear, encode(year))] else [])
  }

  /** The query parameters of a search. The page and the encoded query are
      always there; the year, when given, is a `year` filter for the movie
      search and a `first_air_date_year` filter for the TV search, and the
      combined search never carries a year at all. */
  function SearchParams(query: string, kind: string, year: string, page: nat, encode: string -> string): (ps: seq<Param>)
    ensures Lookup(ps, ApiKey) == Some(TMDB_KEY)
    ensures Lookup(ps, Page) == Some(NatToString(page))
    ensures Lookup(ps, Query) == Some(encode(query))
    ensures Lookup(ps, Year) == if kind == "movie" && year != "" then Some(encode(year)) else None
    ensures Lookup(ps, FirstAirDateYear) ==
      if kind != "all" && kind != "movie" && year != "" then Some(encode(year)) else None
  {
    var common := SearchCommon(query, page, encode);
    var filter := YearFilter(kind, year, encode);
    LookupAppend(common, filter, ApiKey);
    LookupAppend(common, filter, Page);
    LookupAppend(common, filter, Query);
    LookupAppend(common, filter, Year);
    LookupAppend(common, filter, FirstAirDateYear);
    common + filter
  }

  /** The search URL before any year filter, as the explorer writes it. */
  lemma SearchBaseAsWritten(query: string, kind: string, page: nat, encode: string -> string)
    ensures Url(SearchPath(kind), SearchCommon(query, page, encode)) ==
      API + SearchPath(kind) + ("?api_key=" + TMDB_KEY) + "&include_adult=false" + "&language=en-US"
      + ("&page=" + NatToString(page)) + ("&query=" + encode(query))
  {
    var path := SearchPath(kind);
    var ps := SearchCommon(query, page, encode);
    UrlOfOne(path, ps[0]);
    assert ps[..1] + [ps[1]] == ps[..2] && ps[..2] + [ps[2]] == ps[..3];
    assert ps[..3] + [ps[3]] == ps[..4] && ps[..4] + [ps[4]] == ps;
    assert ps[..1] == [ps[0]];
    UrlSnoc(path, ps[..1], ps[1]);
    UrlSnoc(path, ps[..2], ps[2]);
    UrlSnoc(path, ps[..3], ps[3]);
    UrlSnoc(path, ps[..4], ps[4]);
    KeyField();
    AdultField();
    LanguageField();
    PageField(NatToString(page));
    QueryField(encode(query));
  }

  /** The search URL exactly as the explorer's template literals spell it:
      the movie search appends a `year` filter and the TV search a
      `first_air_date_year` filter, each only when a year is given and always
      last; the combined search never has one. */
  function SearchTemplate(query: string, kind: string, year: string, page: nat, encode: string -> string): string
  {
    var base := API + SearchPath(kind) + ("?api_key=" + TMDB_KEY) + "&include_adult=false" + "&language=en-US"
                + ("&page=" + NatToString(page)) + ("&query=" + encode(query));
    if kind == "movie" && year != "" then base + ("&year=" + encode(year))
    else if kind != "all" && kind != "movie" && year != "" then base + ("&first_air_date_year=" + encode(year))
    else base
  }

  /** The search parameter list renders as the template. */
  lemma SearchUrlAsWritten(query: string, kind: string, year: string, page: nat, encode: string -> string)
    ensures Url(SearchPath(kind), SearchParams(query, kind, year, page, encode))
            == SearchTemplate(query, kind, year, page, encode)
  {
    var path := SearchPath(kind);
    var common := SearchCommon(query, page, encode);
    var filter := YearFilter(kind, year, encode);
    SearchBaseAsWritten(query, kind, page, encode);
    if filter == [] {
      assert common + filter == common;
    } else {
      var f := filter[0];
      assert common + filter == common + [f];
      UrlSnoc(path, common, f);
      if kind == "movie" {
        YearField(encode(year));
      } else {
        FirstAirDateYearField(encode(year));
      }
    }
  }

  /** A search page's URL: built from the search parameters, it is the
      template the explorer writes. */
  function SearchUrl(query: string, kind: string, year: string, page: nat, encode: string -> string): (r: string)
    ensures r == SearchTemplate(query, kind, year, page, encode)
  {
    SearchUrlAsWritten(query, kind, year, page, encode);
    Url(SearchPath(kind), SearchParams(query, kind, year, page, encode))
  }

  /** The trending feed URL for one page, as the explorer writes it. */
  function TrendingUrl(page: nat): (r: string)
    ensures r == API + "/trending/all/week" + ("?api_key=" + TMDB_KEY) + "&language=en-US"
                 + ("&page=" + NatToString(page))
  {
    var path := "/trending/all/week";
    var ps := [Param(ApiKey, TMDB_KEY), Param(Language, "en-US"), Param(Page, NatToString(page))];
    UrlOfOne(path, ps[0]);
    assert [ps[0]] + [ps[1]] == ps[..2] && ps[..2] + [ps[2]] == ps;
    UrlSnoc(path, [ps[0]], ps[1]);
    UrlSnoc(path, ps[..2], ps[2]);
    KeyField();
    LanguageField();
    PageField(NatToString(page));
    Url(path, ps)
  }

  /** The detail URL for one item, asking for its videos in the same
      response, as the explorer writes it. */
  function DetailUrl(id: nat, kind: string): (r: string)
    ensures r == API + ("/" + kind + "/" + NatToString(id)) + ("?api_key=" + TMDB_KEY) + "&language=en-US"
                 + "&append_to_response=videos"
  {
    var path := "/" + kind + "/" + NatToString(id);
    var ps := [Param(ApiKey, TMDB_KEY), Param(Language, "en-US"), Param(AppendToResponse, "videos")];
    UrlOfOne(path, ps[0]);
    assert [ps[0]] + [ps[1]] == ps[..2] && ps[..2] + [ps[2]] == ps;
    UrlSnoc(path, [ps[0]], ps[1]);
    UrlSnoc(path, ps[..2], ps[2]);
    KeyField();
    LanguageField();
    VideosField();
    Url(path, ps)
  }

  /** The URL a grid fetch goes to: the trending template for a trending
      page, the search template with the request's own parameters for a
      search page. */
  function RequestUrl(req: Request, encode: string -> string): (r: string)
    ensures req.TrendingPage? ==>
      r == API + "/trending/all/week" + ("?api_key=" + TMDB_KEY) + "&language=en-US"
           + ("&page=" + NatToString(req.page))
    ensures req.SearchPage? ==> r == SearchTemplate(req.query, req.kind, req.year, req.page, encode)
  {
    match req
    case TrendingPage(page) => TrendingUrl(page)
    case SearchPage(query, kind, year, page) => SearchUrl(query, kind, year, page, encode)
  }

  /** Splitting two equal strings at the same position gives equal parts. */
  lemma SplitEqual(x1: string, y1: string, x2: string, y2: string)
    requires x1 + y1 == x2 + y2 && |x1| == |x2|
    ensures x1 == x2 && y1 == y2
  {
    assert x1 == (x1 + y1)[..|x1|] && x2 == (x2 + y2)[..|x2|];
    assert y1 == (x1 + y1)[|x1|..] && y2 == (x2 + y2)[|x2|..];
  }

  lemma Regroup(a: string, p: string, n: string, c: string, d: string, e: string)
    ensures a + (p + n) + c + d + e == (a + p) + (n + (c + d + e))
  {
  }

  /** The detail URL names its kind: one id under two kinds gives two URLs. */
  lemma DetailUrlKind(id: nat, k1: string, k2: string)
    requires DetailUrl(id, k1) == DetailUrl(id, k2)
    ensures k1 == k2
  {
    var n := NatToString(id);
    var key, lang, videos := "?api_key=" + TMDB_KEY, "&language=en-US", "&append_to_response=videos";
    Regroup(API, "/" + k1 + "/", n, key, lang, videos);
    Regroup(API, "/" + k2 + "/", n, key, lang, videos);
    assert |k1| == |k2|;
    SplitEqual(API + ("/" + k1 + "/"), n + (key + lang + videos), API + ("/" + k2 + "/"), n + (key + lang + videos));
    SplitEqual(API, "/" + k1 + "/", API, "/" + k2 + "/");
    SplitEqual("/" + k1, "/", "/" + k2, "/");
    SplitEqual("/", k1, "/", k2);
  }

  /** The detail URL names its id: two ids under one kind give two URLs. */
  lemma DetailUrlId(id1: nat, id2: nat, kind: string)
    requires DetailUrl(id1, kind) == DetailUrl(id2, kind)
    ensures id1 == id2
  {
    var n1, n2 := NatToString(id1), NatToString(id2);
    var key, lang, videos := "?api_key=" + TMDB_KEY, "&language=en-US", "&append_to_response=videos";
    var p := "/" + kind + "/";
    Regroup(API, p, n1, key, lang, videos);
    Regroup(API, p, n2, key, lang, videos);
    SplitEqual(API + p, n1 + (key + lang + videos), API + p, n2 + (key + lang + videos));
    SplitEqual(n1, key + lang + videos, n2, key + lang + videos);
    NatToStringInjective(id1, id2);
  }
}
