# Movie & TV Show Explorer — a Dafny model

`app.js` is a single-page browser client for The Movie Database (TMDB). It
shows the weekly trending feed. It also runs a search over movies, TV series
or both, optionally filtered by year. Results are shown as a grid of cards,
with a "load more" control that fetches the next page. Clicking a card opens
a detail overlay with the runtime, the overview and a YouTube trailer link.

This project models the logic behind that client:

- `text.dfy` (module `Text`): JavaScript's `trim()` over its white-space set,
  and the decimal rendering of a page number or an id in a URL template.
- `mappers.dfy` (module `Mappers`): the pure record mappers `imgUrl`,
  `titleOf`, `yearOf`, `typeOf`, `ratingOf`, the card's poster fallback and
  the fields of a card.
- `endpoints.dfy` (module `Endpoints`): the trending, search and detail URLs.
  Each is built from a list of name/value parameters. Lemmas tie each URL to
  the literal template the client writes, and `Lookup` properties say which
  filter each kind of search carries.
- `browse.dfy` (module `Browse`): the browse and paging state machine.
  - The state is mode, page cursor, page count, retained search, grid, and the
    empty and load-more indicators.
  - Each event handler (submit, trending, load more, initial load) is one
    atomic transition. The outcome of its fetch is a parameter.
  - Pure transition functions over a `View` value state what each handler
    does, and lemmas prove the invariants they keep.
  - The class `Explorer` holds the same state in mutable fields. Its methods
    are proved to perform exactly those transitions, and `Render` keeps the
    source's `forEach` loop.
- `details.dfy` (module `Details`): the detail overlay. This covers the
  request it issues, the runtime, overview and trailer helpers, and the
  overlay's fields.
- `wrappers.dfy` (module `Wrappers`): an `Option` type.

JavaScript treats an absent field, `null` and `""` alike, since all are falsy.
The model therefore represents each missing string field as `""`, a missing
`vote_average` as `0.0` and a missing `total_pages` as `0`.

`encodeURIComponent` and `Number.prototype.toFixed(1)` are not modelled.
They appear as the function parameters `encode` and `format`, so every
property holds for any encoding and any number formatting.

## Model

| member | source | states |
|---|---|---|
| Text.LeadingSpaces | app.js:157 | the length of the white-space run that starts a string; it is all white space and is followed by a non-space character or the end |
| Text.TrailingSpaces | app.js:157 | the length of the white-space run that ends a string; it is all white space and is preceded by a non-space character or the start |
| Text.Trim | app.js:157 | `trim()` is no longer than its input and neither starts nor ends with white space |
| Text.TrimSpec | app.js:157-159 | `trim()` returns a contiguous piece of the input, and everything cut off on either side is white space |
| Text.TrimEmpty | app.js:157-160 | the trimmed query is empty (the `if (!q) return` test) exactly when the input is all white space |
| Text.TrimKeeps | app.js:157 | a string with non-space ends is its own trim |
| Text.TrimIdempotent | app.js:157-159 | trimming twice equals trimming once |
| Text.DigitChar | app.js:88 | the digit character for a value below ten denotes that value |
| Text.NatToString | app.js:79 | `${page}` writes at least one decimal digit, with a leading zero only for 0 |
| Text.NatToStringRoundTrip | app.js:88 | reading back the digits written for a page number gives the number again |
| Text.NatToStringInjective | app.js:100 | different ids or pages are written as different strings (used by `Endpoints.DetailUrlId`) |
| Mappers.ImgUrl | app.js:31 | the image URL is "" exactly when the path is empty; otherwise it is the image base and size followed by the path |
| Mappers.TitleOf | app.js:32 | the title, else the name, else "(untitled)"; never empty |
| Mappers.YearOf | app.js:33 | at most four characters, taken as a prefix of release_date, or of first_air_date when release_date is unset; "" exactly when both dates are unset |
| Mappers.TypeOf | app.js:34 | media_type when set, else "movie" exactly when there is a title and "tv" exactly when there is none; never empty |
| Mappers.RatingOf | app.js:35 | the em dash when vote_average is 0 or absent, else the one-decimal rendering |
| Mappers.PosterOf | app.js:41 | the poster at w342 whenever poster_path is set, else the backdrop at w185; "" exactly when both paths are unset |
| Mappers.CardOf | app.js:40-57 | a card shows the record's `PosterOf` poster, `TitleOf` title, `TypeOf` kind and `RatingOf` rating; title, kind and year label are never empty; a record with no date shows the em dash, and otherwise `YearOf`; the poster is missing exactly when both image paths are unset |
| Endpoints.SearchPath | app.js:87-95 | "/search/multi" exactly for "all", "/search/movie" exactly for "movie", "/search/tv" exactly for every other kind |
| Endpoints.YearFilter | app.js:91-94 | at most one filter parameter; none exactly for the combined search or an empty year; otherwise a `year` parameter for the movie search and a `first_air_date_year` parameter for the TV search, with the encoded year as its value |
| Endpoints.SearchCommon | app.js:86-93 | every search carries the key, the page's decimal form and the encoded query, and no year filter |
| Endpoints.SearchParams | app.js:84-95 | the year is a `year` filter exactly for a movie search with a non-empty year, and a `first_air_date_year` filter exactly for a TV search with a non-empty year; the combined search never has one |
| Endpoints.SearchBaseAsWritten | app.js:86-93 | the parameter list renders as the source's search template without the year filter |
| Endpoints.SearchUrlAsWritten | app.js:84-96 | the search path with the search parameter list renders as the source's template literal (`SearchTemplate`), with the year filter appended last only for a non-empty year on the movie or TV search |
| Endpoints.SearchUrl | app.js:84-96 | a search page's URL equals the source's template literal for its query, kind, year and page |
| Endpoints.TrendingUrl | app.js:78-79 | the trending URL is the source's template for the given page |
| Endpoints.DetailUrl | app.js:99-100 | the detail URL is the source's template for the given kind and id, with videos appended to the response |
| Endpoints.RequestUrl | app.js:189-193 | a trending page is fetched from the trending template with its page, a search page from the search template with its own query, kind, year and page |
| Endpoints.DetailUrlKind | app.js:100 | one id under two different kinds gives two different detail URLs |
| Endpoints.DetailUrlId | app.js:100 | two different ids under one kind give two different detail URLs |
| Browse.Displayable | app.js:63-67 | the cards a page gets are never more than its items |
| Browse.DisplayableFilters | app.js:63-67 | rendering keeps exactly the non-person items of a page and never adds any |
| Browse.DisplayableAppend | app.js:63-67 | filtering two pages one after the other equals filtering them joined, so order is preserved |
| Browse.DisplayableCons | app.js:63-66 | a page's first item gets a card unless it is a person hit, followed by the cards of the rest |
| Browse.DisplayableSnoc | app.js:63-66 | one more iteration of the forEach appends that item's card unless it is a person hit |
| Browse.DisplayableKeepsMedia | app.js:63-67 | a page with no person hits is shown whole and in order |
| Browse.Rendered | app.js:59-69 | see the note below the table |
| Browse.PagesOrOne | app.js:164 | `total_pages \|\| 1` is never 0 and is the reported count whenever that is non-zero |
| Browse.Refreshed | app.js:162-169 | see the note below the table |
| Browse.Initial | app.js:201-212 | start-up shows trending page 1 with an empty retained search ("all" kind); a loaded feed sets the page count from `total_pages \|\| 1`; non-empty results fill the grid with the feed's non-person items, with load-more visible exactly when more than one page exists; a failed or empty feed shows the empty indicator and hides load-more, and a failure leaves the page count at 1; the result is consistent, and bounded when the page count is not negative |
| Browse.Submitted | app.js:155-170 | see the note below the table |
| Browse.TrendingClicked | app.js:172-182 | trending mode, page 1, and a request for trending page 1; the retained search is kept; the invariants are preserved |
| Browse.LoadedMore | app.js:184-198 | see the note below the table |
| Browse.SearchThenLoadMore | app.js:155-194 | after a successful search with at least two pages, load-more is visible; the next load-more asks for page 2 with the same trimmed query, kind and year; on success the grid equals the filtered concatenation of both pages |
| Browse.ResubmitRetainedSearch | app.js:157-163 | submitting the retained (already trimmed) query, kind and year again issues exactly the request the first submission issued |
| Browse.TrendingThenLoadMore | app.js:172-194 | after "trending", load-more continues the trending feed whatever search was retained |
| Browse.FailedPageIsSkipped | app.js:185-197 | a failed load-more leaves the grid unchanged but still consumes its page; the next load-more asks for the page after it |
| Browse.BatmanExample | app.js:155-170 | searching "batman" among movies from 1989, with a non-empty page 1 of 5, gives search mode, page 1 of 5, load-more visible and a request for movie-search page 1 |
| Browse.BatmanUrl | app.js:89-91 | that request's URL is the movie-search template with `page=1` and the year filter last |
| Browse.Explorer.constructor | app.js:201-212 | the state after the initial load is `Initial` of the fetch outcome, and it is consistent |
| Browse.Explorer.Render | app.js:59-69 | the forEach loop leaves the state equal to `Rendered` of the old state |
| Browse.Explorer.Refresh | app.js:162-169 | the state becomes `Refreshed` of the old state |
| Browse.Explorer.Submit | app.js:155-170 | state and request as `Submitted`; consistency is preserved |
| Browse.Explorer.ShowTrending | app.js:172-182 | state and request as `TrendingClicked`; consistency is preserved |
| Browse.Explorer.LoadMore | app.js:184-198 | state and request as `LoadedMore`; consistency is preserved |
| Details.RuntimeOf | app.js:117 | runtime when non-zero, else the first episode run time when present and non-zero, else none; never 0 |
| Details.OverviewOf | app.js:138 | the overview, or "No overview available." when there is none; never empty |
| Details.FirstTrailer | app.js:122-123 | the index of the first video that is a trailer hosted on YouTube; none exactly when there is no such video |
| Details.TrailerLink | app.js:122-124 | no link exactly when no YouTube trailer exists; otherwise the watch URL of the first one's key |
| Details.DetailRequestUrl | app.js:111-114 | the detail fetch uses the clicked result's id under its media_type when set, else under "movie" when it has a title, else under "tv" |
| Details.NoPersonDetailRequest | app.js:65 | no card of a consistent grid ever fetches its detail record under "person", because render never shows a person hit |
| Details.DetailRequestIdentifies | app.js:111-114 | two results of the same kind fetch the same detail URL only when they have the same id |
| Details.OverlayOf | app.js:110-151 | see the note below the table |
| Details.OverlayAgreesWithCard | app.js:111-135 | when the detail record agrees with the clicked record on the fields both read (title, name, dates, rating, image paths), the overlay shows the card's poster, title, kind and rating; it has a year chip holding the card's year exactly when a date exists, and none when the card shows the dash |

The five rows that refer to a note state the following.

- **Browse.Rendered:**
  - a fresh render of no items clears the grid, shows the empty indicator and hides load-more;
  - otherwise the grid becomes the old grid (when appending) or nothing, followed by the page's non-person items;
  - in that case load-more is visible exactly when pages remain;
  - paging state is unchanged;
  - consistency is preserved.
- **Browse.Refreshed:**
  - a successful fetch sets the page count from `total_pages || 1` and replaces the grid with the page's non-person items;
  - a failed or empty fetch shows the empty indicator;
  - a failure keeps the old page count;
  - consistency and boundedness are preserved from page 1.
- **Browse.Submitted:**
  - a query that is empty once trimmed changes nothing and fetches nothing;
  - otherwise the new state is search mode on page 1, retaining the trimmed query, the kind and the trimmed year;
  - the request is for search page 1;
  - the outcome is landed by `Refreshed`;
  - the invariants are preserved.
- **Browse.LoadedMore:**
  - with no page left, nothing changes and nothing is fetched;
  - otherwise the cursor advances by exactly one page;
  - that page is requested from the trending feed in trending mode, else with the retained search;
  - a success appends the page's non-person items, and load-more is visible exactly when pages remain;
  - a failure only advances the cursor;
  - the invariants are preserved.
- **Details.OverlayOf:**
  - a failed fetch shows the failure message;
  - otherwise the kind is that of the clicked result;
  - the title is the record's `TitleOf`, the rating its `RatingOf`, the runtime chip its `RuntimeOf`, the overview its `OverviewOf`, the trailer link its `TrailerLink` and the poster its `PosterOf`;
  - the title and overview are never empty;
  - the year chip is absent exactly when the record has no date, and is otherwise the record's `YearOf`, a non-empty prefix of at most four characters;
  - there is no trailer link exactly when there is no YouTube trailer;
  - the poster is absent exactly when both image paths are unset.

"Consistent" is the invariant that every transition keeps:
- the cursor is at least 1;
- the cursor does not pass a positive page count;
- no person card is in the grid;
- the empty indicator appears only over an empty grid, with load-more hidden.

"Bounded" (`1 <= currentPage <= totalPages`) is also kept, as long as no
response reports a negative page count.

## Left out

- DOM work is not modelled: element lookup, `innerHTML` markup, event wiring, the image `onerror` handler, `preventDefault` and focus. The model keeps what the markup shows (card fields, overlay fields, indicator flags) but not the HTML.
- Fetching is not modelled: `fetch`, `await`, HTTP status checks and JSON parsing. Each handler is one atomic step, and the fetch outcome is a parameter.
- Concurrent handlers are not modelled. Overlapping clicks whose responses arrive out of order could interleave state updates in the browser, but every handler here runs to completion.
- `encodeURIComponent` is the uninterpreted parameter `encode`, and `toFixed(1)` is the uninterpreted parameter `format`.
- `toUpperCase()` on the card's and overlay's kind chip is presentation. The model keeps the kind as it is.
- The overlay's closing (backdrop click, close button, Escape key), its tagline, genres, homepage link, the separator between the links, and the `console.error` logging are markup or side effects.
- The initial visibility of the empty indicator and of load-more comes from the page's HTML, which is not part of this model. The initial load overwrites both in every case.
- Browse.Response: `total_pages` is modelled as an integer. A non-numeric value, and JavaScript's comparison of one with the page cursor, are not modelled.
- Mappers.YearOf: `slice(0,4)` counts UTF-16 code units, while the model counts Unicode scalar values. The two agree whenever the dates hold no character outside the Basic Multilingual Plane, as TMDB's `YYYY-MM-DD` dates never do. The same holds for the overlay's year chip.
- Mappers.Item: the record id is a natural number. Non-integer or negative ids are not modelled.
- The search form's kind select always submits "all", "movie" or "tv". The model accepts any string and follows the source's `else` branch (the TV search) for anything other than "all" or "movie".
