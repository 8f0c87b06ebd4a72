/** The data mapper: pure projections from one loosely-typed result record of
    the trending feed or of a search to the fields a result card shows. */
module Mappers {

  const IMG := "https://image.tmdb.org/t/p"
  const POSTER_W := "/w342"
  const POSTER_W_FALLBACK := "/w185"
  const UNTITLED := "(untitled)"
  /** The em dash the card and the detail view show for a missing value. */
  const DASH := "\U{2014}"

  /** One result record, with the fields the explorer reads. JavaScript treats
      an absent field, null and "" alike (all are falsy), so each string field
      is "" when the record lacks it; an absent vote_average is 0.0, which is
      falsy as well. */
  datatype Item = Item(
    id: nat,
    title: string,
    name: string,
    releaseDate: string,
    firstAirDate: string,
    mediaType: string,
    voteAverage: real,
    posterPath: string,
    backdropPath: string)

  /** What a result card displays. The kind is shown upper-cased; the case
      mapping is presentation and is not modelled. */
  datatype Card = Card(poster: string, title: string, kind: string, year: string, rating: string)

  /** An absolute image URL for a relative path at the given size, or "" when
      there is no path. */
  function ImgUrl(path: string, size: string): (r: string)
    ensures r == "" <==> path == ""
    ensures path != "" ==>
      |r| == |IMG + size| + |path| && r[..|IMG + size|] == IMG + size && r[|IMG + size|..] == path
  {
    if path != "" then IMG + size + path else ""
  }

  /** The display title: the movie-style title, else the series-style name,
      else the "(untitled)" sentinel; never empty. */
  function TitleOf(item: Item): (r: string)
    ensures r != ""
    ensures item.title != "" ==> r == item.title
    ensures item.title == "" && item.name != "" ==> r == item.name
    ensures item.title == "" && item.name == "" ==> r == UNTITLED
  {
    if item.title != "" then item.title
    else if item.name != "" then item.name
    else UNTITLED
  }

  /** The release year: the first four characters (fewer if the field is
      shorter) of release_date, or of first_air_date when release_date is
      unset; "" when neither is set. */
  function YearOf(item: Item): (r: string)
    ensures |r| <= 4
    ensures r == "" <==> item.releaseDate == "" && item.firstAirDate == ""
    ensures item.releaseDate != "" ==>
      |r| == (if |item.releaseDate| < 4 then |item.releaseDate| else 4) && r == item.releaseDate[..|r|]
    ensures item.releaseDate == "" ==>
      |r| == (if |item.firstAirDate| < 4 then |item.firstAirDate| else 4) && r == item.firstAirDate[..|r|]
  {
    var date := if item.releaseDate != "" then item.releaseDate else item.firstAirDate;
    if |date| <= 4 then date else date[..4]
  }

  /** The media kind: the explicit media_type, otherwise "movie" when the
      record has a title and "tv" when it does not; never empty. */
  function TypeOf(item: Item): (r: string)
    ensures r != ""
    ensures item.mediaType != "" ==> r == item.mediaType
    ensures item.mediaType == "" ==> (r == "movie" <==> item.title != "") && (r == "tv" <==> item.title == "")
  {
    if item.mediaType != "" then item.mediaType
    else if item.title != "" then "movie"
    else "tv"
  }

  /** The rating: the em dash when vote_average is 0 or absent, otherwise the
      one-decimal rendering of it, which `format` stands for. */
  function RatingOf(item: Item, format: real -> string): (r: string)
    ensures item.voteAverage == 0.0 ==> r == DASH
    ensures item.voteAverage != 0.0 ==> r == format(item.voteAverage)
  {
    if item.voteAverage != 0.0 then format(item.voteAverage) else DASH
  }

  /** The card's poster: poster_path at the large size whenever it is set,
      whatever the backdrop holds; else backdrop_path at the small size; else
      no image at all. */
  function PosterOf(item: Item): (r: string)
    ensures item.posterPath != "" ==> r == IMG + POSTER_W + item.posterPath
    ensures item.posterPath == "" && item.backdropPath != "" ==> r == IMG + POSTER_W_FALLBACK + item.backdropPath
    ensures r == "" <==> item.posterPath == "" && item.backdropPath == ""
  {
    var primary := ImgUrl(item.posterPath, POSTER_W);
    if primary != "" then primary else ImgUrl(item.backdropPath, POSTER_W_FALLBACK)
  }

  /** The fields of one result card. Title, kind and year label are never
      empty: a missing year shows as the em dash. */
  function CardOf(item: Item, format: real -> string): (r: Card)
    ensures r.poster == PosterOf(item) && r.title == TitleOf(item)
    ensures r.kind == TypeOf(item) && r.rating == RatingOf(item, format)
    ensures r.title != "" && r.kind != "" && r.year != ""
    ensures item.releaseDate == "" && item.firstAirDate == "" ==> r.year == DASH
    ensures item.releaseDate != "" || item.firstAirDate != "" ==> r.year == YearOf(item) && |r.year| <= 4
    ensures r.poster == "" <==> item.posterPath == "" && item.backdropPath == ""
  {
    var year := YearOf(item);
    Card(PosterOf(item), TitleOf(item), TypeOf(item), if year != "" then year else DASH, RatingOf(item, format))
  }
}
