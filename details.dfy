/** The detail overlay: the request it issues for a clicked result, the
    runtime chip, the overview fallback, the trailer link picked from the
    embedded video list, and the fields the overlay shows once the detail
    record has arrived. */
module Details {
  import opened Wrappers
  import opened Mappers
  import opened Endpoints
  import opened Browse

  const YOUTUBE_WATCH := "https://www.youtube.com/watch?v="
  const NO_OVERVIEW := "No overview available."

  /** One entry of a detail record's embedded video list. */
  datatype Video = Video(kind: string, site: string, key: string)

  /** A detail record: the fields a result record has, plus runtime (0 when
      absent), episode_run_time (empty when absent), overview ("" when
      absent) and the embedded videos (empty when absent). */
  datatype Detail = Detail(
    record: Item,
    runtime: int,
    episodeRunTime: seq<int>,
    overview: string,
    videos: seq<Video>)

  /** The runtime chip: the movie-style runtime, else the first episode run
      time, else none; a value of 0 counts as absent. */
  function RuntimeOf(d: Detail): (r: Option<int>)
    ensures r.Some? ==> r.value != 0
    ensures d.runtime != 0 ==> r == Some(d.runtime)
    ensures d.runtime == 0 ==> (r.Some? <==> |d.episodeRunTime| > 0 && d.episodeRunTime[0] != 0)
    ensures d.runtime == 0 && r.Some? ==> r.value == d.episodeRunTime[0]
  {
    if d.runtime != 0 then Some(d.runtime)
    else if |d.episodeRunTime| > 0 && d.episodeRunTime[0] != 0 then Some(d.episodeRunTime[0])
    else None
  }

  /** The overview text, or the fallback sentence when there is none. */
  function OverviewOf(d: Detail): (r: string)
    ensures r != ""
    ensures d.overview != "" ==> r == d.overview
    ensures d.overview == "" ==> r == NO_OVERVIEW
  {
    if d.overview != "" then d.overview else NO_OVERVIEW
  }

  predicate IsTrailer(v: Video) {
    v.kind == "Trailer" && v.site == "YouTube"
  }

  /** The position of the first YouTube-hosted trailer in the list, if any. */
  function FirstTrailer(videos: seq<Video>): (r: Option<nat>)
    ensures r.Some? ==> r.value < |videos| && IsTrailer(videos[r.value])
    ensures r.Some? ==> forall j :: 0 <= j < r.value ==> !IsTrailer(videos[j])
    ensures r.None? ==> forall j :: 0 <= j < |videos| ==> !IsTrailer(videos[j])
  {
    if videos == [] then None
    else if IsTrailer(videos[0]) then Some(0)
    else match FirstTrailer(videos[1..])
      case None => None
      case Some(i) => Some(i + 1)
  }

  /** The trailer link: the watch URL of the first YouTube trailer, or no link
      when the list holds none. */
  function TrailerLink(d: Detail): (r: string)
    ensures r == "" <==> forall j :: 0 <= j < |d.videos| ==> !IsTrailer(d.videos[j])
    ensures r != "" ==>
      exists j :: (0 <= j < |d.videos| && IsTrailer(d.videos[j])
                   && (forall k :: 0 <= k < j ==> !IsTrailer(d.videos[k]))
                   && r == YOUTUBE_WATCH + d.videos[j].key)
  {
    match FirstTrailer(d.videos)
    case None => ""
    case Some(i) => YOUTUBE_WATCH + d.videos[i].key
  }

  /** The fields the overlay shows for a detail record. The kind is the one
      of the clicked result, not of the detail record; the year chip is
      absent when the record has no date. */
  datatype DetailView = DetailView(
    poster: string,
    title: string,
    kind: string,
    yearChip: Option<string>,
    rating: string,
    runtime: Option<int>,
    overview: string,
    trailer: string)

  /** The overlay after the detail fetch: the record's fields, or the failure
      message when the fetch failed. */
  datatype Overlay = Showing(view: DetailView) | LoadFailed

  /** The detail fetch for a clicked result: its id under its explicit
      media_type, else under "movie" when it has a title, else under "tv". */
  function DetailRequestUrl(item: Item): (r: string)
    ensures item.mediaType != "" ==> r == DetailUrl(item.id, item.mediaType)
    ensures item.mediaType == "" && item.title != "" ==> r == DetailUrl(item.id, "movie")
    ensures item.mediaType == "" && item.title == "" ==> r == DetailUrl(item.id, "tv")
  {
    DetailUrl(item.id, TypeOf(item))
  }

  /** Since render never shows a person hit, no card of a consistent grid
      ever asks for a detail record under "person". */
  lemma NoPersonDetailRequest(v: View)
    requires Consistent(v)
    ensures forall x :: x in v.grid ==> DetailRequestUrl(x) != DetailUrl(x.id, "person")
  {
    forall x | x in v.grid
      ensures DetailRequestUrl(x) != DetailUrl(x.id, "person")
    {
      if DetailRequestUrl(x) == DetailUrl(x.id, "person") {
        DetailUrlKind(x.id, TypeOf(x), "person");
      }
    }
  }

  /** Two results of the same kind fetch the same detail URL only when they
      have the same id. */
  lemma DetailRequestIdentifies(a: Item, b: Item)
    requires TypeOf(a) == TypeOf(b) && DetailRequestUrl(a) == DetailRequestUrl(b)
    ensures a.id == b.id
  {
    DetailUrlId(a.id, b.id, TypeOf(a));
  }

  /** Opening the overlay for a clicked result, given the outcome of the
      detail fetch (None when it failed). */
  function OverlayOf(item: Item, outcome: Option<Detail>, format: real -> string): (r: Overlay)
    ensures r.LoadFailed? <==> outcome.None?
    ensures outcome.Some? ==>
      var d := outcome.value;
      r.view.kind == TypeOf(item)
      && r.view.title == TitleOf(d.record) && r.view.title != ""
      && r.view.rating == RatingOf(d.record, format)
      && r.view.runtime == RuntimeOf(d)
      && r.view.overview == OverviewOf(d) && r.view.overview != ""
      && r.view.trailer == TrailerLink(d)
      && r.view.poster == PosterOf(d.record)
      && (r.view.yearChip.Some? ==> r.view.yearChip.value == YearOf(d.record))
      && (r.view.yearChip.None? <==> d.record.releaseDate == "" && d.record.firstAirDate == "")
      && (r.view.yearChip.Some? ==> |r.view.yearChip.value| <= 4 && r.view.yearChip.value != "")
      && (r.view.trailer == "" <==> forall j :: 0 <= j < |d.videos| ==> !IsTrailer(d.videos[j]))
      && (r.view.poster == "" <==> d.record.posterPath == "" && d.record.backdropPath == "")
  {
    match outcome
    case None => LoadFailed
    case Some(d) =>
      var year := YearOf(d.record);
      Showing(DetailView(
        PosterOf(d.record),
        TitleOf(d.record),
        TypeOf(item),
        if year != "" then Some(year) else None,
        RatingOf(d.record, format),
        RuntimeOf(d),
        OverviewOf(d),
        TrailerLink(d)))
  }

  /** The fields a card and the overlay both read from a record. */
  predicate SameShownFields(a: Item, b: Item) {
    a.title == b.title && a.name == b.name
    && a.releaseDate == b.releaseDate && a.firstAirDate == b.firstAirDate
    && a.voteAverage == b.voteAverage
    && a.posterPath == b.posterPath && a.backdropPath == b.backdropPath
  }

  /** When the detail record agrees with the clicked result on the fields
      both read, the overlay agrees with the result card: the same poster,
      title, kind and rating, and a year chip holding the card's year exactly
      when the card does not show the dash for a missing date. */
  lemma OverlayAgreesWithCard(item: Item, d: Detail, format: real -> string)
    requires SameShownFields(d.record, item)
    ensures
      var c := CardOf(item, format);
      var o := OverlayOf(item, Some(d), format);
      o.Showing?
      && o.view.poster == c.poster && o.view.title == c.title
      && o.view.kind == c.kind && o.view.rating == c.rating
      && (item.releaseDate == "" && item.firstAirDate == "" ==> o.view.yearChip.None? && c.year == DASH)
      && (item.releaseDate != "" || item.firstAirDate != "" ==> o.view.yearChip == Some(c.year))
  {
  }
}
