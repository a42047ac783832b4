/**
  * Queries derived from Cinemeta metadata (src/Cinemeta.ts): the episode
  * lookup in a series' video list, the absolute episode number of an episode
  * (from TVDB for animation, else from its position among the regular
  * episodes), the order the derived queries are listed in, and the cache
  * lifetimes of the two metadata lookups. The HTTP fetches and the TVDB client
  * are parameters; `SeasonQuery.variants` is not part of this model and is a
  * parameter too.
  */
module Cinemeta {
  import opened Wrappers
  import opened Strings
  import opened Utils
  import opened VideoQueries
  import Seqs

  /** The fields of a Cinemeta video that the core reads. */
  datatype Video = Video(season: int, episode: int, tvdbId: Option<int>)

  datatype MovieMeta = MovieMeta(imdbId: string, name: string, genres: seq<string>)

  datatype SeriesMeta = SeriesMeta(imdbId: string, name: string, genres: seq<string>, videos: seq<Video>)

  /** The TVDB record of an episode, as far as the core reads it. */
  datatype EpisodeData = EpisodeData(absoluteNumber: nat)

  /** The Cinemeta-backed result of an episode lookup. */
  datatype EpisodeResult =
    | AnimationEpisodeResult(series: SeriesMeta, season: nat, episode: nat, info: Option<EpisodeData>)
    | GeneralEpisodeResult(series: SeriesMeta, season: nat, episode: nat)

  /** `SeasonQuery.variants`, which this model takes as given: the season queries for a title, season and episode. */
  type SeasonVariants = (string, nat, nat) -> seq<VideoQuery>

  predicate IsEpisode(v: Video, season: int, episode: int) {
    v.season == season && v.episode == episode
  }

  /** `MovieMeta.queries`: one title query. */
  function MovieQueries(meta: MovieMeta): (r: seq<VideoQuery>)
    ensures r == [MovieQuery(meta.name)]
  {
    [MovieQuery(meta.name)]
  }

  /** `findEpisode`: the first video of the list with that season and episode. */
  function FindEpisode(videos: seq<Video>, season: int, episode: int): (r: Option<Video>)
    ensures r.None? <==> forall v | v in videos :: !IsEpisode(v, season, episode)
    ensures r.Some? ==> exists i | 0 <= i < |videos| ::
      videos[i] == r.value && IsEpisode(videos[i], season, episode)
      && forall j | 0 <= j < i :: !IsEpisode(videos[j], season, episode)
  {
    if videos == [] then None
    else if IsEpisode(videos[0], season, episode) then Some(videos[0])
    else
      var r := FindEpisode(videos[1..], season, episode);
      assert r.Some? ==> exists i | 0 <= i < |videos| ::
        videos[i] == r.value && IsEpisode(videos[i], season, episode)
        && forall j | 0 <= j < i :: !IsEpisode(videos[j], season, episode) by {
        if r.Some? {
          var i :| 0 <= i < |videos[1..]| && videos[1..][i] == r.value && IsEpisode(videos[1..][i], season, episode)
            && forall j | 0 <= j < i :: !IsEpisode(videos[1..][j], season, episode);
          assert videos[i + 1] == r.value;
          forall j | 0 <= j < i + 1 ensures !IsEpisode(videos[j], season, episode) {
            if j > 0 { assert videos[j] == videos[1..][j - 1]; }
          }
        }
      }
      r
  }

  predicate IsRegular(v: Video) {
    v.season > 0
  }

  /** The regular episodes: the videos of a season above 0. */
  function RegularVideos(videos: seq<Video>): (r: seq<Video>)
    ensures forall v | v in r :: v in videos && v.season > 0
    ensures forall v | v in videos && v.season > 0 :: v in r
  {
    if videos == [] then []
    else if videos[0].season > 0 then [videos[0]] + RegularVideos(videos[1..])
    else RegularVideos(videos[1..])
  }

  /**
    * The regular episodes keep list order: they are the `filter` of the list,
    * so `Seqs.FilterConcat` says how runs of videos combine.
    */
  lemma {:induction false} RegularVideosInOrder(videos: seq<Video>)
    ensures RegularVideos(videos) == Seqs.Filter(videos, IsRegular)
  {
    if videos != [] {
      RegularVideosInOrder(videos[1..]);
    }
  }

  /** `findIndex`: the position of the first video with that season and episode, or -1. */
  function FindIndex(videos: seq<Video>, season: int, episode: int): (k: int)
    ensures -1 <= k < |videos|
    ensures k == -1 <==> forall v | v in videos :: !IsEpisode(v, season, episode)
    ensures k >= 0 ==> IsEpisode(videos[k], season, episode)
    ensures k >= 0 ==> forall j | 0 <= j < k :: !IsEpisode(videos[j], season, episode)
  {
    if videos == [] then -1
    else if IsEpisode(videos[0], season, episode) then 0
    else
      var k := FindIndex(videos[1..], season, episode);
      if k == -1 then -1 else k + 1
  }

  /** The absolute number and id queries for an episode number. */
  function AbsolutePair(series: SeriesMeta, number: nat): seq<VideoQuery> {
    [AbsoluteSeriesQuery(series.name, number), ImdbAbsoluteSeriesQuery(series.imdbId, number)]
  }

  /**
    * `SeriesMeta.absoluteQueries`: the position of the episode among the regular
    * episodes, counted from 1; None when it is not among them or is the first.
    */
  function SeriesAbsoluteQueries(series: SeriesMeta, season: int, episode: int): (r: Option<seq<VideoQuery>>)
    ensures var index := FindIndex(RegularVideos(series.videos), season, episode);
      (r.Some? <==> index > 0) && (r.Some? ==> r.value == AbsolutePair(series, index + 1))
  {
    var index := FindIndex(RegularVideos(series.videos), season, episode);
    if index > 0 then Some(AbsolutePair(series, index + 1)) else None
  }

  /** Both absolute queries carry the same number: the title query the name, the id query the imdb id. */
  lemma AbsoluteQueriesAgree(series: SeriesMeta, season: int, episode: int)
    requires SeriesAbsoluteQueries(series, season, episode).Some?
    ensures var qs := SeriesAbsoluteQueries(series, season, episode).value;
      |qs| == 2 && qs[0].AbsoluteSeriesQuery? && qs[1].ImdbAbsoluteSeriesQuery?
      && qs[0].number == qs[1].number >= 2
      && qs[0].title == series.name && qs[1].imdbId == series.imdbId
  {
  }

  /**
    * Absolute queries exist only for a regular episode (season above 0) that is
    * in the list and is not the first regular episode.
    */
  lemma AbsoluteNeedsLaterRegularEpisode(series: SeriesMeta, season: int, episode: int)
    requires SeriesAbsoluteQueries(series, season, episode).Some?
    ensures season > 0
    ensures exists v | v in series.videos :: IsEpisode(v, season, episode)
    ensures |RegularVideos(series.videos)| > 1 && !IsEpisode(RegularVideos(series.videos)[0], season, episode)
  {
    var regular := RegularVideos(series.videos);
    var k := FindIndex(regular, season, episode);
    assert regular[k] in regular;
    assert regular[k] in series.videos;
  }

  /** `AnimationEpisodeResult.absoluteQueries` and the general result (which has none). */
  function AbsoluteQueries(result: EpisodeResult): (r: Option<seq<VideoQuery>>)
    ensures result.GeneralEpisodeResult? ==> r.None?
    ensures result.AnimationEpisodeResult? && result.info.Some? ==>
      r == Some(AbsolutePair(result.series, result.info.value.absoluteNumber))
    ensures result.AnimationEpisodeResult? && result.info.None? ==>
      r == SeriesAbsoluteQueries(result.series, result.season, result.episode)
  {
    match result
    case GeneralEpisodeResult(_, _, _) => None
    case AnimationEpisodeResult(series, season, episode, info) =>
      match info
      case Some(data) => Some(AbsolutePair(series, data.absoluteNumber))
      case None => SeriesAbsoluteQueries(series, season, episode)
  }

  /**
    * `queries` of an episode result: the absolute queries (animation only, when
    * there are any), then the episode query by name, then the season variants.
    */
  function EpisodeQueries(result: EpisodeResult, variants: SeasonVariants): (r: seq<VideoQuery>)
    ensures var absolute := AbsoluteQueries(result).GetOr([]);
      var series := SeriesQuery(result.series.name, result.season, result.episode);
      r == absolute + [series] + variants(result.series.name, result.season, result.episode)
  {
    var series := SeriesQuery(result.series.name, result.season, result.episode);
    var seasons := variants(result.series.name, result.season, result.episode);
    match result
    case GeneralEpisodeResult(_, _, _) => [series] + seasons
    case AnimationEpisodeResult(_, _, _, _) =>
      match AbsoluteQueries(result)
      case None => [series] + seasons
      case Some(absolute) => absolute + [series] + seasons
  }

  /** The episode query by name is always listed, right after the absolute queries. */
  lemma EpisodeQueryAlwaysListed(result: EpisodeResult, variants: SeasonVariants)
    ensures var r := EpisodeQueries(result, variants);
      var k := |AbsoluteQueries(result).GetOr([])|;
      k < |r| && r[k] == SeriesQuery(result.series.name, result.season, result.episode)
      && (forall i | 0 <= i < k :: r[i].AbsoluteSeriesQuery? || r[i].ImdbAbsoluteSeriesQuery?)
  {
    var r := EpisodeQueries(result, variants);
    var absolute := AbsoluteQueries(result).GetOr([]);
    var series := SeriesQuery(result.series.name, result.season, result.episode);
    var seasons := variants(result.series.name, result.season, result.episode);
    assert r == absolute + [series] + seasons;
    assert r[|absolute|] == series;
    assert absolute == [] || (|absolute| == 2 && absolute[0].AbsoluteSeriesQuery? && absolute[1].ImdbAbsoluteSeriesQuery?);
    forall i | 0 <= i < |absolute| ensures r[i].AbsoluteSeriesQuery? || r[i].ImdbAbsoluteSeriesQuery? {
      assert r[i] == absolute[i];
    }
  }

  /** An animation without TVDB data and without an absolute position lists what a general result lists. */
  lemma AnimationWithoutAbsoluteIsGeneral(series: SeriesMeta, season: nat, episode: nat, variants: SeasonVariants)
    requires SeriesAbsoluteQueries(series, season, episode).None?
    ensures EpisodeQueries(AnimationEpisodeResult(series, season, episode, None), variants)
         == EpisodeQueries(GeneralEpisodeResult(series, season, episode), variants)
  {
  }

  /** The episode's video is in the list and carries a TVDB id. */
  predicate HasTvdbId(series: SeriesMeta, season: nat, episode: nat) {
    var v := FindEpisode(series.videos, season, episode);
    v.Some? && v.value.tvdbId.Some?
  }

  /** The TVDB id of the episode's video. */
  function TvdbId(series: SeriesMeta, season: nat, episode: nat): int
    requires HasTvdbId(series, season, episode)
  {
    FindEpisode(series.videos, season, episode).value.tvdbId.value
  }

  /**
    * `lookupEpisode`: a series without the "Animation" genre gives a general
    * result; otherwise the TVDB record of the episode's `tvdb_id` is looked up,
    * and a missing episode or a missing id give no info. The series and TVDB
    * lookups both declare no failure and turn every error into a defect, which
    * `Effect.option` does not catch: a failed series lookup and a failed TVDB
    * lookup both fail the whole lookup.
    */
  function LookupEpisode(lookupSeries: Exit<SeriesMeta>, season: nat, episode: nat,
                         tvdbLookup: int -> Exit<EpisodeData>): (r: Exit<EpisodeResult>)
    ensures lookupSeries.Failure? ==> r == Failure(lookupSeries.cause)
    ensures lookupSeries.Success? && "Animation" !in lookupSeries.value.genres ==>
      r == Success(GeneralEpisodeResult(lookupSeries.value, season, episode))
    ensures lookupSeries.Success? && "Animation" in lookupSeries.value.genres
            && HasTvdbId(lookupSeries.value, season, episode) ==>
      var data := tvdbLookup(TvdbId(lookupSeries.value, season, episode));
      (data.Failure? ==> r == Failure(data.cause))
      && (data.Success? ==> r == Success(AnimationEpisodeResult(lookupSeries.value, season, episode, Some(data.value))))
    ensures lookupSeries.Success? && "Animation" in lookupSeries.value.genres
            && !HasTvdbId(lookupSeries.value, season, episode) ==>
      r == Success(AnimationEpisodeResult(lookupSeries.value, season, episode, None))
  {
    match lookupSeries
    case Failure(cause) => Failure(cause)
    case Success(series) =>
      if "Animation" !in series.genres then Success(GeneralEpisodeResult(series, season, episode))
      else
        var info: Exit<Option<EpisodeData>> :=
          match FindEpisode(series.videos, season, episode)
          case None => Success(None)
          case Some(video) =>
            match video.tvdbId
            case None => Success(None)
            case Some(id) =>
              match tvdbLookup(id)
              case Failure(cause) => Failure(cause)
              case Success(data) => Success(Some(data));
        match info
        case Failure(cause) => Failure(cause)
        case Success(info) => Success(AnimationEpisodeResult(series, season, episode, info))
  }

  /** The movie lookup cache keeps a result a week and a failure five minutes. */
  function LookupMovieTimeToLive<A>(exit: Exit<A>): (ttl: Minutes)
    ensures exit.Success? ==> ttl == OneWeek
    ensures exit.Failure? ==> ttl == FiveMinutes
  {
    if exit.Success? then OneWeek else FiveMinutes
  }

  /** The series lookup cache keeps a result twelve hours and a failure five minutes. */
  function LookupSeriesTimeToLive<A>(exit: Exit<A>): (ttl: Minutes)
    ensures exit.Success? ==> ttl == TwelveHours
    ensures exit.Failure? ==> ttl == FiveMinutes
  {
    if exit.Success? then TwelveHours else FiveMinutes
  }
}
