/**
  * The Pirate Bay provider (src/Sources/Tpb.ts): a search by Imdb id, whose
  * "no results" answer is a single sentinel row with id "0", and the mapping
  * of each search result to a stream or, for a season query, a season pack.
  *
  * The search (an HTTP call behind a twelve-hour cache) is the parameter
  * `fetch`: the decoded result rows for an Imdb id, or the failure it ended with.
  */
module Tpb {
  import opened Wrappers
  import opened Utils
  import opened SourceStreams
  import opened VideoQueries

  /** How long a search is cached. */
  const SearchTimeToLive: Minutes := TwelveHours

  /** The id of the row the search answers with when nothing was found. */
  const SentinelId: string := "0"

  /** The fields of a search result row the provider reads. */
  datatype SearchResult = SearchResult(id: string, name: string, infoHash: string,
                                       leechers: int, seeders: int, size: int)

  /** The outcome of a search lookup as the provider sees it. */
  datatype SearchOutcome = Found(results: seq<SearchResult>) | SearchFailed(cause: string) | SearchDied

  /**
    * The search step as written: the first row is read without a check, so an
    * empty answer throws inside `Effect.map`, which kills the lookup with a
    * defect rather than failing it.
    */
  function SearchAsWritten(results: seq<SearchResult>): (r: SearchOutcome)
    ensures results == [] ==> r == SearchDied
    ensures results != [] && results[0].id == SentinelId ==> r == Found([])
    ensures results != [] && results[0].id != SentinelId ==> r == Found(results)
  {
    if results == [] then SearchDied
    else if results[0].id == SentinelId then Found([])
    else Found(results)
  }

  /** The search step as meant: the sentinel row and an empty answer both mean no results. */
  function Search(results: seq<SearchResult>): (r: seq<SearchResult>)
    ensures r == [] || r == results
    ensures r == results <==> results == [] || results[0].id != SentinelId
    ensures r != [] ==> r[0].id != SentinelId
  {
    if results != [] && results[0].id == SentinelId then [] else results
  }

  /** The two agree on every answer with a first row; only the empty answer kills the lookup as written. */
  lemma EmptyAnswerKillsSearch(results: seq<SearchResult>)
    ensures results == [] <==> SearchAsWritten(results) == SearchDied
    ensures results != [] ==> SearchAsWritten(results) == Found(Search(results))
  {
  }

  /** `asStream`: a plain TPB stream, its label classified from the row's name. */
  function AsStream(r: SearchResult): (s: SourceStream)
    ensures s.SourceStream? && s.source == "TPB" && s.title == r.name && s.infoHash == r.infoHash
    ensures s.magnetUri == MagnetFromHash(r.infoHash) && s.quality == QualityFromTitle(r.name)
    ensures s.seeds == r.seeders && s.peers == r.leechers && s.sizeBytes == Some(r.size)
    ensures s.sizeDisplay.None? && s.url.None? && !s.verified
  {
    SourceStream("TPB", r.name, r.infoHash, MagnetFromHash(r.infoHash), QualityFromTitle(r.name),
                 r.seeders, r.leechers, Some(r.size), None, None, false)
  }

  /** `asSeason`: a TPB season pack. */
  function AsSeason(r: SearchResult): (s: SourceSeason)
    ensures s.source == "TPB" && s.title == r.name && s.infoHash == r.infoHash
    ensures s.magnetUri == MagnetFromHash(r.infoHash) && s.seeds == r.seeders && s.peers == r.leechers
    ensures !s.verified
  {
    SourceSeason("TPB", r.name, r.infoHash, MagnetFromHash(r.infoHash), r.seeders, r.leechers, false)
  }

  /** A row read as a season pack and as a stream agrees on every shared field, the label included. */
  lemma SeasonAgreesWithStream(r: SearchResult)
    ensures AsSeason(r).Quality() == AsStream(r).quality
    ensures AsSeason(r).title == AsStream(r).title && AsSeason(r).infoHash == AsStream(r).infoHash
    ensures AsSeason(r).magnetUri == AsStream(r).magnetUri
    ensures AsSeason(r).seeds == AsStream(r).seeds && AsSeason(r).peers == AsStream(r).peers
  {
  }

  /** A stream's magnet link names the stream's hash. */
  lemma StreamNamesItsHash(r: SearchResult)
    requires r.infoHash != "" && '&' !in r.infoHash
    ensures InfoHashFromMagnet(AsStream(r).magnetUri) == AsStream(r).infoHash
  {
    MagnetRoundTrip(r.infoHash);
  }

  /** Each row as a season pack when `asSeasons`, as a stream otherwise, in row order. */
  function MapResults(rows: seq<SearchResult>, asSeasons: bool): (r: seq<SourceResult>)
    ensures |r| == |rows|
    ensures forall i | 0 <= i < |r| :: r[i] == if asSeasons then Season(AsSeason(rows[i])) else Stream(AsStream(rows[i]))
  {
    seq(|rows|, i requires 0 <= i < |rows| => if asSeasons then Season(AsSeason(rows[i])) else Stream(AsStream(rows[i])))
  }

  /** The results for an Imdb id: the searched rows mapped, or none when the search failed. */
  function Answer(imdbId: string, asSeasons: bool, fetch: string -> Exit<seq<SearchResult>>): (r: seq<SourceResult>)
    ensures fetch(imdbId).Failure? ==> r == []
    ensures fetch(imdbId).Success? ==> r == MapResults(Search(fetch(imdbId).value), asSeasons)
  {
    match fetch(imdbId)
    case Failure(_) => []
    case Success(rows) => MapResults(Search(rows), asSeasons)
  }

  /** The tags the provider's matcher is written with. */
  const MatchedTags: set<string> := {"ImbdMovieQuery", "ImdbSeriesQuery", "ImdbSeasonQuery"}

  /** The cause a search that read the first row of an empty answer dies with. */
  const EmptyAnswerDefect: string := "TypeError: results[0] is undefined"

  /**
    * The results for an Imdb id as written: a failed search gives none, but
    * the defect of an empty answer is not caught and fails the list.
    */
  function AnswerAsWritten(imdbId: string, asSeasons: bool, fetch: string -> Exit<seq<SearchResult>>): (r: Exit<seq<SourceResult>>)
    ensures fetch(imdbId).Failure? ==> r == Success([])
    ensures fetch(imdbId) == Success([]) ==> r == Failure(EmptyAnswerDefect)
    ensures fetch(imdbId).Success? && fetch(imdbId).value != [] ==>
      r == Success(Answer(imdbId, asSeasons, fetch))
  {
    match fetch(imdbId)
    case Failure(_) => Success([])
    case Success(rows) =>
      match SearchAsWritten(rows)
      case SearchDied => Failure(EmptyAnswerDefect)
      case SearchFailed(_) => Success([])
      case Found(results) => Success(MapResults(results, asSeasons))
  }

  /**
    * `list` as written: the queries whose tag is one of the three are searched
    * by their Imdb id, a season query yielding season packs; every other query
    * gets nothing. The Imdb movie query is tagged "MovieQuery".
    */
  function ListAsWritten(query: VideoQuery, fetch: string -> Exit<seq<SearchResult>>): Exit<seq<SourceResult>> {
    if query.Tag() in MatchedTags then AnswerAsWritten(query.ImdbIdField().GetOr(""), query.Tag() == "ImdbSeasonQuery", fetch)
    else Success([])
  }

  /** As written a movie is never searched, however many rows the search would find. */
  lemma MoviesNeverSearched(imdbId: string, fetch: string -> Exit<seq<SearchResult>>)
    requires fetch(imdbId).Success? && fetch(imdbId).value != [] && fetch(imdbId).value[0].id != SentinelId
    ensures ListAsWritten(ImdbMovieQuery(imdbId), fetch) == Success([])
    ensures |List(ImdbMovieQuery(imdbId), fetch)| == |fetch(imdbId).value|
  {
    assert ImdbMovieQuery(imdbId).Tag() !in MatchedTags;
  }

  /** As written an episode whose search answers an empty array fails the whole list request. */
  lemma EmptyAnswerFailsEpisode(imdbId: string, season: nat, episode: nat, fetch: string -> Exit<seq<SearchResult>>)
    requires fetch(imdbId) == Success([])
    ensures ListAsWritten(ImdbSeriesQuery(imdbId, season, episode), fetch) == Failure(EmptyAnswerDefect)
    ensures List(ImdbSeriesQuery(imdbId, season, episode), fetch) == []
  {
    assert ImdbSeriesQuery(imdbId, season, episode).Tag() in MatchedTags;
  }

  /**
    * Apart from the Imdb movie query and the empty answer, the list as written
    * answers what the meant one does.
    */
  lemma ListAsWrittenAgreesElsewhere(query: VideoQuery, fetch: string -> Exit<seq<SearchResult>>)
    requires !query.ImdbMovieQuery?
    requires query.ImdbIdField().Some? ==> fetch(query.imdbId) != Success([])
    ensures ListAsWritten(query, fetch) == Success(List(query, fetch))
  {
  }

  /**
    * `list` as meant: the Imdb movie, episode and season queries are searched by
    * their Imdb id, the season query yielding season packs and the others
    * streams; every other query gets nothing.
    */
  function List(query: VideoQuery, fetch: string -> Exit<seq<SearchResult>>): (r: seq<SourceResult>)
    ensures !(query.ImdbMovieQuery? || query.ImdbSeriesQuery? || query.ImdbSeasonQuery?) ==> r == []
    ensures query.ImdbMovieQuery? || query.ImdbSeriesQuery? ==> r == Answer(query.imdbId, false, fetch)
    ensures query.ImdbSeasonQuery? ==> r == Answer(query.imdbId, true, fetch)
  {
    match query
    case ImdbMovieQuery(imdbId) => Answer(imdbId, false, fetch)
    case ImdbSeriesQuery(imdbId, _, _) => Answer(imdbId, false, fetch)
    case ImdbSeasonQuery(imdbId, _, _) => Answer(imdbId, true, fetch)
    case _ => []
  }

  /** A season query yields only season packs and any other query only plain streams, one per row found. */
  lemma ListKinds(query: VideoQuery, fetch: string -> Exit<seq<SearchResult>>)
    ensures query.ImdbSeasonQuery? ==> forall r | r in List(query, fetch) :: r.Season?
    ensures !query.ImdbSeasonQuery? ==> forall r | r in List(query, fetch) :: r.Stream? && r.stream.SourceStream?
    ensures |List(query, fetch)| <= (if query.ImdbIdField().Some? && fetch(query.imdbId).Success?
                                     then |fetch(query.imdbId).value| else 0)
  {
  }
}
