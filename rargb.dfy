/**
  * The RARBG-mirror provider (src/Sources/Rargb.ts): a search by query string
  * in a set of categories, which for an episode drops the results titled as a
  * range of episodes, fetches each remaining result's magnet link and keeps
  * those it could fetch; and the searches a stream request is answered with.
  *
  * The search page (a scraped page behind a twelve-hour cache) is the parameter
  * `fetch`, a result's magnet link the parameter `magnetLink`, and the Cinemeta
  * lookups the parameters `lookupMovie` and `seriesQueries`; each gives its
  * value or the failure it ended with. `seriesQueries` stands for the query
  * strings the episode lookup offers, which are not part of this model.
  */
module Rargb {
  import opened Wrappers
  import opened Strings
  import opened Utils
  import opened SourceStreams
  import opened VideoQueries
  import opened Stremio
  import Cinemeta

  /** How long a search is cached. */
  const SearchTimeToLive: Minutes := TwelveHours

  /** The fields of a scraped search result. */
  datatype ScrapedResult = ScrapedResult(url: string, title: string, size: string, seeds: int, peers: int)

  /** A search: the query string, the episode token a result must not start a range with, and the categories. */
  datatype SearchRequest = SearchRequest(query: string, episodeQuery: Option<string>, categories: seq<string>)

  /** Whether a result survives the range filter: with an episode token set, its title must not contain the token and a dash. */
  predicate KeepsTitle(episodeQuery: Option<string>, title: string) {
    match episodeQuery
    case None => true
    case Some(token) => token == "" || !Contains(title, token + "-")
  }

  /** The stream a result becomes once its magnet link is known; the hash is read from the link and the stream gets no title. */
  function ToStream(result: ScrapedResult, magnet: string): (s: SourceStream)
    ensures s.SourceStream? && s.source == "Rarbg" && s.title == ""
    ensures s.infoHash == InfoHashFromMagnet(magnet) && s.magnetUri == magnet
    ensures s.quality == QualityFromTitle(result.title)
    ensures s.seeds == result.seeds && s.peers == result.peers && s.sizeDisplay == Some(result.size)
    ensures s.sizeBytes.None? && s.url.None? && !s.verified
  {
    SourceStream("Rarbg", "", InfoHashFromMagnet(magnet), magnet, QualityFromTitle(result.title),
                 result.seeds, result.peers, None, Some(result.size), None, false)
  }

  /** The stream is what a result that survives the range filter becomes, its magnet link fetched. */
  predicate FromKeptResult(s: SourceStream, episodeQuery: Option<string>, results: seq<ScrapedResult>,
                           magnetLink: string -> Exit<string>) {
    exists i | 0 <= i < |results| ::
      KeepsTitle(episodeQuery, results[i].title) && magnetLink(results[i].url).Success?
      && s == ToStream(results[i], magnetLink(results[i].url).value)
  }

  /**
    * The streams of a search's results, in result order: a result titled as a
    * range of the episode is dropped, and so is a result whose magnet link
    * could not be fetched.
    */
  function SearchStreams(episodeQuery: Option<string>, results: seq<ScrapedResult>,
                         magnetLink: string -> Exit<string>): (r: seq<SourceStream>)
    ensures |r| <= |results|
    ensures forall s | s in r :: FromKeptResult(s, episodeQuery, results, magnetLink)
    ensures forall i | 0 <= i < |results| && KeepsTitle(episodeQuery, results[i].title) && magnetLink(results[i].url).Success? ::
      ToStream(results[i], magnetLink(results[i].url).value) in r
  {
    if results == [] then []
    else
      var rest := SearchStreams(episodeQuery, results[1..], magnetLink);
      assert forall i | 1 <= i < |results| :: results[i] == results[1..][i - 1];
      var head := results[0];
      if !KeepsTitle(episodeQuery, head.title) then rest
      else
        match magnetLink(head.url)
        case Failure(_) => rest
        case Success(magnet) => [ToStream(head, magnet)] + rest
  }

  /** The streams of two runs of results are those of the first run followed by those of the second. */
  lemma {:induction false} SearchStreamsConcat(episodeQuery: Option<string>, results: seq<ScrapedResult>,
                                               more: seq<ScrapedResult>, magnetLink: string -> Exit<string>)
    ensures SearchStreams(episodeQuery, results + more, magnetLink)
         == SearchStreams(episodeQuery, results, magnetLink) + SearchStreams(episodeQuery, more, magnetLink)
  {
    if results == [] {
      assert results + more == more;
    } else {
      assert (results + more)[1..] == results[1..] + more;
      SearchStreamsConcat(episodeQuery, results[1..], more, magnetLink);
    }
  }

  /** One result gives its stream exactly when its title survives the filter and its magnet link is fetched. */
  lemma SearchStreamsSingleton(episodeQuery: Option<string>, result: ScrapedResult, magnetLink: string -> Exit<string>)
    ensures SearchStreams(episodeQuery, [result], magnetLink) ==
      if KeepsTitle(episodeQuery, result.title) && magnetLink(result.url).Success?
      then [ToStream(result, magnetLink(result.url).value)] else []
  {
  }

  /** A two-episode release is dropped from the search for its first episode; a single episode is kept. */
  lemma RangeFilterExample()
    ensures !KeepsTitle(Some("S01E02"), "Show.S01E02-E03.1080p")
    ensures KeepsTitle(Some("S01E02"), "Show.S01E02.1080p")
    ensures KeepsTitle(None, "Show.S01E02-E03.1080p")
  {
    assert "S01E02" + "-" == "S01E02-";
    assert OccursAt("Show.S01E02-E03.1080p", "S01E02-", 5);
    var t := "Show.S01E02.1080p";
    assert forall k | 0 <= k < |t| :: t[k] != '-';
    forall i | 0 <= i <= |t| ensures !OccursAt(t, "S01E02-", i) {
      if 0 <= i && i + 7 <= |t| {
        assert t[i..i + 7][6] == t[i + 6];
      }
    }
  }

  /** A search: the streams of the fetched results, or the failure of the fetch. */
  function Search(request: SearchRequest, fetch: SearchRequest -> Exit<seq<ScrapedResult>>,
                  magnetLink: string -> Exit<string>): (r: Exit<seq<SourceStream>>)
    ensures fetch(request).Failure? <==> r.Failure?
    ensures fetch(request).Success? ==> r == Success(SearchStreams(request.episodeQuery, fetch(request).value, magnetLink))
  {
    match fetch(request)
    case Failure(cause) => Failure(cause)
    case Success(results) => Success(SearchStreams(request.episodeQuery, results, magnetLink))
  }

  /** The search for one query string of an episode: among TV and anime, with the episode's token. */
  function EpisodeSearch(query: string, season: nat, episode: nat): SearchRequest {
    SearchRequest(query, Some(FormatEpisode(season, episode)), ["tv", "anime"])
  }

  /** The searches for every query string, one after another; the first failure fails them all. */
  function SearchAll(queries: seq<string>, season: nat, episode: nat,
                     fetch: SearchRequest -> Exit<seq<ScrapedResult>>, magnetLink: string -> Exit<string>): Exit<seq<SourceStream>>
  {
    if queries == [] then Success([])
    else
      match Search(EpisodeSearch(queries[0], season, episode), fetch, magnetLink)
      case Failure(cause) => Failure(cause)
      case Success(first) =>
        match SearchAll(queries[1..], season, episode, fetch, magnetLink)
        case Failure(cause) => Failure(cause)
        case Success(rest) => Success(first + rest)
  }

  /**
    * The searches fail exactly when one of them fails, and otherwise every
    * stream they yield is a stream of one of the searches.
    */
  lemma {:induction false} SearchAllProperties(queries: seq<string>, season: nat, episode: nat,
                                               fetch: SearchRequest -> Exit<seq<ScrapedResult>>, magnetLink: string -> Exit<string>)
    ensures SearchAll(queries, season, episode, fetch, magnetLink).Failure? <==>
      exists q | q in queries :: fetch(EpisodeSearch(q, season, episode)).Failure?
    ensures SearchAll(queries, season, episode, fetch, magnetLink).Success? ==>
      forall s | s in SearchAll(queries, season, episode, fetch, magnetLink).value :: exists q | q in queries ::
        fetch(EpisodeSearch(q, season, episode)).Success?
        && FromKeptResult(s, Some(FormatEpisode(season, episode)), fetch(EpisodeSearch(q, season, episode)).value, magnetLink)
  {
    if queries != [] {
      var token := Some(FormatEpisode(season, episode));
      var head, tail := queries[0], queries[1..];
      SearchAllProperties(tail, season, episode, fetch, magnetLink);
      assert forall q | q in tail :: q in queries;
      assert forall q | q in queries :: q == head || q in tail;
      var all := SearchAll(queries, season, episode, fetch, magnetLink);
      if all.Success? {
        var first := SearchStreams(token, fetch(EpisodeSearch(head, season, episode)).value, magnetLink);
        var rest := SearchAll(tail, season, episode, fetch, magnetLink).value;
        assert all.value == first + rest;
        forall s | s in all.value
          ensures exists q | q in queries ::
            fetch(EpisodeSearch(q, season, episode)).Success?
            && FromKeptResult(s, token, fetch(EpisodeSearch(q, season, episode)).value, magnetLink)
        {
          if s in first {
            assert head in queries && fetch(EpisodeSearch(head, season, episode)).Success?;
          } else {
            assert s in rest;
          }
        }
      }
    }
  }

  /**
    * `list` on a stream request: a movie is searched by its Cinemeta name among
    * movies; an episode is searched by every query string of its lookup among
    * TV and anime with the episode's token; a failed search gives no stream,
    * and so does every channel and tv request. The Cinemeta lookups declare no
    * failure and turn every error into a defect, which `orElseSucceed` does not
    * catch: a failed lookup fails the list.
    */
  function List(request: StreamRequest, lookupMovie: string -> Exit<Cinemeta.MovieMeta>,
                seriesQueries: (string, nat, nat) -> Exit<seq<string>>,
                fetch: SearchRequest -> Exit<seq<ScrapedResult>>, magnetLink: string -> Exit<string>): (r: Exit<seq<SourceStream>>)
    ensures request.Channel? || request.Tv? ==> r == Success([])
    ensures request.Movie? ==>
      match lookupMovie(request.imdbId)
      case Failure(cause) => r == Failure(cause)
      case Success(meta) => r == Success(Search(SearchRequest(meta.name, None, ["movies"]), fetch, magnetLink).OrElseSucceed([]))
    ensures request.Series? ==>
      match seriesQueries(request.imdbId, request.season, request.episode)
      case Failure(cause) => r == Failure(cause)
      case Success(queries) => r == Success(SearchAll(queries, request.season, request.episode, fetch, magnetLink).OrElseSucceed([]))
  {
    match request
    case Channel(_) => Success([])
    case Movie(imdbId) =>
      (match lookupMovie(imdbId)
       case Failure(cause) => Failure(cause)
       case Success(meta) =>
         match Search(SearchRequest(meta.name, None, ["movies"]), fetch, magnetLink)
         case Failure(_) => Success([])
         case Success(streams) => Success(streams))
    case Series(imdbId, season, episode) =>
      (match seriesQueries(imdbId, season, episode)
       case Failure(cause) => Failure(cause)
       case Success(queries) =>
         match SearchAll(queries, season, episode, fetch, magnetLink)
         case Failure(_) => Success([])
         case Success(streams) => Success(streams))
    case Tv(_) => Success([])
  }

  /** A result survives the filter of an episode search exactly when its title holds no range that starts at the episode. */
  lemma EpisodeFilterDropsRanges(season: nat, episode: nat, title: string)
    ensures KeepsTitle(EpisodeSearch("", season, episode).episodeQuery, title) <==>
      !Contains(title, FormatEpisode(season, episode) + "-")
  {
  }

  /**
    * Every stream listed for an episode is what a result of one of its searches
    * became, a result whose title survived the range filter and whose magnet
    * link was fetched; and its hash is the one its magnet link names.
    */
  lemma EpisodeListingSkipsRanges(imdbId: string, season: nat, episode: nat,
                                  lookupMovie: string -> Exit<Cinemeta.MovieMeta>,
                                  seriesQueries: (string, nat, nat) -> Exit<seq<string>>,
                                  fetch: SearchRequest -> Exit<seq<ScrapedResult>>, magnetLink: string -> Exit<string>)
    ensures List(Series(imdbId, season, episode), lookupMovie, seriesQueries, fetch, magnetLink).Success? ==>
      forall s | s in List(Series(imdbId, season, episode), lookupMovie, seriesQueries, fetch, magnetLink).value ::
      s.infoHash == InfoHashFromMagnet(s.magnetUri) && s.source == "Rarbg"
    ensures List(Series(imdbId, season, episode), lookupMovie, seriesQueries, fetch, magnetLink).Success? ==>
      forall s | s in List(Series(imdbId, season, episode), lookupMovie, seriesQueries, fetch, magnetLink).value ::
      seriesQueries(imdbId, season, episode).Success?
      && exists q | q in seriesQueries(imdbId, season, episode).value ::
        fetch(EpisodeSearch(q, season, episode)).Success?
        && FromKeptResult(s, Some(FormatEpisode(season, episode)), fetch(EpisodeSearch(q, season, episode)).value, magnetLink)
  {
    var exit := List(Series(imdbId, season, episode), lookupMovie, seriesQueries, fetch, magnetLink);
    if exit.Success? && exit.value != [] {
      var r := exit.value;
      var queries := seriesQueries(imdbId, season, episode).value;
      SearchAllProperties(queries, season, episode, fetch, magnetLink);
      forall s | s in r ensures s.infoHash == InfoHashFromMagnet(s.magnetUri) && s.source == "Rarbg" {
        var q :| q in queries && fetch(EpisodeSearch(q, season, episode)).Success?
          && FromKeptResult(s, Some(FormatEpisode(season, episode)), fetch(EpisodeSearch(q, season, episode)).value, magnetLink);
      }
    }
  }
}
