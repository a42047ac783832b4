/**
  * The 1337x provider (src/Sources/1337x.ts): a search by query string in the
  * "Movies" or "TV" category, cached under a key built from both; the first
  * ten results whose magnet link can be had become season packs for a season
  * query and streams otherwise.
  *
  * The search (a scraped page behind a persisted cache) is the parameter
  * `search`, and fetching a result's magnet link (another scraped page) is the
  * parameter `magnetLink`; each gives its value or the failure it ended with.
  */
module Leetx {
  import opened Wrappers
  import opened Strings
  import opened Utils
  import opened SourceStreams
  import opened VideoQueries

  /** The fields of a scraped search result. */
  datatype SearchResult = SearchResult(url: string, title: string, size: string, seeds: int, peers: int)

  /** A search: the query string and the category it is run in. */
  datatype SearchRequest = SearchRequest(query: string, category: string)

  /** The two categories a search is run in. */
  predicate IsCategory(c: string) {
    c == "Movies" || c == "TV"
  }

  /** The persisted cache key of a search: the category, a slash, and the query. */
  function SearchKey(r: SearchRequest): (key: string)
    ensures StartsWith(key, r.category + "/") && key[|r.category| + 1..] == r.query
  {
    var key := r.category + "/" + r.query;
    assert key[..|r.category| + 1] == r.category + "/";
    key
  }

  /** Searches in the two categories share a key exactly when they are the same search. */
  lemma SearchKeyIdentifiesSearch(a: SearchRequest, b: SearchRequest)
    requires IsCategory(a.category) && IsCategory(b.category)
    ensures SearchKey(a) == SearchKey(b) <==> a == b
  {
    if SearchKey(a) == SearchKey(b) {
      var k := SearchKey(a);
      assert k[0] == a.category[0] && k[0] == b.category[0];
      assert a.category == b.category;
      assert a.query == k[|a.category| + 1..] == b.query;
    }
  }

  /** The search cache lifetime: five minutes for a failure, three days for more than five results, three hours otherwise. */
  function SearchTimeToLive(exit: Exit<seq<SearchResult>>): (ttl: Minutes)
    ensures exit.Failure? ==> ttl == FiveMinutes
    ensures exit.Success? && |exit.value| > 5 ==> ttl == ThreeDays
    ensures exit.Success? && |exit.value| <= 5 ==> ttl == ThreeHours
  {
    if exit.Failure? then FiveMinutes
    else if |exit.value| > 5 then ThreeDays
    else ThreeHours
  }

  /** The category of a query: "Movies" for a query tagged "MovieQuery", "TV" for every other. */
  function CategoryOf(query: VideoQuery): (c: string)
    ensures IsCategory(c)
    ensures c == "Movies" <==> query.Tag() == "MovieQuery"
  {
    if query.Tag() == "MovieQuery" then "Movies" else "TV"
  }

  /** Both movie variants are searched among movies, every series variant among TV. */
  lemma MovieVariantsSearchMovies(query: VideoQuery)
    ensures CategoryOf(query) == "Movies" <==> query.MovieQuery? || query.ImdbMovieQuery?
  {
  }

  /** The most results that become candidates. */
  const MaxResults: nat := 10

  /**
    * The candidate a result becomes once its magnet link is known: a season pack
    * for a season query, a stream otherwise; the hash is read from the link.
    */
  function Candidate(query: VideoQuery, result: SearchResult, magnet: string): (r: SourceResult)
    ensures query.Tag() == "SeasonQuery" ==>
      (r.Season? && r.season.title == result.title
       && r.season.infoHash == InfoHashFromMagnet(magnet) && r.season.magnetUri == magnet)
    ensures query.Tag() != "SeasonQuery" ==>
      (r.Stream? && r.stream.SourceStream? && r.stream.title == result.title
       && r.stream.infoHash == InfoHashFromMagnet(magnet) && r.stream.magnetUri == magnet
       && r.stream.quality == QualityFromTitle(result.title) && r.stream.sizeDisplay == Some(result.size))
  {
    if query.Tag() == "SeasonQuery" then
      Season(SourceSeason("1337x", result.title, InfoHashFromMagnet(magnet), magnet, result.seeds, result.peers, false))
    else
      Stream(SourceStream("1337x", result.title, InfoHashFromMagnet(magnet), magnet, QualityFromTitle(result.title),
                          result.seeds, result.peers, None, Some(result.size), None, false))
  }

  /** The candidate is what one of the results becomes, its magnet link fetched. */
  predicate FromResult(c: SourceResult, query: VideoQuery, results: seq<SearchResult>, magnetLink: string -> Exit<string>) {
    exists i | 0 <= i < |results| ::
      magnetLink(results[i].url).Success? && c == Candidate(query, results[i], magnetLink(results[i].url).value)
  }

  /** The candidates of the results whose magnet link could be had, in result order; a failed link drops its result only. */
  function Resolve(query: VideoQuery, results: seq<SearchResult>, magnetLink: string -> Exit<string>): (r: seq<SourceResult>)
    ensures |r| <= |results|
    ensures forall c | c in r :: FromResult(c, query, results, magnetLink)
    ensures forall i | 0 <= i < |results| && magnetLink(results[i].url).Success? ::
      Candidate(query, results[i], magnetLink(results[i].url).value) in r
  {
    if results == [] then []
    else
      var rest := Resolve(query, results[1..], magnetLink);
      assert forall i | 1 <= i < |results| :: results[i] == results[1..][i - 1];
      match magnetLink(results[0].url)
      case Failure(_) => rest
      case Success(magnet) => [Candidate(query, results[0], magnet)] + rest
  }

  /** The tags the provider answers. */
  const AnsweredTags: set<string> := {"AbsoluteSeriesQuery", "MovieQuery", "SeriesQuery", "SeasonQuery"}

  /** The first ten results, or all of them when there are fewer. */
  function Take(results: seq<SearchResult>): (r: seq<SearchResult>)
    ensures |r| <= MaxResults && |r| <= |results| && r == results[..|r|]
    ensures |results| <= MaxResults ==> r == results
  {
    if |results| <= MaxResults then results else results[..MaxResults]
  }

  /**
    * `list`: a query with one of the four tags is searched by its query string
    * in its category, and the first ten results are resolved; a failed search,
    * and every other query, gives nothing.
    */
  function List(query: VideoQuery, search: SearchRequest -> Exit<seq<SearchResult>>,
                magnetLink: string -> Exit<string>): (r: seq<SourceResult>)
    ensures query.Tag() !in AnsweredTags ==> r == []
    ensures query.Tag() in AnsweredTags ==>
      var found := search(SearchRequest(query.AsQuery(), CategoryOf(query)));
      (found.Failure? ==> r == []) && (found.Success? ==> r == Resolve(query, Take(found.value), magnetLink))
  {
    if query.Tag() !in AnsweredTags then []
    else
      match search(SearchRequest(query.AsQuery(), CategoryOf(query)))
      case Failure(_) => []
      case Success(results) => Resolve(query, Take(results), magnetLink)
  }

  /**
    * Which queries are answered: both movie variants (the Imdb movie query
    * shares the "MovieQuery" tag, and is searched by its Imdb id), the title
    * episode, season and absolute queries; no Imdb series, channel or tv query.
    */
  lemma AnsweredQueries(query: VideoQuery)
    ensures query.Tag() in AnsweredTags <==>
      query.MovieQuery? || query.ImdbMovieQuery? || query.SeriesQuery? || query.SeasonQuery? || query.AbsoluteSeriesQuery?
  {
  }

  /**
    * At most ten candidates, each the candidate of one of the first ten results:
    * season packs for a season query, streams whose hash their link names otherwise.
    */
  lemma ListBounds(query: VideoQuery, search: SearchRequest -> Exit<seq<SearchResult>>, magnetLink: string -> Exit<string>)
    ensures |List(query, search, magnetLink)| <= MaxResults
    ensures query.SeasonQuery? ==> forall c | c in List(query, search, magnetLink) :: c.Season?
    ensures !query.SeasonQuery? ==> forall c | c in List(query, search, magnetLink) ::
      c.Stream? && c.stream.infoHash == InfoHashFromMagnet(c.stream.magnetUri)
  {
    var r := List(query, search, magnetLink);
    if query.Tag() in AnsweredTags {
      var found := search(SearchRequest(query.AsQuery(), CategoryOf(query)));
      if found.Success? {
        var taken := Take(found.value);
        forall c | c in r
          ensures query.SeasonQuery? ==> c.Season?
          ensures !query.SeasonQuery? ==> c.Stream? && c.stream.infoHash == InfoHashFromMagnet(c.stream.magnetUri)
        {
          assert FromResult(c, query, taken, magnetLink);
          var i :| 0 <= i < |taken| && magnetLink(taken[i].url).Success?
            && c == Candidate(query, taken[i], magnetLink(taken[i].url).value);
        }
      }
    }
  }
}
