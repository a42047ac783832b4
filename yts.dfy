/**
  * The YTS provider (src/Sources/Yts.ts): the details of a movie become one
  * stream per torrent, the details cache keeps an answer for a time that
  * depends on it, and the provider answers movie queries by Imdb id.
  *
  * The details lookup (an HTTP call behind a persisted cache) is the parameter
  * `details`: the movie for an Imdb id, or the failure it ended with.
  */
module Yts {
  import opened Wrappers
  import opened Utils
  import opened SourceStreams
  import opened VideoQueries
  import Sources

  /** The quality labels the YTS schema admits for a torrent. */
  const QualityLabels: seq<string> := ["480p", "720p", "1080p", "1080p.x265", "2160p", "3D"]

  /** The fields of a YTS torrent the provider reads. */
  datatype Torrent = Torrent(hash: string, quality: string, seeds: int, peers: int, sizeBytes: int)

  /** The fields of a YTS movie the provider reads; `title` may be null and `torrents` absent or null. */
  datatype Movie = Movie(title: Option<string>, titleLong: string, torrents: Option<seq<Torrent>>)

  /** Every torrent carries one of the labels the schema admits. */
  predicate WellFormed(m: Movie) {
    m.torrents.Some? ==> forall t | t in m.torrents.value :: t.quality in QualityLabels
  }

  /** `this.title || this.title_long`: a null or empty title falls back to the long title. */
  function DisplayTitle(m: Movie): (t: string)
    ensures m.title.Some? && m.title.value != "" ==> t == m.title.value
    ensures m.title.None? || m.title.value == "" ==> t == m.titleLong
  {
    match m.title
    case Some(title) => if title != "" then title else m.titleLong
    case None => m.titleLong
  }

  /** The stream one torrent becomes. */
  function TorrentStream(title: string, t: Torrent): SourceStream {
    SourceStream("YTS", title, t.hash, MagnetFromHash(t.hash), t.quality, t.seeds, t.peers,
                 Some(t.sizeBytes), None, None, false)
  }

  /**
    * `Movie.streams`: nothing without torrents, otherwise one plain stream per
    * torrent in torrent order, titled after the movie, with the torrent's label
    * kept as it is rather than classified from the title.
    */
  function Streams(m: Movie): (r: seq<SourceStream>)
    ensures m.torrents.None? ==> r == []
    ensures m.torrents.Some? ==> |r| == |m.torrents.value|
    ensures m.torrents.Some? ==> forall i | 0 <= i < |r| ::
      r[i].SourceStream? && r[i].source == "YTS" && r[i].title == DisplayTitle(m)
      && r[i].infoHash == m.torrents.value[i].hash && r[i].quality == m.torrents.value[i].quality
      && r[i].seeds == m.torrents.value[i].seeds && r[i].peers == m.torrents.value[i].peers
      && r[i].sizeBytes == Some(m.torrents.value[i].sizeBytes) && !r[i].verified && r[i].url.None?
  {
    match m.torrents
    case None => []
    case Some(ts) => seq(|ts|, i requires 0 <= i < |ts| => TorrentStream(DisplayTitle(m), ts[i]))
  }

  /** The magnet link of every stream names the stream's own hash. */
  lemma StreamsNameTheirHash(m: Movie)
    requires m.torrents.Some? ==> forall t | t in m.torrents.value :: t.hash != "" && '&' !in t.hash
    ensures forall s | s in Streams(m) :: InfoHashFromMagnet(s.magnetUri) == s.infoHash
  {
    forall s | s in Streams(m) ensures InfoHashFromMagnet(s.magnetUri) == s.infoHash {
      var i :| 0 <= i < |Streams(m)| && Streams(m)[i] == s;
      assert m.torrents.value[i] in m.torrents.value;
      MagnetRoundTrip(s.infoHash);
    }
  }

  // ---------------------------------------------------------------------------
  // The details cache lifetime

  /**
    * The details lifetime as written: a failure is kept five minutes, and a
    * success is asked for its `length`. The success value is one movie, not an
    * array, so its length is undefined, the comparison with zero is false, and
    * every success is kept six hours.
    */
  function DetailsTimeToLiveAsWritten(exit: Exit<Movie>): (ttl: Minutes)
    ensures exit.Failure? ==> ttl == FiveMinutes
    ensures exit.Success? ==> ttl == SixHours
  {
    if exit.Failure? then FiveMinutes else SixHours
  }

  /** The lifetime as meant: three days for a movie with streams, six hours for one without. */
  function DetailsTimeToLive(exit: Exit<Movie>): (ttl: Minutes)
    ensures exit.Failure? ==> ttl == FiveMinutes
    ensures exit.Success? ==> (ttl == ThreeDays <==> Streams(exit.value) != [])
    ensures exit.Success? ==> (ttl == SixHours <==> Streams(exit.value) == [])
  {
    if exit.Failure? then FiveMinutes
    else if |Streams(exit.value)| > 0 then ThreeDays
    else SixHours
  }

  /** A movie with a torrent is kept six hours as written, where three days are meant. */
  lemma DetailsLifetimeIgnoresTorrents(m: Movie)
    requires m.torrents.Some? && m.torrents.value != []
    ensures DetailsTimeToLiveAsWritten(Success(m)) == SixHours
    ensures DetailsTimeToLive(Success(m)) == ThreeDays
  {
  }

  // ---------------------------------------------------------------------------
  // The registered list

  /** The tag the provider's matcher is written with. */
  const MatchedTag: string := "ImbdMovieQuery"

  /**
    * The streams for an Imdb id: the details' streams. The details lookup
    * declares no failure and turns every error into a defect, which
    * `orElseSucceed` does not catch, so a failed lookup fails the list.
    */
  function Answer(imdbId: string, details: string -> Exit<Movie>): (r: Exit<seq<SourceStream>>)
    ensures details(imdbId).Failure? ==> r == Failure(details(imdbId).cause)
    ensures details(imdbId).Success? ==> r == Success(Streams(details(imdbId).value))
  {
    match details(imdbId)
    case Failure(cause) => Failure(cause)
    case Success(movie) => Success(Streams(movie))
  }

  /**
    * `list` as written: queries tagged "ImbdMovieQuery" are answered, every
    * other query gets no stream. The Imdb movie query is tagged "MovieQuery".
    */
  function ListAsWritten(query: VideoQuery, details: string -> Exit<Movie>): Exit<seq<SourceStream>> {
    if query.Tag() == MatchedTag then Answer(query.ImdbIdField().GetOr(""), details) else Success([])
  }

  /**
    * No query carries the tag the matcher is written with, so as written the
    * provider never yields a stream and never looks anything up.
    */
  lemma ListAsWrittenIsEmpty(query: VideoQuery, details: string -> Exit<Movie>)
    ensures query.Tag() != MatchedTag
    ensures ListAsWritten(query, details) == Success([])
  {
  }

  /** A movie asked for by Imdb id, whose details list a torrent, gets no stream as written. */
  lemma ListAsWrittenMissesMovies(imdbId: string, details: string -> Exit<Movie>)
    requires details(imdbId).Success? && details(imdbId).value.torrents.Some?
    requires details(imdbId).value.torrents.value != []
    ensures ListAsWritten(ImdbMovieQuery(imdbId), details) == Success([])
    ensures List(ImdbMovieQuery(imdbId), details).Success?
    ensures |List(ImdbMovieQuery(imdbId), details).value| == |details(imdbId).value.torrents.value|
  {
  }

  /**
    * `list` as meant: the Imdb movie query is answered with the details'
    * streams (or the defect of a failed lookup), every other query with none.
    */
  function List(query: VideoQuery, details: string -> Exit<Movie>): (r: Exit<seq<SourceStream>>)
    ensures !query.ImdbMovieQuery? ==> r == Success([])
    ensures query.ImdbMovieQuery? ==> r == Answer(query.imdbId, details)
  {
    match query
    case ImdbMovieQuery(imdbId) => Answer(imdbId, details)
    case _ => Success([])
  }

  /** A failed details lookup fails the list of the movie it was for. */
  lemma FailedDetailsFailTheList(imdbId: string, details: string -> Exit<Movie>)
    requires details(imdbId).Failure?
    ensures List(ImdbMovieQuery(imdbId), details) == Failure(details(imdbId).cause)
  {
  }

  /**
    * In the pipeline a YTS stream passes the first filter exactly when its
    * label is not "480p": a movie query has no title matcher, and a YTS label is
    * never "N/A".
    */
  lemma ListedPassPreFilterUnless480p(query: VideoQuery, details: string -> Exit<Movie>)
    requires query.ImdbMovieQuery? && details(query.imdbId).Success? ==> WellFormed(details(query.imdbId).value)
    ensures List(query, details).Success? ==>
      forall s | s in List(query, details).value :: Sources.PreFilter(query, s) <==> s.quality != "480p"
  {
    if query.ImdbMovieQuery? && details(query.imdbId).Success? {
      var m := details(query.imdbId).value;
      forall s | s in Streams(m) ensures s.quality != "N/A" && !s.verified {
        var i :| 0 <= i < |Streams(m)| && Streams(m)[i] == s;
        assert m.torrents.value[i] in m.torrents.value;
      }
    }
  }
}
