/**
  * The EZTV provider (src/Sources/Eztv.ts): the torrents of a series are read
  * page by page, the torrents of the requested episode are kept, and each
  * becomes a stream.
  *
  * Fetching a page (an HTTP call behind a twelve-hour cache) is the parameter
  * `fetch`, from the `imdb_id` parameter and the page number to what the page
  * request ended with. The page sequence is an unfold with no bound of its
  * own; `fuel` bounds the number of pages read.
  */
module Eztv {
  import opened Wrappers
  import opened Strings
  import opened Utils
  import opened SourceStreams
  import opened Stremio
  import Seqs

  /** How long a page is cached. */
  const PageTimeToLive: Minutes := TwelveHours

  /** The page size the provider asks for. */
  const PageLimit: nat := 100

  /** The fields of an EZTV torrent the provider reads; season and episode are numbers parsed from strings. */
  datatype Torrent = Torrent(hash: string, magnetUrl: string, title: string,
                             season: int, episode: int, seeds: int, peers: int, sizeBytes: int)

  /** A decoded page: its torrents and the page size the answer reports. */
  datatype Page = Page(torrents: seq<Torrent>, limit: int)

  /** What a page request ends with: a page, an answer that does not decode, or another failure. */
  datatype PageFetch = Fetched(page: Page) | ParseError | RequestFailure(cause: string)

  /** The `imdb_id` parameter: the id with its first "tt" removed. */
  function ImdbParam(imdbId: string): (r: string)
    ensures StartsWith(imdbId, "tt") ==> r == imdbId[2..]
  {
    ReplaceFirst(imdbId, "tt", "")
  }

  /** The parameter of an id such as "tt0903747" is its number. */
  lemma ImdbParamExample()
    ensures ImdbParam("tt0903747") == "0903747"
  {
  }

  // ---------------------------------------------------------------------------
  // Paging

  /** Whether another page is asked for after this one, as written: when it holds fewer torrents than the limit. */
  predicate MoreAsWritten(p: Page) {
    |p.torrents| < p.limit
  }

  /** Whether another page is asked for, as meant: when this one is full. */
  predicate More(p: Page) {
    |p.torrents| >= p.limit
  }

  /**
    * The paged torrents from `page` on: each page's torrents in order, the next
    * page read when `more` says so; an answer that does not decode ends the
    * sequence with what was read, and any other failure fails the whole read.
    */
  function Collect(fetch: nat -> PageFetch, more: Page -> bool, page: nat, fuel: nat): (r: Exit<seq<Torrent>>)
    decreases fuel
  {
    if fuel == 0 then Success([])
    else
      match fetch(page)
      case ParseError => Success([])
      case RequestFailure(cause) => Failure(cause)
      case Fetched(p) =>
        if !more(p) then Success(p.torrents)
        else
          match Collect(fetch, more, page + 1, fuel - 1)
          case Failure(cause) => Failure(cause)
          case Success(rest) => Success(p.torrents + rest)
  }

  /** Page `page` is read and says to go on. */
  predicate GoesOn(fetch: nat -> PageFetch, more: Page -> bool, page: nat) {
    fetch(page).Fetched? && more(fetch(page).page)
  }

  /** The torrents of the `n` pages from `page` on, one after another. */
  function PagesFrom(fetch: nat -> PageFetch, page: nat, n: nat): seq<Torrent>
    decreases n
  {
    if n == 0 then []
    else (if fetch(page).Fetched? then fetch(page).page.torrents else []) + PagesFrom(fetch, page + 1, n - 1)
  }

  /**
    * When `n` pages are read and go on, and the page after them is read and
    * stops, the read yields the torrents of those `n + 1` pages in page order.
    */
  lemma {:induction false} CollectReadsUpToTheStop(fetch: nat -> PageFetch, more: Page -> bool, page: nat, n: nat, fuel: nat)
    requires n < fuel
    requires forall p | page <= p < page + n :: GoesOn(fetch, more, p)
    requires fetch(page + n).Fetched? && !more(fetch(page + n).page)
    ensures Collect(fetch, more, page, fuel) == Success(PagesFrom(fetch, page, n + 1))
    decreases n
  {
    if n == 0 {
      assert PagesFrom(fetch, page, 1) == fetch(page).page.torrents;
    } else {
      assert GoesOn(fetch, more, page);
      CollectReadsUpToTheStop(fetch, more, page + 1, n - 1, fuel - 1);
    }
  }

  /** When the page after `n` going-on pages does not decode, the read yields the torrents of those `n` pages. */
  lemma {:induction false} CollectEndsAtParseError(fetch: nat -> PageFetch, more: Page -> bool, page: nat, n: nat, fuel: nat)
    requires n < fuel
    requires forall p | page <= p < page + n :: GoesOn(fetch, more, p)
    requires fetch(page + n).ParseError?
    ensures Collect(fetch, more, page, fuel) == Success(PagesFrom(fetch, page, n))
    decreases n
  {
    if n > 0 {
      assert GoesOn(fetch, more, page);
      CollectEndsAtParseError(fetch, more, page + 1, n - 1, fuel - 1);
    }
  }

  /** A page request that fails for any reason but decoding, among the pages read, fails the whole read. */
  lemma {:induction false} CollectFailsOnRequestFailure(fetch: nat -> PageFetch, more: Page -> bool, page: nat, n: nat, fuel: nat)
    requires n < fuel
    requires forall p | page <= p < page + n :: GoesOn(fetch, more, p)
    requires fetch(page + n).RequestFailure?
    ensures Collect(fetch, more, page, fuel).Failure?
    decreases n
  {
    if n > 0 {
      assert GoesOn(fetch, more, page);
      CollectFailsOnRequestFailure(fetch, more, page + 1, n - 1, fuel - 1);
    }
  }

  /**
    * A series with two full pages of one torrent each: as written the read
    * stops after the first page and misses the second; as meant it reads both
    * and stops when the third does not decode.
    */
  lemma FullFirstPageHidesTheRest(t1: Torrent, t2: Torrent, fetch: nat -> PageFetch)
    requires fetch(1) == Fetched(Page([t1], 1)) && fetch(2) == Fetched(Page([t2], 1)) && fetch(3) == ParseError
    ensures Collect(fetch, MoreAsWritten, 1, 3) == Success([t1])
    ensures Collect(fetch, More, 1, 3) == Success([t1, t2])
  {
    CollectReadsUpToTheStop(fetch, MoreAsWritten, 1, 0, 3);
    CollectEndsAtParseError(fetch, More, 1, 2, 3);
    assert PagesFrom(fetch, 2, 1) == [t2] + PagesFrom(fetch, 3, 0);
    assert PagesFrom(fetch, 1, 2) == [t1] + PagesFrom(fetch, 2, 1);
    assert PagesFrom(fetch, 1, 2) == [t1, t2];
  }

  // ---------------------------------------------------------------------------
  // Streams

  /** `asStream`: an EZTV stream, its label classified from the torrent's title. The stream gets no title. */
  function AsStream(t: Torrent): (s: SourceStream)
    ensures s.SourceStream? && s.source == "EZTV" && s.title == ""
    ensures s.infoHash == t.hash && s.magnetUri == t.magnetUrl && s.quality == QualityFromTitle(t.title)
    ensures s.seeds == t.seeds && s.peers == t.peers && s.sizeBytes == Some(t.sizeBytes)
    ensures s.sizeDisplay.None? && s.url.None? && !s.verified
  {
    SourceStream("EZTV", "", t.hash, t.magnetUrl, QualityFromTitle(t.title), t.seeds, t.peers,
                 Some(t.sizeBytes), None, None, false)
  }

  /** The streams of the torrents of one episode, in torrent order. */
  function EpisodeStreams(ts: seq<Torrent>, season: nat, episode: nat): (r: seq<SourceStream>)
    ensures |r| <= |ts|
    ensures forall s | s in r :: exists t | t in ts :: t.season == season && t.episode == episode && s == AsStream(t)
    ensures forall t | t in ts && t.season == season && t.episode == episode :: AsStream(t) in r
  {
    if ts == [] then []
    else
      var rest := EpisodeStreams(ts[1..], season, episode);
      assert forall t | t in ts[1..] :: t in ts;
      assert forall t | t in ts :: t == ts[0] || t in ts[1..];
      if ts[0].season == season && ts[0].episode == episode then [AsStream(ts[0])] + rest else rest
  }

  /** The streams of two runs of torrents are those of the first run followed by those of the second. */
  lemma {:induction false} EpisodeStreamsConcat(ts: seq<Torrent>, us: seq<Torrent>, season: nat, episode: nat)
    ensures EpisodeStreams(ts + us, season, episode) == EpisodeStreams(ts, season, episode) + EpisodeStreams(us, season, episode)
  {
    if ts == [] {
      assert ts + us == us;
    } else {
      assert (ts + us)[1..] == ts[1..] + us;
      EpisodeStreamsConcat(ts[1..], us, season, episode);
    }
  }

  /** One torrent gives its stream exactly when it is of the episode. */
  lemma EpisodeStreamsSingleton(t: Torrent, season: nat, episode: nat)
    ensures EpisodeStreams([t], season, episode) == if t.season == season && t.episode == episode then [AsStream(t)] else []
  {
  }

  /**
    * `list` on a stream request: a series request reads the pages of its
    * series and keeps the torrents of its episode; any failure of the read,
    * and every other kind of request, gives no stream.
    */
  function List(request: StreamRequest, fetch: (string, nat) -> PageFetch, fuel: nat): (r: seq<SourceStream>)
    ensures !request.Series? ==> r == []
    ensures request.Series? ==>
      var read := Collect((page: nat) => fetch(ImdbParam(request.imdbId), page), More, 1, fuel);
      (read.Failure? ==> r == []) && (read.Success? ==> r == EpisodeStreams(read.value, request.season, request.episode))
  {
    match request
    case Series(imdbId, season, episode) =>
      (match Collect((page: nat) => fetch(ImdbParam(imdbId), page), More, 1, fuel)
       case Failure(_) => []
       case Success(ts) => EpisodeStreams(ts, season, episode))
    case _ => []
  }
}
