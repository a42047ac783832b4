/**
  * The aggregation pipeline (src/Sources.ts): the registry of sources and
  * embellishers, the queries a stream request is turned into, and
  * `listUncached`, which takes every result the sources yield for those
  * queries, expands season packs into file streams, filters them by quality
  * and title, lets the first embellisher rewrite them, filters again, drops
  * repeated info hashes, gathers them into quality buckets until there are
  * enough, and sorts what was gathered.
  *
  * The sources run concurrently and their results are merged as they arrive:
  * the fan-out says which results there are (or which stream died), the
  * arrivals are any reordering of them, and every property below holds for
  * every such order.
  */
module Sources {
  import opened Wrappers
  import opened Strings
  import opened Utils
  import opened SourceStreams
  import opened QualityGroups
  import opened VideoQueries
  import opened Stremio
  import Cinemeta
  import TorrentMeta
  import Seqs

  // ---------------------------------------------------------------------------
  // The registry

  /** A registered source, by identity. */
  type SourceId = string

  /** A registered embellisher, by identity. */
  type EmbellisherId = string

  predicate Distinct<T(==)>(xs: seq<T>) {
    forall i, j | 0 <= i < j < |xs| :: xs[i] != xs[j]
  }

  /** `Set.add`: a new element goes last, a present one leaves the set as it is. */
  function SetAdd<T(==,!new)>(xs: seq<T>, x: T): (r: seq<T>)
    ensures forall y :: y in r <==> y == x || y in xs
    ensures Distinct(xs) ==> Distinct(r)
    ensures |xs| <= |r| && r[..|xs|] == xs
  {
    if x in xs then xs else xs + [x]
  }

  /** `Set.delete`: the element is removed and the others keep their order. */
  function SetDelete<T(==,!new)>(xs: seq<T>, x: T): (r: seq<T>)
    ensures forall y :: y in r <==> y != x && y in xs
    ensures Distinct(xs) ==> Distinct(r)
    ensures |r| <= |xs|
  {
    if xs == [] then []
    else
      var init, last := xs[..|xs| - 1], xs[|xs| - 1];
      var rest := SetDelete(init, x);
      assert xs == init + [last];
      assert Distinct(xs) ==> last !in init by {
        if Distinct(xs) {
          forall k | 0 <= k < |init| ensures init[k] != last { assert init[k] == xs[k]; }
        }
      }
      if last == x then rest else rest + [last]
  }

  /** Deleting what was not there changes nothing. */
  lemma {:induction false} DeleteAbsent<T(!new)>(xs: seq<T>, x: T)
    requires x !in xs
    ensures SetDelete(xs, x) == xs
  {
    if xs != [] {
      DeleteAbsent(xs[..|xs| - 1], x);
      assert xs == xs[..|xs| - 1] + [xs[|xs| - 1]];
    }
  }

  /** Releasing a registration undoes it: the set is what it was before. */
  lemma DeleteUndoesAdd<T(!new)>(xs: seq<T>, x: T)
    requires x !in xs
    ensures SetDelete(SetAdd(xs, x), x) == xs
  {
    var ys := xs + [x];
    assert ys[..|ys| - 1] == xs;
    DeleteAbsent(xs, x);
  }

  /** How a registered embellisher rewrites a candidate, for the request's base URL. */
  type Transformer = SourceStream -> seq<SourceStream>

  /** The embellisher the pipeline uses: the first one registered, if any. */
  function FirstEmbellisher(embellishers: seq<EmbellisherId>, transforms: EmbellisherId -> Transformer): (r: Option<Transformer>)
    ensures r.None? <==> embellishers == []
  {
    if embellishers == [] then None else Some(transforms(embellishers[0]))
  }

  // ---------------------------------------------------------------------------
  // Queries for a request

  /**
    * The Cinemeta lookups the queries are derived from, and the season
    * variants. Both lookups declare no failure: a Failure here is a defect.
    */
  datatype Lookups = Lookups(movie: string -> Exit<Cinemeta.MovieMeta>,
                             episode: (string, nat, nat) -> Exit<Cinemeta.EpisodeResult>,
                             variants: Cinemeta.SeasonVariants)

  /**
    * `queriesFromRequest`: the id-based query (two for a series) merged with
    * the queries derived from the Cinemeta lookup. A failed lookup is a defect,
    * which `orElseSucceed` does not catch, so the query stream dies with it.
    */
  function QueriesFromRequest(request: StreamRequest, lookups: Lookups): (r: Exit<seq<VideoQuery>>)
    ensures request.Channel? ==> r == Success([ChannelQuery(request.id)])
    ensures request.Tv? ==> r == Success([ImdbTvQuery(request.imdbId)])
    ensures request.Movie? ==>
      match lookups.movie(request.imdbId)
      case Failure(cause) => r == Failure(cause)
      case Success(meta) => r == Success([ImdbMovieQuery(request.imdbId), MovieQuery(meta.name)])
    ensures request.Series? ==>
      var s, e := request.season, request.episode;
      match lookups.episode(request.imdbId, s, e)
      case Failure(cause) => r == Failure(cause)
      case Success(result) =>
        r.Success? && |r.value| >= 2
        && r.value[0] == ImdbSeriesQuery(request.imdbId, s, e) && r.value[1] == ImdbSeasonQuery(request.imdbId, s, e)
        && r.value[2..] == Cinemeta.EpisodeQueries(result, lookups.variants)
  {
    match request
    case Channel(id) => Success([ChannelQuery(id)])
    case Movie(imdbId) =>
      (match lookups.movie(imdbId)
       case Failure(cause) => Failure(cause)
       case Success(meta) =>
         var derived := Cinemeta.MovieQueries(meta);
         assert [ImdbMovieQuery(imdbId)] + derived == [ImdbMovieQuery(imdbId), MovieQuery(meta.name)];
         Success([ImdbMovieQuery(imdbId)] + derived))
    case Series(imdbId, season, episode) =>
      (match lookups.episode(imdbId, season, episode)
       case Failure(cause) => Failure(cause)
       case Success(result) =>
         Success([ImdbSeriesQuery(imdbId, season, episode), ImdbSeasonQuery(imdbId, season, episode)]
                 + Cinemeta.EpisodeQueries(result, lookups.variants)))
    case Tv(imdbId) => Success([ImdbTvQuery(imdbId)])
  }

  /**
    * A series request always asks for the episode by name once Cinemeta knows
    * the series (the lookup's result carries the requested season and episode).
    */
  lemma SeriesRequestAsksForEpisodeByName(imdbId: string, season: nat, episode: nat, lookups: Lookups)
    requires lookups.episode(imdbId, season, episode).Success?
    ensures var result := lookups.episode(imdbId, season, episode).value;
      var r := QueriesFromRequest(Series(imdbId, season, episode), lookups);
      r.Success? && SeriesQuery(result.series.name, result.season, result.episode) in r.value
  {
    var result := lookups.episode(imdbId, season, episode).value;
    var r := QueriesFromRequest(Series(imdbId, season, episode), lookups).value;
    Cinemeta.EpisodeQueryAlwaysListed(result, lookups.variants);
    var k := |Cinemeta.AbsoluteQueries(result).GetOr([])|;
    assert r[2..] == Cinemeta.EpisodeQueries(result, lookups.variants);
    assert r[2 + k] == r[2..][k];
    assert r[2 + k] in r;
  }

  // ---------------------------------------------------------------------------
  // The stages of listUncached

  /** One result a source yielded, with the query it answered and the source that yielded it. */
  datatype Arrival = Arrival(query: VideoQuery, source: SourceId, result: SourceResult)

  /** What the pipeline uses besides the arrivals: the torrent-manifest lookup and the embellisher. */
  datatype Env = Env(fromHash: string -> Exit<TorrentMeta.TorrentMetadata>, embellisher: Option<Transformer>)

  /**
    * `streamsFromSeason`: the file streams of the torrent the magnet link names,
    * carrying the season's source, seeds and peers; none when the manifest
    * cannot be had.
    */
  function StreamsFromSeason(magnetUri: string, options: TorrentMeta.StreamOptions,
                             fromHash: string -> Exit<TorrentMeta.TorrentMetadata>): (r: seq<SourceStream>)
    ensures TorrentMeta.FromMagnet(magnetUri, fromHash).Failure? ==> r == []
    ensures TorrentMeta.FromMagnet(magnetUri, fromHash).Success? ==>
      r == TorrentMeta.Streams(TorrentMeta.FromMagnet(magnetUri, fromHash).value, options)
    ensures forall s | s in r ::
      (s.SourceStreamWithFile? && s.source == options.source
       && s.seeds == options.seeds && s.peers == options.peers)
  {
    match TorrentMeta.FromMagnet(magnetUri, fromHash)
    case Failure(_) => []
    case Success(meta) => TorrentMeta.Streams(meta, options)
  }

  /**
    * A result as candidates: a result whose `_tag` is "SourceStream" is its own
    * candidate, and a season pack is expanded from its torrent's manifest. A
    * stream naming a file carries that tag too and is kept as it is.
    */
  function Expand(result: SourceResult, fromHash: string -> Exit<TorrentMeta.TorrentMetadata>): (r: seq<SourceStream>)
    ensures result.Stream? ==> r == [result.stream]
    ensures result.Season? ==> r == StreamsFromSeason(result.season.magnetUri,
      TorrentMeta.StreamOptions(result.season.source, result.season.seeds, result.season.peers), fromHash)
  {
    if result.Tag() == "SourceStream" then [result.stream]
    else StreamsFromSeason(result.season.magnetUri,
      TorrentMeta.StreamOptions(result.season.source, result.season.seeds, result.season.peers), fromHash)
  }

  /**
    * The first filter: "480p" and unclassified candidates go, verified ones
    * stay, and the rest stay when the title matcher of the query (narrowed to
    * an episode query for a season query) accepts their title.
    */
  predicate PreFilter(query: VideoQuery, s: SourceStream) {
    if s.quality == "480p" || s.quality == "N/A" then false
    else if s.verified then true
    else NonSeasonQuery(query).AcceptsTitle(s.title)
  }

  /**
    * The embellish step: without an embellisher the candidates whose `_tag` is
    * "SourceStream" go on, which is every candidate, the file streams of a
    * season pack included; with one, its output does.
    */
  function Embellish(s: SourceStream, embellisher: Option<Transformer>): (r: seq<SourceStream>)
    ensures embellisher.None? ==> r == [s]
    ensures embellisher.Some? ==> r == embellisher.value(s)
  {
    match embellisher
    case None => if s.Tag() == "SourceStream" then [s] else []
    case Some(transform) => transform(s)
  }

  /** The second filter, on the embellished result: verified, or accepted by the title matcher. Quality is not checked again. */
  predicate PostFilter(query: VideoQuery, s: SourceStream) {
    s.verified || NonSeasonQuery(query).AcceptsTitle(s.title)
  }

  /** The embellish stage over a list: each candidate's output, in candidate order. */
  function EmbellishAll(candidates: seq<SourceStream>, embellisher: Option<Transformer>): (r: seq<SourceStream>)
    ensures embellisher.None? ==> r == candidates
    ensures embellisher.Some? ==> forall s | s in r :: exists c | c in candidates :: s in embellisher.value(c)
  {
    if candidates == [] then []
    else
      var rest := EmbellishAll(candidates[1..], embellisher);
      assert forall c | c in candidates[1..] :: c in candidates;
      Embellish(candidates[0], embellisher) + rest
  }

  /** What one arrival contributes, in order: expanded, filtered, embellished, filtered again. */
  function ArrivalResults(a: Arrival, env: Env): (r: seq<SourceStream>)
    ensures forall s | s in r :: PostFilter(a.query, s)
    ensures env.embellisher.None? ==>
      r == Seqs.Filter(Seqs.Filter(Expand(a.result, env.fromHash), (s: SourceStream) => PreFilter(a.query, s)),
                       (s: SourceStream) => PostFilter(a.query, s))
    ensures env.embellisher.None? ==> forall s | s in r :: s in Expand(a.result, env.fromHash) && PreFilter(a.query, s)
    ensures env.embellisher.None? ==> forall s | s in r :: s.quality != "480p" && s.quality != "N/A"
  {
    var candidates := Seqs.Filter(Expand(a.result, env.fromHash), (s: SourceStream) => PreFilter(a.query, s));
    var embellished := EmbellishAll(candidates, env.embellisher);
    Seqs.Filter(embellished, (s: SourceStream) => PostFilter(a.query, s))
  }

  /** Every result of every arrival, in arrival order. */
  function Results(arrivals: seq<Arrival>, env: Env): (r: seq<SourceStream>)
    ensures forall s | s in r :: exists a | a in arrivals :: s in ArrivalResults(a, env)
  {
    if arrivals == [] then []
    else
      var init := arrivals[..|arrivals| - 1];
      var last := arrivals[|arrivals| - 1];
      assert forall a | a in init :: a in arrivals;
      Results(init, env) + ArrivalResults(last, env)
  }

  // ---------------------------------------------------------------------------
  // Dropping repeated hashes

  /** The dedup key: the lower-cased info hash. */
  function Key(s: SourceStream): string {
    ToLower(s.infoHash)
  }

  /** The keys of a list of streams. */
  function Keys(xs: seq<SourceStream>): set<string> {
    set s | s in xs :: Key(s)
  }

  /** No two streams of the list share a key. */
  predicate DistinctHashes(xs: seq<SourceStream>) {
    forall i, j | 0 <= i < j < |xs| :: Key(xs[i]) != Key(xs[j])
  }

  /**
    * The dedup step with its one set threaded through the whole run: a stream
    * goes on when its key has not been seen before, and its key is recorded.
    */
  function Dedup(xs: seq<SourceStream>): seq<SourceStream> {
    if xs == [] then []
    else
      var init, x := xs[..|xs| - 1], xs[|xs| - 1];
      if Key(x) in Keys(init) then Dedup(init) else Dedup(init) + [x]
  }

  /** What goes on has distinct keys, comes from the input, and covers every key of the input. */
  lemma {:induction false} DedupProperties(xs: seq<SourceStream>)
    ensures DistinctHashes(Dedup(xs))
    ensures forall s | s in Dedup(xs) :: s in xs
    ensures Keys(Dedup(xs)) == Keys(xs)
  {
    if xs != [] {
      var init, x := xs[..|xs| - 1], xs[|xs| - 1];
      DedupProperties(init);
      var d := Dedup(init);
      assert xs == init + [x];
      assert Keys(xs) == Keys(init) + {Key(x)};
      if Key(x) !in Keys(init) {
        assert forall s | s in d :: Key(s) != Key(x);
        assert Keys(d + [x]) == Keys(d) + {Key(x)};
      }
    }
  }

  /** The position of the first stream with a key. */
  predicate FirstWithKey(xs: seq<SourceStream>, j: int) {
    0 <= j < |xs| && forall k | 0 <= k < j :: Key(xs[k]) != Key(xs[j])
  }

  /** Dedup of a run one stream longer: the stream goes on exactly when its key is new. */
  lemma DedupSnoc(xs: seq<SourceStream>, x: SourceStream)
    ensures Key(x) in Keys(xs) ==> Dedup(xs + [x]) == Dedup(xs)
    ensures Key(x) !in Keys(xs) ==> Dedup(xs + [x]) == Dedup(xs) + [x]
    ensures Keys(xs + [x]) == Keys(xs) + {Key(x)}
  {
    var n := xs + [x];
    assert n[..|n| - 1] == xs && n[|n| - 1] == x;
  }

  /** The first position with a key stays the first when the run grows. */
  lemma FirstWithKeyExtends(xs: seq<SourceStream>, x: SourceStream, j: int)
    requires FirstWithKey(xs, j)
    ensures FirstWithKey(xs + [x], j) && (xs + [x])[j] == xs[j]
  {
    var n := xs + [x];
    forall k | 0 <= k < j ensures Key(n[k]) != Key(n[j]) {
      assert n[k] == xs[k] && n[j] == xs[j];
    }
  }

  /** Each stream of `ys` is the first stream of `xs` with its key. */
  predicate AreFirstArrivals(xs: seq<SourceStream>, ys: seq<SourceStream>) {
    forall i | 0 <= i < |ys| :: exists j | 0 <= j < |xs| && FirstWithKey(xs, j) :: xs[j] == ys[i]
  }

  /** Each stream that goes on is the first arrival with its key; later ones are dropped. */
  lemma {:induction false} DedupKeepsFirstArrivals(xs: seq<SourceStream>)
    ensures AreFirstArrivals(xs, Dedup(xs))
  {
    if xs != [] {
      var init, x := xs[..|xs| - 1], xs[|xs| - 1];
      assert xs == init + [x];
      DedupKeepsFirstArrivals(init);
      DedupSnoc(init, x);
      var d := Dedup(init);
      forall i | 0 <= i < |d| ensures exists j | FirstWithKey(xs, j) :: xs[j] == d[i] {
        var j :| FirstWithKey(init, j) && init[j] == d[i];
        FirstWithKeyExtends(init, x, j);
      }
      if Key(x) !in Keys(init) {
        var n := |xs| - 1;
        forall k | 0 <= k < n ensures Key(xs[k]) != Key(xs[n]) {
          assert xs[k] == init[k] && init[k] in init;
        }
        assert FirstWithKey(xs, n);
        var r := d + [x];
        forall i | 0 <= i < |r| ensures exists j | FirstWithKey(xs, j) :: xs[j] == r[i] {
          if i < |d| {
            assert r[i] == d[i];
          } else {
            assert r[i] == xs[n];
          }
        }
      }
    }
  }

  /** Inserting a stream whose key is new keeps the keys distinct. */
  lemma InsertKeepsDistinct(ys: seq<SourceStream>, p: nat, x: SourceStream)
    requires p <= |ys| && DistinctHashes(ys) && Key(x) !in Keys(ys)
    ensures DistinctHashes(ys[..p] + [x] + ys[p..])
  {
    var r := ys[..p] + [x] + ys[p..];
    forall i, j | 0 <= i < j < |r| ensures Key(r[i]) != Key(r[j]) {
      if i == p {
        assert r[j] == ys[j - 1] && ys[j - 1] in ys;
      } else if j == p {
        assert r[i] == ys[i] && ys[i] in ys;
      } else {
        var i', j' := if i < p then i else i - 1, if j < p then j else j - 1;
        assert r[i] == ys[i'] && r[j] == ys[j'];
      }
    }
  }

  // ---------------------------------------------------------------------------
  // Gathering into quality buckets

  /** One step of the scan with its stop: a group that has enough stays as it is, any other takes the stream. */
  function Step(g: Group, y: SourceStream): (r: Group)
    requires Valid(g) && HasPresets(g) && Bounded(g) && |Flatten(g)| <= EnoughTotal
    ensures Valid(r) && HasPresets(r) && Bounded(r) && |Flatten(r)| <= EnoughTotal
    ensures HasEnough(g) ==> r == g
    ensures !HasEnough(g) ==> r == Add(g, y)
  {
    if HasEnough(g) then g
    else
      AddPreserves(g, y);
      Add(g, y)
  }

  /**
    * The scan with its stop: from the empty group, each stream is added in
    * turn, and once the group has enough the rest are not looked at.
    */
  function Fold(ys: seq<SourceStream>): (g: Group)
    ensures Valid(g) && HasPresets(g) && Bounded(g)
    ensures |Flatten(g)| <= EnoughTotal
  {
    if ys == [] then Empty() else Step(Fold(ys[..|ys| - 1]), ys[|ys| - 1])
  }

  lemma FoldLast(ys: seq<SourceStream>)
    requires ys != []
    ensures Fold(ys) == Step(Fold(ys[..|ys| - 1]), ys[|ys| - 1])
  {
  }

  /** The scan over a run one stream longer takes one more step. */
  lemma FoldSnoc(ys: seq<SourceStream>, y: SourceStream)
    ensures Fold(ys + [y]) == Step(Fold(ys), y)
  {
    var n := ys + [y];
    assert n[..|n| - 1] == ys && n[|n| - 1] == y;
    FoldLast(n);
  }

  /** Once the group has enough, later streams change nothing. */
  lemma {:induction false} FoldStops(ys: seq<SourceStream>, zs: seq<SourceStream>)
    requires HasEnough(Fold(ys))
    ensures Fold(ys + zs) == Fold(ys)
    decreases |zs|
  {
    if zs == [] {
      assert ys + zs == ys;
    } else {
      var zs' := zs[..|zs| - 1];
      var n := ys + zs;
      assert n[..|n| - 1] == ys + zs';
      FoldStops(ys, zs');
      FoldLast(n);
    }
  }

  /** One step takes in at most the new stream, and keeps keys distinct when its key is new. */
  lemma StepContents(g: Group, y: SourceStream)
    requires Valid(g) && HasPresets(g) && Bounded(g) && |Flatten(g)| <= EnoughTotal
    requires DistinctHashes(Flatten(g)) && Key(y) !in Keys(Flatten(g))
    ensures DistinctHashes(Flatten(Step(g, y)))
    ensures forall s | s in Flatten(Step(g, y)) :: s in Flatten(g) || s == y
  {
    if !HasEnough(g) && Accepts(g, y) {
      var p := AddInserts(g, y);
      InsertKeepsDistinct(Flatten(g), p, y);
    }
  }

  /** The gathered streams come from the input, and distinct keys stay distinct. */
  lemma {:induction false} FoldContents(ys: seq<SourceStream>)
    requires DistinctHashes(ys)
    ensures DistinctHashes(Flatten(Fold(ys)))
    ensures forall s | s in Flatten(Fold(ys)) :: s in ys
  {
    if ys != [] {
      var init, y := ys[..|ys| - 1], ys[|ys| - 1];
      assert DistinctHashes(init);
      FoldContents(init);
      var prev := Fold(init);
      var f := Flatten(prev);
      assert Key(y) !in Keys(f) by {
        forall s | s in f ensures Key(s) != Key(y) {
          var k :| 0 <= k < |init| && init[k] == s;
          assert ys[k] == s;
        }
      }
      StepContents(prev, y);
      FoldLast(ys);
      forall s | s in Flatten(Fold(ys)) ensures s in ys {
        if s != y {
          assert s in init;
        }
      }
    }
  }

  // ---------------------------------------------------------------------------
  // The final sort

  /** The list is in stream order. */
  predicate Sorted(xs: seq<SourceStream>) {
    forall i, j | 0 <= i < j < |xs| :: Le(xs[i], xs[j])
  }

  /** Where a stable insertion puts `x`: after every stream that ranks strictly before it. */
  function InsertionPoint(x: SourceStream, ys: seq<SourceStream>): (p: nat)
    ensures p <= |ys|
    ensures forall i | 0 <= i < p :: Compare(ys[i], x) < 0
    ensures p < |ys| ==> Compare(ys[p], x) >= 0
  {
    if ys == [] || Compare(ys[0], x) >= 0 then 0
    else 1 + InsertionPoint(x, ys[1..])
  }

  lemma InsertKeepsSorted(x: SourceStream, ys: seq<SourceStream>)
    requires Sorted(ys)
    ensures Sorted(Seqs.InsertAt(ys, InsertionPoint(x, ys), x))
  {
    var p := InsertionPoint(x, ys);
    var r := Seqs.InsertAt(ys, p, x);
    forall i, j | 0 <= i < j < |r| ensures Le(r[i], r[j]) {
      if j < p {
        assert r[i] == ys[i] && r[j] == ys[j];
      } else if j == p {
        assert r[i] == ys[i] && Compare(ys[i], x) < 0;
      } else if i == p {
        assert r[j] == ys[j - 1];
        CompareIsTotalPreorder(ys[p], x, x);
        if p < j - 1 {
          assert Le(ys[p], ys[j - 1]);
          CompareIsTotalPreorder(x, ys[p], ys[j - 1]);
        }
      } else if i < p {
        assert r[i] == ys[i] && r[j] == ys[j - 1];
      } else {
        assert r[i] == ys[i - 1] && r[j] == ys[j - 1];
      }
    }
  }

  /**
    * `Array.sort(SourceStream.Order)`: a stable sort, written as insertion
    * sort; the result is the input reordered into stream order.
    */
  function Sort(xs: seq<SourceStream>): (r: seq<SourceStream>)
    ensures multiset(r) == multiset(xs)
    ensures Sorted(r)
  {
    if xs == [] then []
    else
      var rest := Sort(xs[1..]);
      InsertKeepsSorted(xs[0], rest);
      assert xs == [xs[0]] + xs[1..];
      Seqs.InsertAt(rest, InsertionPoint(xs[0], rest), xs[0])
  }

  /** The test "ranks equal to `x`". */
  function SameRankAs(x: SourceStream): SourceStream -> bool {
    (y: SourceStream) => Compare(y, x) == 0
  }

  /** The streams of a list that rank equal to `x`, in list order. */
  function RankedWith(xs: seq<SourceStream>, x: SourceStream): seq<SourceStream> {
    Seqs.Filter(xs, SameRankAs(x))
  }

  /** Inserting at the stable insertion point puts the stream first among those ranking equal to it. */
  lemma {:induction false} RankedWithInsert(ys: seq<SourceStream>, z: SourceStream, x: SourceStream)
    ensures var r := Seqs.InsertAt(ys, InsertionPoint(z, ys), z);
      RankedWith(r, x) == if Compare(z, x) == 0 then [z] + RankedWith(ys, x) else RankedWith(ys, x)
  {
    var r := Seqs.InsertAt(ys, InsertionPoint(z, ys), z);
    if ys == [] || Compare(ys[0], z) >= 0 {
      assert r[1..] == ys by {
        assert ys[..0] == [] && ys[0..] == ys;
      }
    } else {
      var tail := Seqs.InsertAt(ys[1..], InsertionPoint(z, ys[1..]), z);
      RankedWithInsert(ys[1..], z, x);
      assert r[0] == ys[0] && r[1..] == tail by {
        Seqs.InsertAtCons(ys, InsertionPoint(z, ys), z);
      }
      assert Compare(z, x) == 0 ==> Compare(ys[0], x) != 0;
    }
  }

  /**
    * The sort is stable: the streams that rank equal to any given stream keep
    * the order they had in the input.
    */
  lemma {:induction false} SortIsStable(xs: seq<SourceStream>, x: SourceStream)
    ensures RankedWith(Sort(xs), x) == RankedWith(xs, x)
  {
    if xs != [] {
      var eq := SameRankAs(x);
      SortIsStable(xs[1..], x);
      RankedWithInsert(Sort(xs[1..]), xs[0], x);
      assert xs == [xs[0]] + xs[1..];
      Seqs.FilterConcat([xs[0]], xs[1..], eq);
      Seqs.FilterSingleton(xs[0], eq);
    }
  }

  /** Sorting keeps keys distinct. */
  lemma {:induction false} SortKeepsDistinct(xs: seq<SourceStream>)
    requires DistinctHashes(xs)
    ensures DistinctHashes(Sort(xs))
  {
    if xs != [] {
      var rest := Sort(xs[1..]);
      assert DistinctHashes(xs[1..]);
      SortKeepsDistinct(xs[1..]);
      assert Key(xs[0]) !in Keys(rest) by {
        forall s | s in rest ensures Key(s) != Key(xs[0]) {
          assert s in multiset(rest);
          assert s in multiset(xs[1..]);
          var k :| 0 <= k < |xs[1..]| && xs[1..][k] == s;
          assert xs[k + 1] == s;
        }
      }
      InsertKeepsDistinct(rest, InsertionPoint(xs[0], rest), xs[0]);
    }
  }

  // ---------------------------------------------------------------------------
  // listUncached

  /** The gathered group for a run. */
  function Gathered(arrivals: seq<Arrival>, env: Env): (g: Group)
    ensures Valid(g) && HasPresets(g) && Bounded(g)
  {
    Fold(Dedup(Results(arrivals, env)))
  }

  /** What `listUncached` answers: the gathered streams, bucket by bucket, sorted. */
  function List(arrivals: seq<Arrival>, env: Env): (r: seq<SourceStream>)
    ensures multiset(r) == multiset(Flatten(Gathered(arrivals, env)))
    ensures Sorted(r)
  {
    Sort(Flatten(Gathered(arrivals, env)))
  }

  /** The answer is sorted, holds at most twelve streams and never two with the same hash. */
  lemma ListProperties(arrivals: seq<Arrival>, env: Env)
    ensures var r := List(arrivals, env);
      Sorted(r) && |r| <= EnoughTotal && DistinctHashes(r)
  {
    var r := List(arrivals, env);
    var f := Flatten(Gathered(arrivals, env));
    assert |r| == |multiset(r)| == |multiset(f)| == |f|;
    DedupProperties(Results(arrivals, env));
    FoldContents(Dedup(Results(arrivals, env)));
    SortKeepsDistinct(f);
  }

  /** Every stream of the answer went through the dedup step. */
  lemma ListComesFromDedup(arrivals: seq<Arrival>, env: Env)
    ensures forall s | s in List(arrivals, env) :: s in Dedup(Results(arrivals, env))
  {
    var d := Dedup(Results(arrivals, env));
    DedupProperties(Results(arrivals, env));
    FoldContents(d);
    forall s | s in List(arrivals, env) ensures s in d {
      assert s in multiset(List(arrivals, env));
    }
  }

  /**
    * Every stream of the answer is a result of some arrival, and is the first
    * result with its hash: a later result with the same hash never shows.
    */
  lemma ListStreamsAreFirstArrivals(arrivals: seq<Arrival>, env: Env)
    ensures AreFirstArrivals(Results(arrivals, env), List(arrivals, env))
  {
    var xs := Results(arrivals, env);
    var d := Dedup(xs);
    var r := List(arrivals, env);
    ListComesFromDedup(arrivals, env);
    DedupKeepsFirstArrivals(xs);
    forall i | 0 <= i < |r| ensures exists j | 0 <= j < |xs| && FirstWithKey(xs, j) :: xs[j] == r[i] {
      assert r[i] in r;
      var k :| 0 <= k < |d| && d[k] == r[i];
    }
  }

  /** Without an embellisher every stream of the answer is of a known quality above 480p and passed the first filter. */
  lemma WithoutEmbellisherKnownQualities(arrivals: seq<Arrival>, env: Env)
    requires env.embellisher.None?
    ensures forall s | s in List(arrivals, env) ::
      s.quality != "480p" && s.quality != "N/A"
      && exists a | a in arrivals :: s in Expand(a.result, env.fromHash) && PreFilter(a.query, s)
  {
    var xs := Results(arrivals, env);
    DedupProperties(xs);
    FoldContents(Dedup(xs));
    forall s | s in List(arrivals, env)
      ensures s.quality != "480p" && s.quality != "N/A"
      ensures exists a | a in arrivals :: s in Expand(a.result, env.fromHash) && PreFilter(a.query, s)
    {
      assert s in multiset(List(arrivals, env));
      assert s in Flatten(Gathered(arrivals, env));
      var a :| a in arrivals && s in ArrivalResults(a, env);
    }
  }

  /**
    * Without an embellisher every candidate that passes the first filter, a
    * file stream of a season pack included, is among what its arrival
    * contributes: the second filter accepts whatever the first one did.
    */
  lemma WithoutEmbellisherCandidatesGoOn(a: Arrival, env: Env, x: SourceStream)
    requires env.embellisher.None?
    requires x in Expand(a.result, env.fromHash) && PreFilter(a.query, x)
    ensures x in ArrivalResults(a, env)
  {
    var candidates := Seqs.Filter(Expand(a.result, env.fromHash), (s: SourceStream) => PreFilter(a.query, s));
    assert x in candidates;
    assert PostFilter(a.query, x);
  }

  // ---------------------------------------------------------------------------
  // Running every query against every source

  /**
    * What a registered source's `list` yields for a query: its results in
    * order, or the cause its stream died with. A provider that catches its
    * own failures yields Success; only what it lets through is a Failure.
    */
  type Lister = (SourceId, VideoQuery) -> Exit<seq<SourceResult>>

  /** One stream of the fan-out: a query and the source it is run against. */
  datatype Job = Job(query: VideoQuery, source: SourceId)

  /** One query paired with every registered source, in registration order. */
  function JobsFor(query: VideoQuery, sources: seq<SourceId>): (r: seq<Job>)
    ensures |r| == |sources|
    ensures forall j | j in r :: j.query == query && j.source in sources
    ensures forall src | src in sources :: Job(query, src) in r
  {
    if sources == [] then []
    else [Job(query, sources[0])] + JobsFor(query, sources[1..])
  }

  /** Every query paired with every registered source. */
  function Jobs(queries: seq<VideoQuery>, sources: seq<SourceId>): (r: seq<Job>)
    ensures |r| == |queries| * |sources|
    ensures forall j | j in r :: j.query in queries && j.source in sources
    ensures forall q, src | q in queries && src in sources :: Job(q, src) in r
  {
    if queries == [] then []
    else
      var first := JobsFor(queries[0], sources);
      var rest := Jobs(queries[1..], sources);
      assert |queries| * |sources| == |sources| + (|queries| - 1) * |sources|;
      assert forall q | q in queries[1..] :: q in queries;
      assert forall q | q in queries :: q == queries[0] || q in queries[1..];
      first + rest
  }

  /** The arrivals of one job's results, in the order the source yields them. */
  function JobArrivals(job: Job, results: seq<SourceResult>): (r: seq<Arrival>)
    ensures |r| == |results|
    ensures forall a | a in r :: a.query == job.query && a.source == job.source && a.result in results
  {
    seq(|results|, i requires 0 <= i < |results| => Arrival(job.query, job.source, results[i]))
  }

  /**
    * The results of every job, job by job: a job whose source died fails the
    * run (with the first such job's cause).
    */
  function Run(jobs: seq<Job>, list: Lister): (r: Exit<seq<Arrival>>)
    ensures r.Failure? <==> exists j | j in jobs :: list(j.source, j.query).Failure?
    ensures r.Success? ==> forall a | a in r.value ::
      Job(a.query, a.source) in jobs && list(a.source, a.query).Success? && a.result in list(a.source, a.query).value
  {
    if jobs == [] then Success([])
    else
      var job := jobs[0];
      assert forall j | j in jobs[1..] :: j in jobs;
      assert forall j | j in jobs :: j == job || j in jobs[1..];
      match list(job.source, job.query)
      case Failure(cause) => Failure(cause)
      case Success(results) =>
        match Run(jobs[1..], list)
        case Failure(cause) => Failure(cause)
        case Success(rest) => Success(JobArrivals(job, results) + rest)
  }

  /**
    * The fan-out of `listUncached`: the queries of the request, each run
    * against every registered source. The query stream dying, or any
    * (query, source) stream dying, fails it.
    */
  function FanOut(queries: Exit<seq<VideoQuery>>, sources: seq<SourceId>, list: Lister): (r: Exit<seq<Arrival>>)
    ensures queries.Failure? ==> r == Failure(queries.cause)
    ensures queries.Success? ==>
      (r.Failure? <==> exists q, src | q in queries.value && src in sources :: list(src, q).Failure?)
    ensures queries.Success? && r.Success? ==> forall a | a in r.value ::
      a.query in queries.value && a.source in sources
      && list(a.source, a.query).Success? && a.result in list(a.source, a.query).value
  {
    match queries
    case Failure(cause) => Failure(cause)
    case Success(qs) =>
      var jobs := Jobs(qs, sources);
      var r := Run(jobs, list);
      assert r.Failure? ==> exists q, src | q in qs && src in sources :: list(src, q).Failure? by {
        if r.Failure? {
          var j :| j in jobs && list(j.source, j.query).Failure?;
          assert j.query in qs && j.source in sources;
        }
      }
      assert (exists q, src | q in qs && src in sources :: list(src, q).Failure?) ==> r.Failure? by {
        if exists q, src | q in qs && src in sources :: list(src, q).Failure? {
          var q, src :| q in qs && src in sources && list(src, q).Failure?;
          assert Job(q, src) in jobs;
        }
      }
      r
  }

  /**
    * The order the merged streams deliver the fan-out in: any reordering of
    * it. The sources run concurrently and nothing fixes which result comes
    * first.
    */
  predicate IsArrivalOrder(fanOut: Exit<seq<Arrival>>, arrivals: seq<Arrival>) {
    fanOut.Success? ==> multiset(arrivals) == multiset(fanOut.value)
  }

  /**
    * `listUncached` on its outcome: when the fan-out dies the request fails
    * with its cause; otherwise the answer is the list over the arrivals.
    */
  function Listing(fanOut: Exit<seq<Arrival>>, arrivals: seq<Arrival>, env: Env): (r: Exit<seq<SourceStream>>)
    requires IsArrivalOrder(fanOut, arrivals)
    ensures fanOut.Failure? ==> r == Failure(fanOut.cause)
    ensures fanOut.Success? ==> r == Success(List(arrivals, env))
  {
    match fanOut
    case Failure(cause) => Failure(cause)
    case Success(_) => Success(List(arrivals, env))
  }

  /**
    * Every stream of an answer comes from a registered source's answer to one
    * of the request's queries, as that result was expanded, filtered and
    * embellished.
    */
  lemma ListedStreamsComeFromRegisteredSources(queries: Exit<seq<VideoQuery>>, sources: seq<SourceId>, list: Lister,
                                               arrivals: seq<Arrival>, env: Env)
    requires IsArrivalOrder(FanOut(queries, sources, list), arrivals)
    requires Listing(FanOut(queries, sources, list), arrivals, env).Success?
    ensures forall s | s in Listing(FanOut(queries, sources, list), arrivals, env).value ::
      exists a | a in arrivals ::
        a.query in queries.value && a.source in sources && list(a.source, a.query).Success?
        && a.result in list(a.source, a.query).value && s in ArrivalResults(a, env)
  {
    var fanOut := FanOut(queries, sources, list);
    var r := Listing(fanOut, arrivals, env).value;
    var xs := Results(arrivals, env);
    DedupProperties(xs);
    FoldContents(Dedup(xs));
    forall s | s in r
      ensures exists a | a in arrivals ::
        a.query in queries.value && a.source in sources && list(a.source, a.query).Success?
        && a.result in list(a.source, a.query).value && s in ArrivalResults(a, env)
    {
      assert s in multiset(List(arrivals, env));
      assert s in Flatten(Gathered(arrivals, env));
      var a :| a in arrivals && s in ArrivalResults(a, env);
      assert a in multiset(arrivals);
      assert a in fanOut.value;
    }
  }

  /**
    * With no source registered nothing arrives: the answer is empty, unless
    * the query stream itself dies.
    */
  lemma NothingRegisteredNothingListed(queries: Exit<seq<VideoQuery>>, list: Lister, arrivals: seq<Arrival>, env: Env)
    requires IsArrivalOrder(FanOut(queries, [], list), arrivals)
    ensures queries.Success? ==> Listing(FanOut(queries, [], list), arrivals, env) == Success([])
    ensures queries.Failure? ==> Listing(FanOut(queries, [], list), arrivals, env) == Failure(queries.cause)
  {
    if queries.Success? {
      var fanOut := FanOut(queries, [], list);
      assert fanOut == Success([]);
      assert arrivals == [] by {
        assert |arrivals| == |multiset(arrivals)|;
      }
      assert Flatten(Empty()) == [];
    }
  }

  /** A source that dies on one of the request's queries fails the whole request. */
  lemma DyingSourceFailsListing(queries: Exit<seq<VideoQuery>>, sources: seq<SourceId>, list: Lister,
                                arrivals: seq<Arrival>, env: Env, query: VideoQuery, source: SourceId)
    requires queries.Success? && query in queries.value && source in sources
    requires list(source, query).Failure?
    requires IsArrivalOrder(FanOut(queries, sources, list), arrivals)
    ensures Listing(FanOut(queries, sources, list), arrivals, env).Failure?
  {
  }

  // ---------------------------------------------------------------------------
  // The cache in front of listUncached

  /** A list request: the stream request and the base URL the answer's links are built on. */
  datatype ListRequest = ListRequest(request: StreamRequest, baseUrl: string)

  /** Two list requests are equal when their stream requests are; the base URL is ignored. */
  predicate ListRequestEquals(a: ListRequest, b: ListRequest) {
    a.request == b.request
  }

  /** The persisted cache key of a list request. */
  function ListRequestKey(r: ListRequest): (key: string)
    ensures key == StreamRequestId(r.request)
  {
    StreamRequestId(r.request)
  }

  /** Equal requests share the key, and requests with the same key are equal: one cache entry per stream request. */
  lemma ListRequestKeyMatchesEquality(a: ListRequest, b: ListRequest)
    ensures ListRequestEquals(a, b) <==> ListRequestKey(a) == ListRequestKey(b)
  {
    if ListRequestKey(a) == ListRequestKey(b) {
      StreamRequestIdInjective(a.request, b.request);
    }
  }

  /** The list cache lifetime: a minute for a failure, three days for more than five streams, six hours otherwise. */
  function ListTimeToLive(exit: Exit<seq<SourceStream>>): (ttl: Minutes)
    ensures exit.Failure? ==> ttl == OneMinute
    ensures exit.Success? && |exit.value| > 5 ==> ttl == ThreeDays
    ensures exit.Success? && |exit.value| <= 5 ==> ttl == SixHours
  {
    if exit.Failure? then OneMinute
    else if |exit.value| > 5 then ThreeDays
    else SixHours
  }

  /**
    * A Cinemeta lookup that dies fails the request, whatever the sources
    * yield, and the cache keeps that failure for a minute.
    */
  lemma DyingLookupFailsListing(request: StreamRequest, lookups: Lookups, sources: seq<SourceId>, list: Lister,
                                arrivals: seq<Arrival>, env: Env)
    requires request.Movie? ==> lookups.movie(request.imdbId).Failure?
    requires request.Series? ==> lookups.episode(request.imdbId, request.season, request.episode).Failure?
    requires request.Movie? || request.Series?
    requires IsArrivalOrder(FanOut(QueriesFromRequest(request, lookups), sources, list), arrivals)
    ensures var r := Listing(FanOut(QueriesFromRequest(request, lookups), sources, list), arrivals, env);
      r.Failure? && ListTimeToLive(r) == OneMinute
      && (request.Movie? ==> r.cause == lookups.movie(request.imdbId).cause)
  {
  }

  // ---------------------------------------------------------------------------
  // The registry as the mutable service

  /** The `Sources` service: its two registration sets and the pipeline that uses them. */
  class Registry {
    var sources: seq<SourceId>
    var embellishers: seq<EmbellisherId>

    constructor ()
      ensures sources == [] && embellishers == []
    {
      sources := [];
      embellishers := [];
    }

    /** The acquire half of `register`. */
    method Register(source: SourceId)
      modifies this
      ensures sources == SetAdd(old(sources), source)
      ensures embellishers == old(embellishers)
    {
      if source !in sources {
        sources := sources + [source];
      }
    }

    /** The release half of `register`. */
    method Unregister(source: SourceId)
      modifies this
      ensures sources == SetDelete(old(sources), source)
      ensures embellishers == old(embellishers)
    {
      sources := SetDelete(sources, source);
    }

    /** The acquire half of `registerEmbellisher`. */
    method RegisterEmbellisher(embellisher: EmbellisherId)
      modifies this
      ensures embellishers == SetAdd(old(embellishers), embellisher)
      ensures sources == old(sources)
    {
      if embellisher !in embellishers {
        embellishers := embellishers + [embellisher];
      }
    }

    /** The release half of `registerEmbellisher`. */
    method UnregisterEmbellisher(embellisher: EmbellisherId)
      modifies this
      ensures embellishers == SetDelete(old(embellishers), embellisher)
      ensures sources == old(sources)
    {
      embellishers := SetDelete(embellishers, embellisher);
    }

    /**
      * `listUncached`: the request's queries are run against every registered
      * source; if any of those streams dies the request fails, and otherwise
      * the results, in the order they arrived, are gathered into a quality
      * group whose streams are then sorted.
      */
    method ListUncached(request: StreamRequest, lookups: Lookups, list: Lister, arrivals: seq<Arrival>,
                        fromHash: string -> Exit<TorrentMeta.TorrentMetadata>,
                        transforms: EmbellisherId -> Transformer) returns (r: Exit<seq<SourceStream>>)
      requires IsArrivalOrder(FanOut(QueriesFromRequest(request, lookups), sources, list), arrivals)
      ensures r == Listing(FanOut(QueriesFromRequest(request, lookups), sources, list), arrivals,
                           Env(fromHash, FirstEmbellisher(embellishers, transforms)))
      ensures sources == [] && QueriesFromRequest(request, lookups).Success? ==> r == Success([])
    {
      var fanOut := FanOut(QueriesFromRequest(request, lookups), sources, list);
      if sources == [] {
        NothingRegisteredNothingListed(QueriesFromRequest(request, lookups), list, arrivals,
                                       Env(fromHash, FirstEmbellisher(embellishers, transforms)));
      }
      if fanOut.Failure? {
        return Failure(fanOut.cause);
      }
      var env := Env(fromHash, FirstEmbellisher(embellishers, transforms));
      var group := Gather(Results(arrivals, env));
      r := Success(Sort(Flatten(group.Value())));
    }
  }

  /**
    * The dedup, scan and stop of `listUncached`: one pass over the results
    * with a set of seen hashes and a quality group updated in place, stopping
    * once the group has enough.
    */
  method Gather(xs: seq<SourceStream>) returns (group: QualityGroup)
    ensures fresh(group)
    ensures group.Value() == Fold(Dedup(xs))
  {
    var hashes: set<string> := {};
    group := new QualityGroup();
    var i := 0;
    while i < |xs| && !HasEnough(group.Value())
      invariant 0 <= i <= |xs|
      invariant fresh(group)
      invariant hashes == Keys(xs[..i])
      invariant group.Value() == Fold(Dedup(xs[..i]))
      decreases |xs| - i
    {
      hashes := Visit(xs, i, hashes, group);
      i := i + 1;
    }
    ScanStops(xs, i);
  }

  /**
    * One turn of the scan: a stream whose hash was seen is dropped; any other
    * has its hash recorded and is added to the group in place.
    */
  method Visit(xs: seq<SourceStream>, i: nat, hashes: set<string>, group: QualityGroup) returns (seen: set<string>)
    requires i < |xs| && hashes == Keys(xs[..i])
    requires group.Value() == Fold(Dedup(xs[..i])) && !HasEnough(group.Value())
    modifies group
    ensures seen == Keys(xs[..i + 1])
    ensures group.Value() == Fold(Dedup(xs[..i + 1]))
  {
    var x := xs[i];
    ScanStep(xs, i);
    var hash := ToLower(x.infoHash);
    assert hash == Key(xs[i]);
    seen := hashes;
    if hash !in seen {
      seen := seen + {hash};
      FoldSnoc(Dedup(xs[..i]), x);
      var self := group.UnsafeAdd(x);
    }
  }

  /** One turn of the scan: the stream is dropped when its key was seen, and goes on otherwise. */
  lemma ScanStep(xs: seq<SourceStream>, i: nat)
    requires i < |xs|
    ensures Keys(xs[..i + 1]) == Keys(xs[..i]) + {Key(xs[i])}
    ensures Key(xs[i]) in Keys(xs[..i]) ==> Dedup(xs[..i + 1]) == Dedup(xs[..i])
    ensures Key(xs[i]) !in Keys(xs[..i]) ==> Dedup(xs[..i + 1]) == Dedup(xs[..i]) + [xs[i]]
  {
    assert xs[..i + 1] == xs[..i] + [xs[i]];
    DedupSnoc(xs[..i], xs[i]);
  }

  /** Stopping the scan early, once the group has enough, gathers what the full scan gathers. */
  lemma ScanStops(xs: seq<SourceStream>, i: nat)
    requires i <= |xs|
    requires i < |xs| ==> HasEnough(Fold(Dedup(xs[..i])))
    ensures Fold(Dedup(xs)) == Fold(Dedup(xs[..i]))
  {
    if i < |xs| {
      var ws := DedupPrefix(xs, i);
      FoldStops(Dedup(xs[..i]), ws);
    } else {
      assert xs[..i] == xs;
    }
  }

  /** Dedup of a run extends dedup of each of its prefixes. */
  lemma DedupPrefix(xs: seq<SourceStream>, i: nat) returns (ws: seq<SourceStream>)
    requires i <= |xs|
    ensures Dedup(xs) == Dedup(xs[..i]) + ws
  {
    assert xs[..i] + xs[i..] == xs;
    ws := DedupExtends(xs[..i], xs[i..]);
  }

  /** Dedup of a longer run extends dedup of its prefix. */
  lemma {:induction false} DedupExtends(xs: seq<SourceStream>, zs: seq<SourceStream>) returns (ws: seq<SourceStream>)
    ensures Dedup(xs + zs) == Dedup(xs) + ws
    decreases |zs|
  {
    if zs == [] {
      assert xs + zs == xs;
      ws := [];
    } else {
      var zs', z := zs[..|zs| - 1], zs[|zs| - 1];
      var ws' := DedupExtends(xs, zs');
      var n := xs + zs';
      assert xs + zs == n + [z];
      DedupSnoc(n, z);
      if Key(z) in Keys(n) {
        ws := ws';
      } else {
        ws := ws' + [z];
        assert Dedup(xs) + ws == (Dedup(xs) + ws') + [z];
      }
    }
  }
}
