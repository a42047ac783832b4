# stremio-effect core, modelled in Dafny

stremio-effect is a Stremio add-on. Given a stream request (a movie, a series
episode, a channel or a tv id), it does the following:

- asks Cinemeta for the title and turns the request into a list of video
  queries;
- sends every query to every registered torrent source (YTS, The Pirate Bay,
  EZTV, 1337x, a RARBG mirror);
- expands season packs into the video files of their torrent manifest;
- filters the candidates by quality label and by an episode title matcher;
- lets the first registered embellisher (Real-Debrid) turn candidates into
  direct links;
- drops repeated info hashes, gathers at most three streams per quality
  bucket until it has enough, and returns them sorted best first.

This project models that core. It has one Dafny module per source file:

| module | file |
|---|---|
| `Utils` | `src/Utils.ts` |
| `Quality` | `src/Domain/Quality.ts` |
| `SourceStreams` | `src/Domain/SourceStream.ts` |
| `QualityGroups` | `src/Domain/QualityGroup.ts` |
| `VideoQueries` | `src/Domain/VideoQuery.ts` |
| `Stremio` | `src/Stremio.ts` |
| `TorrentMeta` | `src/TorrentMeta.ts` |
| `Cinemeta` | `src/Cinemeta.ts` |
| `Sources` | `src/Sources.ts` |
| `RealDebrid` | `src/RealDebrid.ts` |
| `Yts`, `Tpb`, `Eztv`, `Leetx`, `Rargb` | the five providers under `src/Sources/` |

Four modules support the others:

- `Wrappers` holds `Option`, and `Exit`, which is an Effect exit: a success or a failure with its cause.
- `Strings` holds the JavaScript string built-ins the core relies on.
- `Seqs` holds small sequence helpers.
- `ChunkedScan` models the pipeline's gathering step chunk by chunk.

How the model is built:

- **Values and mutable state.** Data the source treats as values are
  datatypes. The quality group is mutated in place by `unsafeAdd`, so it is
  the class `QualityGroups.QualityGroup`. The source registry (two JavaScript
  `Set`s) is the class `Sources.Registry`. Each method is proved against a
  pure specification function.
- **Dedup and gathering.** `listUncached` carries a set of seen hashes and a
  group through a loop. Here that is the method `Sources.Gather`. It is
  proved to compute `Fold(Dedup(xs))`.
- **The rest of the pipeline.** Sorting, filtering, dedup and the fold are
  functions, with lemmas on the final list: at most twelve streams, distinct
  hashes, sorted, and each one the first arrival of its hash.
- **Concurrency.** Every query goes to every registered source, and the
  sources run concurrently with their results merged. `Sources.FanOut`
  computes the arrivals job by job. The pipeline takes any reordering of
  them, and every property holds for every order. A source or lookup that
  dies fails the whole listing.
- **I/O.** HTTP calls, scraped pages, caches and the Cinemeta and TVDB
  lookups are function parameters. Each returns the value or the failure the
  call ended with.
- **Chunked scan.** `Stream.scan` feeds the group a whole chunk before the
  stop test runs. `ChunkedScan.SmallChunksScanLikeFold` proves this is the
  element-wise `Sources.Fold` whenever chunks hold at most one stream, which
  is how the pipeline's chunks reach the scan after dedup.
  `ChunkedScan.ChunkOvershootsTwelve` shows what a larger chunk would do.
- **Time.** Cache lifetimes are numbers of minutes.

## Model

| member | source | states |
|---|---|---|
| Utils.InfoHashFromMagnet | src/Utils.ts:39-42 | the result is "" exactly when no `urn:btih:` is followed by a non-`&` character; otherwise it is the maximal non-`&` run after the first such occurrence |
| Utils.HashAfterScheme | src/Utils.ts:39-42 | a link made of the scheme, `urn:btih:`, a non-empty `&`-free hash and `&` yields that hash, whatever follows |
| Utils.MagnetRoundTrip | src/Utils.ts:14-42 | reading the hash back out of `magnetFromHash(h)` gives `h` for every non-empty `&`-free hash |
| Utils.QualityFromTitle | src/Utils.ts:44-47 | the label is "N/A" exactly when no 3–4 digits followed by `p` occur; otherwise it is the leftmost match, taking four digits when it can, and is 3–4 digits and a `p` |
| Utils.ClassifiedIsNeitherThreeDNorHdr | src/Utils.ts:44-47 | the classifier never yields "3D" or "2160p HDR" |
| Utils.SpanRequestHashConsistent | src/Utils.ts:55-65 | equal span requests hash alike, and equality ignores the span |
| Quality.Priority | src/Domain/Quality.ts:12-13 | the rank is the index of the first table entry the label starts with, checked in table order, or 6 when none matches |
| Quality.Compare | src/Domain/Quality.ts:15-19 | the comparator is -1, 0 or 1, negative exactly when the first rank is lower and zero exactly when the ranks are equal |
| Quality.PriorityOfTableEntries | src/Domain/Quality.ts:3-13 | every table entry ranks at its own index, so "2160p HDR" is 1 and not 2 |
| Quality.PriorityOfLongerLabel | src/Domain/Quality.ts:12-13 | "1080p.x265" ranks 3, like "1080p" |
| Quality.UnrankedLabels | src/Domain/Quality.ts:12-13 | "N/A" and "576p" rank 6, after "480p" |
| Quality.CompareIsTotalPreorder | src/Domain/Quality.ts:15-19 | the comparator is reflexive, antisymmetric in sign, total and transitive |
| Quality.SameRankCompareEqual | src/Domain/Quality.ts:15-19 | "1080p" and "1080p.x265" compare equal |
| QualityGroups.Empty | src/Domain/QualityGroup.ts:5-12 | the six preset labels in table order, each with an empty bucket; no streams |
| QualityGroups.Add | src/Domain/QualityGroup.ts:14-24 | a new label gets a bucket holding the stream, appended to the key order; a bucket below three gains the stream at its end; only that bucket may change; a rejected stream leaves the group unchanged |
| QualityGroups.AddInserts | src/Domain/QualityGroup.ts:14-24 | an accepted stream is inserted at one position of the flattened contents, and everything else keeps its order |
| QualityGroups.AddContents | src/Domain/QualityGroup.ts:14-24 | the new contents are the old ones plus the stream exactly when its bucket is new or holds fewer than three |
| QualityGroups.AddPreserves | src/Domain/QualityGroup.ts:14-24 | the presets stay, no bucket exceeds three, and the total grows by at most one |
| QualityGroups.HasEnoughIsStable | src/Domain/QualityGroup.ts:26-33 | a group that has enough keeps having enough after any add |
| QualityGroups.QualityGroup.constructor | src/Domain/QualityGroup.ts:5-12 | a new record holds `empty()` |
| QualityGroups.QualityGroup.UnsafeAdd | src/Domain/QualityGroup.ts:14-24 | mutates the record into `Add` of its old value and returns the same object |
| SourceStreams.SourceResult.Tag | src/Domain/SourceStream.ts:60-66 | a result tests as "SourceStream" exactly when it is a stream, a stream naming a file included, since the extended class keeps its parent's tag; a season pack tests as "SourceSeason" |
| SourceStreams.SourceStream.SizeFormatted | src/Domain/SourceStream.ts:27-34 | a non-zero byte size is formatted; otherwise a non-empty display size is shown; otherwise "0B" |
| SourceStreams.SourceStream.QualityFormatted | src/Domain/SourceStream.ts:36-45 | the two 2160p labels read as "4K HDR" and "4K"; every other label is kept |
| SourceStreams.SourceStream.AsStremio | src/Domain/SourceStream.ts:47-57 | the Stremio record keeps url and hash, names the display label plus a sparkle when there is a url, groups by `effect-` + label, and shows size and seeds |
| SourceStreams.SourceSeason.Quality | src/Domain/SourceStream.ts:75 | a season's label is its title classified, so "N/A" or a resolution |
| SourceStreams.Compare | src/Domain/SourceStream.ts:22-25 | streams order by quality rank, ties broken by more seeds first; zero exactly when rank and seeds agree |
| SourceStreams.CompareIsTotalPreorder | src/Domain/SourceStream.ts:22-25 | the stream order is reflexive, antisymmetric in sign, total and transitive |
| SourceStreams.MoreSeedsFirst | src/Domain/SourceStream.ts:22-25 | of two streams of one label, the one with more seeds ranks first |
| SourceStreams.NameMarksDirectUrl | src/Domain/SourceStream.ts:47-57 | for a classified label, the Stremio name ends in the sparkle exactly when the stream has a non-empty url |
| VideoQueries.VideoQuery.Tag | src/Domain/VideoQuery.ts:135 | the Imdb movie and tv variants carry "MovieQuery" and "TvQuery"; "MovieQuery" belongs exactly to the two movie variants |
| VideoQueries.VideoQuery.ImdbIdField | src/Domain/VideoQuery.ts:171-185 | exactly the Imdb variants expose an Imdb id, and it is their id |
| VideoQueries.VideoQuery.Category | src/Domain/VideoQuery.ts:10-147 | the two movie variants are "movie"; channel and tv queries have no category |
| VideoQueries.VideoQuery.AsQuery | src/Domain/VideoQuery.ts:18-165 | the search string of each variant: the title with the episode, season or absolute token, the bare title, the channel id, or the Imdb id |
| VideoQueries.VideoQuery.TitleToken | src/Domain/VideoQuery.ts:13-168 | the movie, channel and tv variants have no matcher; the episode, season and absolute variants match on `SxxEyy`, `Sxx` or the decimal number |
| VideoQueries.NonSeasonQuery | src/Domain/VideoQuery.ts:89-118 | a season variant becomes its episode variant with the same fields; every other query is unchanged |
| VideoQueries.SeasonString | src/Domain/VideoQuery.ts:193-195 | "S" followed by at least two digits |
| VideoQueries.FormatEpisode | src/Domain/VideoQuery.ts:197-198 | the season string, "E", then the padded episode |
| VideoQueries.PaddedDecimalInjective | src/Domain/VideoQuery.ts:193-198 | two-padding a decimal never makes two numbers collide |
| VideoQueries.FormatEpisodeInjective | src/Domain/VideoQuery.ts:197-198 | distinct season/episode pairs give distinct tokens |
| VideoQueries.PaddingNeverTruncates | src/Domain/VideoQuery.ts:193-198 | season 123 gives "S123" and "S123E04"; season 1, episode 2 gives "S01E02" |
| VideoQueries.UnderscoreBlocks | src/Domain/VideoQuery.ts:189-192 | an underscore before the token blocks a match there, since `_` lies inside `A-z` |
| VideoQueries.MatcherExamples | src/Domain/VideoQuery.ts:189-192 | the matcher ignores case and accepts dots and string edges, but rejects a token glued to a word character |
| VideoQueries.SeriesVariantsShareToken | src/Domain/VideoQuery.ts:13-52 | the title and Imdb variants of one episode or season share their matcher |
| VideoQueries.SeasonTokenPrefixesEpisodeToken | src/Domain/VideoQuery.ts:193-198 | a season token is a prefix of each of its episode tokens |
| VideoQueries.NonSeasonQueryKeepsFields | src/Domain/VideoQuery.ts:89-118 | narrowing keeps season and episode, is idempotent, and gives the episode token and search string |
| Stremio.StreamRequestId | src/Stremio.ts:45-51 | the id is the kind, a colon, and the fields joined by colons |
| Stremio.SeriesIdInjective | src/Stremio.ts:48-49 | equal series ids come from the same id, season and episode |
| Stremio.StreamRequestIdInjective | src/Stremio.ts:45-51 | distinct requests have distinct ids |
| Stremio.ParseNumber | src/Stremio.ts:101-102 | a field parses exactly when it is present and all digits, to its decimal value |
| Stremio.Route | src/Stremio.ts:89-108 | channel, movie and tv route straight to their request; unknown kinds give none; a series takes the id before the first colon |
| Stremio.SeriesRouteRoundTrip | src/Stremio.ts:97-104 | routing the id a series request prints gives back that request |
| Stremio.SplitSeriesId | src/Stremio.ts:98 | a series id splits at its colons into id, season and episode |
| TorrentMeta.VideoFiles | src/TorrentMeta.ts:95 | exactly the files named `.mp4`, `.mkv` or `.avi`, case-sensitive, in manifest order |
| TorrentMeta.Streams | src/TorrentMeta.ts:89-110 | one stream per video file, numbered 0..n-1 in order, carrying the manifest's hash, its magnet link, the file's name, label and size, and the options' source, seeds and peers |
| TorrentMeta.NoVideoNoStreams | src/TorrentMeta.ts:94-110 | no stream exactly when no file is a video file |
| TorrentMeta.FromHashTimeToLive | src/TorrentMeta.ts:48 | a failure is kept one minute, a manifest three days |
| TorrentMeta.FromMagnetOfHashMagnet | src/TorrentMeta.ts:58-61 | a magnet link built from a hash looks up that very hash |
| Cinemeta.MovieQueries | src/Cinemeta.ts:181-183 | a movie's queries are one title query |
| Cinemeta.FindEpisode | src/Cinemeta.ts:207-212 | the first video with that season and episode, or none when there is none |
| Cinemeta.RegularVideos | src/Cinemeta.ts:217-218 | exactly the videos of seasons above 0 |
| Cinemeta.RegularVideosInOrder | src/Cinemeta.ts:217-218 | the regular videos are the list filtered by season above 0, so they keep list order |
| Cinemeta.FindIndex | src/Cinemeta.ts:219 | the first matching position, or -1 exactly when nothing matches |
| Cinemeta.SeriesAbsoluteQueries | src/Cinemeta.ts:213-229 | absolute queries exist exactly when the episode is at a position above 0 among regular episodes, and carry that position plus one |
| Cinemeta.AbsoluteQueriesAgree | src/Cinemeta.ts:220-227 | both absolute queries carry one number; the title query the name, the id query the Imdb id |
| Cinemeta.AbsoluteNeedsLaterRegularEpisode | src/Cinemeta.ts:217-228 | absolute queries need a regular season, an existing episode, and an episode that is not the first regular one |
| Cinemeta.AbsoluteQueries | src/Cinemeta.ts:248-264 | with TVDB data the absolute number; without it, the series' own absolute queries; none for a general result |
| Cinemeta.EpisodeQueries | src/Cinemeta.ts:265-303 | the absolute queries, then the episode query by name, then the season variants |
| Cinemeta.EpisodeQueryAlwaysListed | src/Cinemeta.ts:265-303 | the episode query by name is always listed, right after the absolute queries |
| Cinemeta.AnimationWithoutAbsoluteIsGeneral | src/Cinemeta.ts:248-303 | an animation without TVDB data or absolute position lists what a general result lists |
| Cinemeta.LookupEpisode | src/Cinemeta.ts:109-134 | a failed series lookup fails with its cause; a series without the "Animation" genre is a general result; for an animation whose episode has a TVDB id, a failed TVDB lookup fails the lookup and a successful one is carried; without an id the animation carries no TVDB data |
| Cinemeta.LookupMovieTimeToLive | src/Cinemeta.ts:53-55 | a week on success, five minutes on failure |
| Cinemeta.LookupSeriesTimeToLive | src/Cinemeta.ts:83-85 | twelve hours on success, five minutes on failure |
| RealDebrid.Decode | src/RealDebrid.ts:260-268 | an array answer gives no variants; a record gives exactly the variants of all its hosts |
| RealDebrid.DecodeEncode | src/RealDebrid.ts:260-270 | decoding the encoding of a variant list gives it back |
| RealDebrid.DecodeResponse | src/RealDebrid.ts:254-274 | every hash of the answer is decoded, and no other |
| RealDebrid.Entries | src/RealDebrid.ts:92-98 | one entry per file, carrying its number, name and size |
| RealDebrid.Lookup | src/RealDebrid.ts:90-101 | the files of the lower-cased hash's first variant, or none when the hash is absent or has no variant |
| RealDebrid.LookupIgnoresCase | src/RealDebrid.ts:90 | the lookup does not depend on the hash's case |
| RealDebrid.Resolve | src/RealDebrid.ts:79-110 | one answer per request; a failed batch fails them all; otherwise each gets its own lookup |
| RealDebrid.SameHashSameAnswer | src/RealDebrid.ts:86-104 | requests for one hash, in any case, get one answer |
| RealDebrid.UserIsPremium | src/RealDebrid.ts:50-53 | premium exactly when the account lookup succeeded with "premium" |
| RealDebrid.Plain | src/RealDebrid.ts:155-156 | a plain stream with every shared field kept; a plain stream is itself |
| RealDebrid.LargeFiles | src/RealDebrid.ts:166 | exactly the files above 10 MiB, so none when all are small |
| RealDebrid.WithLink | src/RealDebrid.ts:155-162 | the plain stream with the given size and url |
| RealDebrid.Fallback | src/RealDebrid.ts:186-188 | the candidate is kept, a stream naming a file included, because every stream tests as "SourceStream" |
| RealDebrid.Transform | src/RealDebrid.ts:141-197 | without premium or on failure the candidate itself; an uncached torrent or an empty variant gives nothing; otherwise one plain stream keeping the candidate's fields, with the first file's size and a link to it under the candidate's hash |
| RealDebrid.PerFileStreams | src/RealDebrid.ts:165-179 | one stream per file above 10 MiB, in order, named and sized after its file, labelled from its name and linked to it; nothing when every file is small |
| RealDebrid.FileStreamLinksFirstFile | src/RealDebrid.ts:152-163 | a cached stream naming a file is linked to the first file of the torrent, not to its own file, keeping its title |
| RealDebrid.TransformAsWritten | src/RealDebrid.ts:152-157 | fails exactly for a premium account whose cached torrent's first variant lists no file, whatever the stream, and otherwise agrees with `Transform` |
| RealDebrid.EmptyVariantFailsRequest | src/RealDebrid.ts:152-163 | an answer `{"abc": {"rd": [{}]}}` makes the written transform die, while the intended one gives no stream |
| Sources.SetAdd | src/Sources.ts:45 | the set gains the element at the end, keeps its order and stays duplicate-free |
| Sources.SetDelete | src/Sources.ts:47 | exactly the element is removed, duplicates stay out |
| Sources.DeleteUndoesAdd | src/Sources.ts:42-48 | releasing a fresh registration restores the set |
| Sources.FirstEmbellisher | src/Sources.ts:153 | there is an embellisher exactly when one is registered |
| Sources.QueriesFromRequest | src/Sources.ts:59-105 | channel and tv give one query; a movie gives its Imdb query and then the title query, and a failed lookup fails; a series gives its Imdb episode and season queries and then the episode lookup's queries, and a failed lookup fails |
| Sources.SeriesRequestAsksForEpisodeByName | src/Sources.ts:82-103 | after a successful lookup, the episode query by name is among a series request's queries |
| Sources.StreamsFromSeason | src/Sources.ts:196-207 | a failed manifest gives no stream; otherwise the manifest's streams, all carrying its hash |
| Sources.Expand | src/Sources.ts:119-125 | a stream, one naming a file included, is kept as it is; a season pack expands into the streams of its manifest |
| Sources.Embellish | src/Sources.ts:144-158 | without an embellisher every stream is kept, one naming a file included; with one, its transform decides |
| Sources.EmbellishAll | src/Sources.ts:144-158 | without an embellisher every candidate passes unchanged and in order; with one, every output comes from transforming a candidate |
| Sources.ArrivalResults | src/Sources.ts:114-167 | every output passes the post-filter; without an embellisher the output is exactly the expansion filtered by the pre-filter and then the post-filter, in order, and no label is 480p or N/A |
| Sources.Results | src/Sources.ts:107-167 | every result comes from one arrival |
| Sources.DedupProperties | src/Sources.ts:169-181 | dedup keeps distinct hashes, keeps only input streams, and keeps every hash |
| Sources.DedupKeepsFirstArrivals | src/Sources.ts:169-181 | each kept stream is the first arrival of its hash, in arrival order |
| Sources.DedupSnoc | src/Sources.ts:169-181 | one more stream passes exactly when its hash is new |
| Sources.Step | src/Sources.ts:184-186 | a group with enough is kept; otherwise the stream is added; at most twelve streams either way |
| Sources.Fold | src/Sources.ts:184-186 | the gathered group has the presets, buckets of at most three, and at most twelve streams |
| Sources.FoldSnoc | src/Sources.ts:184-186 | one more stream is one more step |
| Sources.FoldStops | src/Sources.ts:184-186 | once the group has enough, later streams change nothing |
| Sources.StepContents | src/Sources.ts:184-186 | a step keeps hashes distinct and adds nothing but the stream |
| Sources.FoldContents | src/Sources.ts:184-186 | the gathered streams are input streams with distinct hashes |
| Sources.InsertionPoint | src/Sources.ts:193 | the position after every stream that ranks strictly before the new one |
| Sources.Sort | src/Sources.ts:193 | the result is a sorted permutation of the input |
| Sources.SortKeepsDistinct | src/Sources.ts:193 | sorting keeps hashes distinct |
| Sources.RankedWithInsert | src/Sources.ts:193 | inserting a stream puts it first among the streams ranking equal to it and leaves the others' order |
| Sources.SortIsStable | src/Sources.ts:193 | streams that rank equal keep their arrival order after the sort |
| Sources.Gathered | src/Sources.ts:184-192 | the gathered group is valid and bounded |
| Sources.List | src/Sources.ts:107-194 | the listing is a sorted permutation of the gathered group's streams |
| Sources.ListProperties | src/Sources.ts:107-194 | the listing is sorted, holds at most twelve streams, and has distinct hashes |
| Sources.ListComesFromDedup | src/Sources.ts:107-194 | every listed stream passed the dedup |
| Sources.ListStreamsAreFirstArrivals | src/Sources.ts:107-194 | every listed stream is the first arrival of its hash |
| Sources.WithoutEmbellisherKnownQualities | src/Sources.ts:107-194 | without an embellisher every listed stream is labelled neither 480p nor N/A and is a pre-filtered expansion of some arrival |
| Sources.WithoutEmbellisherCandidatesGoOn | src/Sources.ts:119-158 | without an embellisher every pre-filtered expansion of an arrival reaches the results, a stream naming a file included |
| Sources.ListRequestKey | src/Sources.ts:219-221 | the cache key is the request's id |
| Sources.ListRequestKeyMatchesEquality | src/Sources.ts:213-221 | two list requests are equal exactly when their keys are equal, whatever their base URL |
| Sources.ListTimeToLive | src/Sources.ts:233-236 | a failure is kept one minute, more than five streams three days, otherwise six hours |
| Sources.Jobs | src/Sources.ts:109-113 | one job per query and source, and every pair of a query and a source is a job |
| Sources.JobArrivals | src/Sources.ts:114-118 | one arrival per result of the job, each tagged with the job's query and source |
| Sources.Run | src/Sources.ts:114-128 | the jobs fail exactly when some source's list fails; otherwise every arrival is a result of a job's list |
| Sources.FanOut | src/Sources.ts:107-128 | a failed query lookup fails the fan-out with its cause; otherwise it fails exactly when a registered source fails on a query, and every arrival is a registered source's result for a query |
| Sources.Listing | src/Sources.ts:107-194 | a failed fan-out fails the request with its cause; otherwise the answer is the list of the arrivals |
| Sources.ListedStreamsComeFromRegisteredSources | src/Sources.ts:107-194 | every listed stream comes from an arrival that a registered source produced for one of the queries |
| Sources.NothingRegisteredNothingListed | src/Sources.ts:107-194 | with no source registered the listing is empty, or fails when the query lookup fails |
| Sources.DyingSourceFailsListing | src/Sources.ts:114-128 | a source whose list dies on any query fails the whole listing |
| Sources.DyingLookupFailsListing | src/Sources.ts:59-105 | a movie or series lookup that dies fails the listing, which is then cached for one minute |
| Sources.Registry.constructor | src/Sources.ts:38-39 | both sets start empty |
| Sources.Registry.Register | src/Sources.ts:42-48 | the source set gains the source; the embellishers stay |
| Sources.Registry.Unregister | src/Sources.ts:47 | the source set loses the source; the embellishers stay |
| Sources.Registry.RegisterEmbellisher | src/Sources.ts:50-56 | the embellisher set gains the embellisher; the sources stay |
| Sources.Registry.UnregisterEmbellisher | src/Sources.ts:55 | the embellisher set loses the embellisher; the sources stay |
| Sources.Registry.ListUncached | src/Sources.ts:107-194 | the listing of the fan-out over the request's queries and the registered sources, in any arrival order, with the first registered embellisher; with no source registered and a successful lookup, no stream |
| Sources.Gather | src/Sources.ts:169-186 | the loop over the results, with a mutable hash set and group, ends with the fold of the deduplicated results |
| Sources.Visit | src/Sources.ts:169-186 | one result: the seen set gains its hash and the group takes one dedup-and-fold step |
| Sources.ScanStep | src/Sources.ts:170-180 | one more result passes dedup exactly when its hash is unseen |
| Sources.ScanStops | src/Sources.ts:185 | once the group has enough, the rest of the results change nothing |
| ChunkedScan.ScanChunks | src/Sources.ts:184-186 | the chunk-by-chunk scan keeps a valid group with the presets |
| ChunkedScan.FittingChunkIsTakenWhole | src/Sources.ts:184 | a chunk that fits the buckets' room is added whole; each bucket grows by its label's count |
| ChunkedScan.ChunkOvershootsTwelve | src/Sources.ts:184-186 | a first chunk of more than twelve streams that fits the empty group leaves more than twelve streams |
| ChunkedScan.SmallChunksScanLikeFold | src/Sources.ts:169-186 | for chunks of at most one stream, the chunked scan equals the element-wise fold of their streams |
| Yts.DisplayTitle | src/Sources/Yts.ts:139 | a non-empty title, otherwise the long title |
| Yts.Streams | src/Sources/Yts.ts:131-148 | one stream per torrent, in order, with the torrent's hash, magnet link, label and counts |
| Yts.StreamsNameTheirHash | src/Sources/Yts.ts:140-141 | every stream's magnet link names its hash |
| Yts.DetailsTimeToLiveAsWritten | src/Sources/Yts.ts:50-53 | five minutes on failure, six hours on every success |
| Yts.DetailsTimeToLive | src/Sources/Yts.ts:50-53 | five minutes on failure; three days exactly when the movie has streams, else six hours |
| Yts.DetailsLifetimeIgnoresTorrents | src/Sources/Yts.ts:50-53 | a movie with torrents gets six hours as written and three days as intended |
| Yts.Answer | src/Sources/Yts.ts:59-76 | a failed detail lookup fails with its cause; otherwise the movie's streams |
| Yts.ListAsWrittenIsEmpty | src/Sources/Yts.ts:70-88 | no query carries the tag the matcher is written with, so every query gets nothing |
| Yts.ListAsWrittenMissesMovies | src/Sources/Yts.ts:72 | an Imdb movie with torrents gets nothing as written and a stream per torrent as intended |
| Yts.List | src/Sources/Yts.ts:70-88 | only the Imdb movie query is answered, with the streams of its details or their lookup's failure; every other query gets nothing |
| Yts.FailedDetailsFailTheList | src/Sources/Yts.ts:59-76 | a failed detail lookup fails the list of its movie |
| Yts.ListedPassPreFilterUnless480p | src/Sources/Yts.ts:93-100 | a listed stream passes the pipeline's pre-filter exactly when it is not 480p |
| Tpb.SearchAsWritten | src/Sources/Tpb.ts:27 | an empty answer dies; a sentinel first row means no results; anything else is found |
| Tpb.Search | src/Sources/Tpb.ts:27 | nothing exactly for a sentinel first row, else all rows; a non-empty result never starts with the sentinel |
| Tpb.EmptyAnswerKillsSearch | src/Sources/Tpb.ts:27 | only the empty answer dies as written; every other answer agrees with `Search` |
| Tpb.AsStream | src/Sources/Tpb.ts:82-93 | a plain TPB stream with the row's name, hash, magnet link, classified label, counts and size |
| Tpb.AsSeason | src/Sources/Tpb.ts:95-104 | a TPB season pack with the row's name, hash, magnet link and counts |
| Tpb.SeasonAgreesWithStream | src/Sources/Tpb.ts:82-104 | a row read as a season or as a stream agrees on label, title, hash, link and counts |
| Tpb.StreamNamesItsHash | src/Sources/Tpb.ts:86-87 | a stream's magnet link names its hash |
| Tpb.MapResults | src/Sources/Tpb.ts:40-46 | each row in order, as a season pack or as a stream |
| Tpb.Answer | src/Sources/Tpb.ts:39-48 | a failed search gives nothing; otherwise the searched rows mapped |
| Tpb.AnswerAsWritten | src/Sources/Tpb.ts:25-48 | a failed search gives nothing; an empty answer fails the list; any other answer agrees with `Answer` |
| Tpb.EmptyAnswerFailsEpisode | src/Sources/Tpb.ts:25-60 | an episode whose search answers an empty array fails as written and gets nothing as intended |
| Tpb.MoviesNeverSearched | src/Sources/Tpb.ts:38 | an Imdb movie with rows gets nothing as written and a stream per row as intended |
| Tpb.ListAsWrittenAgreesElsewhere | src/Sources/Tpb.ts:36-60 | apart from the Imdb movie query and the empty answer, the written list answers as intended |
| Tpb.List | src/Sources/Tpb.ts:36-60 | the Imdb movie and episode queries get streams, the Imdb season query season packs, every other query nothing |
| Tpb.ListKinds | src/Sources/Tpb.ts:38-46 | season packs only for a season query, plain streams otherwise, at most one per row |
| Eztv.ImdbParam | src/Sources/Eztv.ts:29 | an id starting with "tt" loses it |
| Eztv.ImdbParamExample | src/Sources/Eztv.ts:29 | "tt0903747" gives "0903747" |
| Eztv.CollectReadsUpToTheStop | src/Sources/Eztv.ts:38-51 | pages that go on followed by one that stops yield all their torrents in page order |
| Eztv.CollectEndsAtParseError | src/Sources/Eztv.ts:38-51 | an answer that does not decode ends the read with what came before |
| Eztv.CollectFailsOnRequestFailure | src/Sources/Eztv.ts:38-51 | any other failure fails the whole read |
| Eztv.FullFirstPageHidesTheRest | src/Sources/Eztv.ts:45-47 | two full pages: as written only the first is read, as intended both are |
| Eztv.AsStream | src/Sources/Eztv.ts:100-110 | an EZTV stream with the torrent's hash, link, classified label, counts and size |
| Eztv.EpisodeStreams | src/Sources/Eztv.ts:58-61 | exactly the torrents of the season and episode, as streams |
| Eztv.EpisodeStreamsConcat | src/Sources/Eztv.ts:58-61 | the streams of two runs of pages are those of each run, concatenated, so page order is kept |
| Eztv.List | src/Sources/Eztv.ts:53-78 | a series request gets its episode's streams from the paged read, nothing on failure; other requests nothing |
| Leetx.SearchKey | src/Sources/1337x.ts:92-94 | the key is the category, a slash, and the query |
| Leetx.SearchKeyIdentifiesSearch | src/Sources/1337x.ts:88-94 | two searches share a key exactly when they are the same search |
| Leetx.SearchTimeToLive | src/Sources/1337x.ts:95-98 | five minutes on failure, three days for more than five results, three hours otherwise |
| Leetx.CategoryOf | src/Sources/1337x.ts:127 | "Movies" exactly for a query tagged "MovieQuery", else "TV" |
| Leetx.MovieVariantsSearchMovies | src/Sources/1337x.ts:127 | both movie variants, and only they, search among movies |
| Leetx.Candidate | src/Sources/1337x.ts:137-156 | a season pack for a season query, a stream otherwise, with the hash its magnet link names |
| Leetx.Resolve | src/Sources/1337x.ts:134-161 | exactly the results whose link was fetched become candidates |
| Leetx.Take | src/Sources/1337x.ts:133 | the first ten results, or all when fewer |
| Leetx.List | src/Sources/1337x.ts:165-189 | the four answered tags are searched in their category and the first ten resolved; others and failures give nothing |
| Leetx.AnsweredQueries | src/Sources/1337x.ts:167-172 | answered are the two movie variants and the title episode, season and absolute queries |
| Leetx.ListBounds | src/Sources/1337x.ts:133-161 | at most ten candidates: season packs for a season query, otherwise streams whose link names their hash |
| Rargb.ToStream | src/Sources/Rargb.ts:108-121 | a Rarbg stream with the hash its link names, the classified label, counts and display size |
| Rargb.SearchStreams | src/Sources/Rargb.ts:90-121 | exactly the results that survive the range filter and whose link was fetched become streams |
| Rargb.SearchStreamsConcat | src/Sources/Rargb.ts:90-121 | the streams of two runs of results are those of each run, concatenated, so result order is kept |
| Rargb.RangeFilterExample | src/Sources/Rargb.ts:94-97 | "S01E02-E03" is dropped from the search for S01E02, a single episode is kept |
| Rargb.Search | src/Sources/Rargb.ts:80-126 | fails exactly when the fetch fails, otherwise the streams of the results |
| Rargb.SearchAllProperties | src/Sources/Rargb.ts:152-172 | the searches fail exactly when one fails; otherwise each stream comes from one search |
| Rargb.List | src/Sources/Rargb.ts:130-187 | a movie is searched by name among movies; an episode by each query string with its token; a failed search, a channel and tv give nothing; a failed Cinemeta lookup fails the list |
| Rargb.EpisodeFilterDropsRanges | src/Sources/Rargb.ts:94-97 | an episode search keeps a title exactly when it holds no range starting at the episode |
| Rargb.EpisodeListingSkipsRanges | src/Sources/Rargb.ts:152-172 | every listed episode stream names its hash and comes from a result that survived the range filter |

## Left out

- HTTP calls, page scraping, retries and schedules, rate limits and the
  tracing spans are left out. Each lookup is a function parameter that
  returns its value or the failure it ended with.
- Concurrency is left out: the merge of source streams, flatMap
  concurrency, and request batching with its time window. The fan-out over
  queries and sources (`Sources.FanOut`) is computed job by job, and the
  pipeline takes any reordering of its arrivals (`Sources.IsArrivalOrder`,
  equal multisets). That admits more orders than the merge can produce,
  since the merge keeps each source's own order; every property holds for
  all of them.
- Cache capacities, cache storage and persistence are left out. Only cache
  keys and lifetimes are modelled.
- `bytesToSize` uses floating point. It is a parameter of `SizeFormatted`.
- URL building is left out: the base URL, the resolve links, and the
  Real-Debrid resolve redirect route (src/RealDebrid.ts:126-139, 199-223).
  Links are built by a parameter.
- The manifest, the health and configuration routes and add-on
  configuration are left out.
- Preloading of the next episode (src/Stremio.ts:138-158) is left out. It
  only warms the cache.
- src/Tvdb.ts, src/Omdb.ts and the Nyaa provider are not part of this
  model. The TVDB episode record is an input of the animation lookup.
- `SeasonQuery.variants` is not visible in this revision. It is a parameter
  (`Cinemeta.SeasonVariants`).
- Season and episode numbers are natural numbers. NaN, negative and
  non-integral values from `Number(...)` are not modelled.
- Stremio.ParseNumber: only plain decimal digit strings are parsed (the
  empty string reads as 0). Unary `+` at src/Stremio.ts:101-102 also turns
  other fields into integers: " 3" (surrounding whitespace) gives 3, "0x10"
  gives 16, "1e1" gives 10. The source builds a series request from these,
  and the model gives none.
- `Strings.ToLower` folds ASCII letters only.
- Primary keys and Effect `Hash` values are left abstract (a hash function
  parameter, or the string key).
- Defects are modelled as an `Exit.Failure` carrying their cause. They come
  from lookups that declare no failure and call `orDie` (Cinemeta, TVDB, the
  YTS details), or from a throw inside `map` (the TPB first row, the
  Real-Debrid first file). `orElseSucceed` and `Effect.option` do not catch
  them, so they reach the listing and fail it. Only `catchAllCause` stops
  them (season manifests, the 1337x magnet fetches). The Real-Debrid batch
  catches every cause only to hand it on to each waiting request
  (src/RealDebrid.ts:106-108), so the cause is not stopped there.
- RealDebrid.Transform: a failed availability lookup falls back to the
  candidate, as `orElseSucceed` does for a typed failure. A defect inside
  the batch would be handed on by src/RealDebrid.ts:106-108, get past
  `orElseSucceed`, and fail the listing. The model does not capture that
  case.
- RealDebrid.TransformAsWritten: the embellisher's transform has no failure
  in the model (`Sources.Transformer` gives a sequence). The empty-variant
  defect is shown at the transform, as `None`, and is not carried on to
  `Sources.Listing`.
- Sources.QueriesFromRequest: src/Sources.ts:89 calls `flatMap` on the
  result of the episode lookup. In this revision that lookup returns one
  episode result, not an array (src/Cinemeta.ts:109-134), so taken
  literally the call throws inside `map`. That would be a defect that fails
  every series listing. The model reads the call as meant: the episode
  result's queries (`Cinemeta.EpisodeQueries`).
- Sources.Embellish: the Real-Debrid transform returns an effect of an
  array (src/RealDebrid.ts:142-197). The embellisher interface declares a
  stream (src/Sources.ts:256-261), and `Stream.bind` at
  src/Sources.ts:150-157 would bind the whole array as one result. Taken
  literally, the read of `infoHash` at src/Sources.ts:171 would then fail.
  The model reads the transform as meant: a sequence of streams, each bound
  on its own (`Sources.Transformer`).
- Sources.Listing: when a source dies, the listing fails. The merged stream
  could instead end first, at `takeUntil`, before the death is observed.
  That race is left out.
- RealDebrid.PerFileStreams: the per-file branch of the transform
  (src/RealDebrid.ts:165-179) is unreachable. Every candidate has the
  `_tag` "SourceStream", a stream naming a file included, so `Transform`
  links every candidate to the first file. The branch is modelled on its
  own, and `Transform` does not use it.
- Eztv.List and Rargb.List are written against a stream request
  (src/Sources/Eztv.ts:54, src/Sources/Rargb.ts:131). The registry hands
  each source a video query (src/Sources.ts:250-251), so in this revision
  the two do not fit the source interface they are registered with
  (src/Sources/All.ts:9-16). They are modelled on stream requests and are
  not part of the fan-out.
- Eztv.List: the read of an unbounded page sequence is bounded by a `fuel`
  number of pages. A series with more pages than the fuel is cut short.
- Eztv.AsStream: the source builds the stream without its required
  `title` (src/Sources/Eztv.ts:100-110). Constructing a schema class checks
  its fields, so taken literally the construction throws, and this
  provider's list dies. The model builds the stream as meant, with the
  title "".
- Rargb.ToStream: the source builds the stream without its required
  `title` (src/Sources/Rargb.ts:111-119). Taken literally the construction
  throws, as for EZTV. The model builds the stream as meant, with the title
  "".
- Rargb.List: the episode query strings come from the Cinemeta episode
  lookup in the source. That API is not part of this revision, so the
  strings are a parameter (`seriesQueries`).
- Leetx.List: the order of results from the concurrent magnet-link fetches
  is not modelled. Candidates are listed in result order.
- ChunkedScan.ScanChunks: the chunk boundaries that `Stream.scan` sees are
  not derived from the stream library. The pipeline uses the element-wise
  `Sources.Fold`, justified for chunks of at most one stream by
  `ChunkedScan.SmallChunksScanLikeFold`.

## Findings

| source | as written | input that shows it | evidently intended | confidence | as-written member | corrected member |
|---|---|---|---|---|---|---|
| src/Sources/Yts.ts:72 | the matcher is keyed on the tag "ImbdMovieQuery", which no query carries | `ImdbMovieQuery("tt0111161")` with a movie that has torrents gets no streams | match the Imdb movie query (tagged "MovieQuery") | not executed | Yts.ListAsWrittenMissesMovies | Yts.List |
| src/Sources/Tpb.ts:38 | the matcher is keyed on "ImbdMovieQuery", so movies are never searched | `ImdbMovieQuery(id)` whose search finds rows gets no streams | search the Imdb movie query by its id | not executed | Tpb.MoviesNeverSearched | Tpb.List |
| src/Sources/Yts.ts:50-53 | the cache lifetime reads `.length` of a movie object, which is undefined, so every success is kept six hours | a movie with one torrent is kept six hours, not three days | three days when the movie has torrents | not executed | Yts.DetailsLifetimeIgnoresTorrents | Yts.DetailsTimeToLive |
| src/Sources/Eztv.ts:45-47 | the next page is read only when this page holds fewer torrents than the limit | two full pages of one torrent each with limit 1: only the first is read | read on while pages are full | not executed | Eztv.FullFirstPageHidesTheRest | Eztv.List |
| src/RealDebrid.ts:152-157 | the first file of the first variant is read without a check | availability `{"abc": {"rd": [{}]}}` for any stream with hash "abc": the transform dies | an empty variant gives no stream | not executed | RealDebrid.EmptyVariantFailsRequest | RealDebrid.Transform |
| src/Sources/Tpb.ts:27 | the first row is read without a check, and `orElseSucceed` does not catch the defect | an empty JSON array as the search answer for an episode: the list fails, and so does the whole listing | treat an empty answer as no results | not executed | Tpb.EmptyAnswerFailsEpisode | Tpb.List |
