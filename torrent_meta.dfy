/**
  * Torrent manifests (src/TorrentMeta.ts): the video files of a torrent become
  * one stream each, numbered by their position among the video files; the
  * manifest of a magnet link is looked up by the info hash the link names.
  * Fetching and parsing the torrent file is a parameter.
  */
module TorrentMeta {
  import opened Wrappers
  import opened Strings
  import opened Utils
  import opened SourceStreams
  import Seqs

  datatype TorrentFile = TorrentFile(name: string, length: int, path: string)

  datatype TorrentMetadata = TorrentMetadata(name: string, infoHash: string, files: seq<TorrentFile>)

  /** The fields `streams` copies from the season (or stream) it expands. */
  datatype StreamOptions = StreamOptions(source: string, seeds: int, peers: int)

  /** The file name ends in ".mp4", ".mkv" or ".avi" (case matters). */
  predicate IsVideoName(name: string) {
    EndsWith(name, ".mp4") || EndsWith(name, ".mkv") || EndsWith(name, ".avi")
  }

  predicate IsVideoFile(f: TorrentFile) {
    IsVideoName(f.name)
  }

  /**
    * The video files, in torrent order: the `filter` of the file list, so by
    * `Seqs.FilterConcat` the video files of two runs of files are those of the
    * first run followed by those of the second.
    */
  function VideoFiles(files: seq<TorrentFile>): (r: seq<TorrentFile>)
    ensures r == Seqs.Filter(files, IsVideoFile)
    ensures forall f | f in r :: f in files && IsVideoName(f.name)
    ensures forall f | f in files && IsVideoName(f.name) :: f in r
  {
    if files == [] then []
    else
      var rest := VideoFiles(files[1..]);
      if IsVideoName(files[0].name) then [files[0]] + rest else rest
  }

  /** The stream for the `index`-th video file. */
  function FileStream(meta: TorrentMetadata, options: StreamOptions, file: TorrentFile, index: nat): SourceStream {
    SourceStreamWithFile(
      options.source, file.name, meta.infoHash, MagnetFromHash(meta.infoHash),
      QualityFromTitle(file.name), options.seeds, options.peers,
      Some(file.length), None, None, false, index)
  }

  /** `TorrentMetadata.streams`: one stream per video file, numbered 0, 1, … in order. */
  function Streams(meta: TorrentMetadata, options: StreamOptions): (r: seq<SourceStream>)
    ensures |r| == |VideoFiles(meta.files)| <= |meta.files|
    ensures forall i | 0 <= i < |r| :: r[i].SourceStreamWithFile? && r[i].fileNumber == i
    ensures forall i | 0 <= i < |r| ::
      var f := VideoFiles(meta.files)[i];
      r[i].title == f.name && r[i].quality == QualityFromTitle(f.name) && r[i].sizeBytes == Some(f.length)
    ensures forall s | s in r ::
      s.infoHash == meta.infoHash && s.magnetUri == MagnetFromHash(meta.infoHash)
      && s.source == options.source && s.seeds == options.seeds && s.peers == options.peers
      && !s.verified && s.url.None?
  {
    var files := VideoFiles(meta.files);
    seq(|files|, i requires 0 <= i < |files| => FileStream(meta, options, files[i], i))
  }

  /** A torrent expands to no stream exactly when none of its files is a video file. */
  lemma NoVideoNoStreams(meta: TorrentMetadata, options: StreamOptions)
    ensures Streams(meta, options) == [] <==> forall f | f in meta.files :: !IsVideoName(f.name)
  {
    var files := VideoFiles(meta.files);
    if files != [] {
      assert files[0] in files;
    }
  }

  /** The `fromHash` cache lifetime: a failed fetch is retried after a minute, a manifest is kept three days. */
  function FromHashTimeToLive(exit: Exit<TorrentMetadata>): (ttl: Minutes)
    ensures exit.Failure? ==> ttl == OneMinute
    ensures exit.Success? ==> ttl == ThreeDays
  {
    if exit.Failure? then OneMinute else ThreeDays
  }

  /** `fromMagnet`: the manifest of the info hash the magnet link names; `fromHash` is the cached fetch. */
  function FromMagnet(magnet: string, fromHash: string -> Exit<TorrentMetadata>): Exit<TorrentMetadata> {
    fromHash(InfoHashFromMagnet(magnet))
  }

  /** A magnet link built from a hash looks up that very hash. */
  lemma FromMagnetOfHashMagnet(hash: string, fromHash: string -> Exit<TorrentMetadata>)
    requires hash != "" && '&' !in hash
    ensures FromMagnet(MagnetFromHash(hash), fromHash) == fromHash(hash)
  {
    MagnetRoundTrip(hash);
  }
}
