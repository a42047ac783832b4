/**
  * The Real-Debrid embellisher (src/RealDebrid.ts): which files the debrid
  * service holds cached for an info hash, how the raw availability body is
  * read, and how a candidate stream becomes direct-link streams. The HTTP
  * calls, the request batching and the URL class are not part of this model:
  * the availability body, the premium flag and URL resolution are parameters.
  */
module RealDebrid {
  import opened Wrappers
  import opened Strings
  import opened Utils
  import opened SourceStreams
  import Seqs

  /** One entry of a `Files` record: its name and size in bytes. */
  datatype FileInfo = FileInfo(filename: string, filesize: int)

  /**
    * A `Files` record, as the pairs `Object.entries` lists: file number (a
    * record key) and what the record holds for it.
    */
  type Files = seq<(string, FileInfo)>

  /**
    * The body under one info hash before decoding: an array (the service has
    * nothing cached) or a record from host name to the cached variants, each a
    * `Files` record; the record's values are kept in `Object.values` order.
    */
  datatype RawAvailability = ArrayValue | RecordValue(hosts: seq<seq<Files>>)

  /** A file the embellisher can link to. */
  datatype FileEntry = FileEntry(fileNumber: string, fileName: string, fileSize: int)

  // ---------------------------------------------------------------------------
  // The AvailabilityResponse transform

  /** The decode half: an array reads as no variant, a record as all its hosts' variants in turn. */
  function Decode(value: RawAvailability): (r: seq<Files>)
    ensures value.ArrayValue? ==> r == []
    ensures value.RecordValue? ==> forall host, v | host in value.hosts && v in host :: v in r
    ensures value.RecordValue? ==> forall v | v in r :: exists host | host in value.hosts :: v in host
  {
    match value
    case ArrayValue => []
    case RecordValue(hosts) => Seqs.Concat(hosts)
  }

  /** The encode half: the variants under the single host "rd". */
  function Encode(variants: seq<Files>): RawAvailability {
    RecordValue([variants])
  }

  /** Decoding what encode produced gives the variants back. */
  lemma DecodeEncode(variants: seq<Files>)
    ensures Decode(Encode(variants)) == variants
  {
    assert [variants][1..] == [];
  }

  /** The decoded body: each info hash of the response with its variants. */
  function DecodeResponse(body: map<string, RawAvailability>): (r: map<string, seq<Files>>)
    ensures r.Keys == body.Keys
    ensures forall h | h in body :: r[h] == Decode(body[h])
  {
    map h | h in body :: Decode(body[h])
  }

  // ---------------------------------------------------------------------------
  // The batched resolver

  /** The entries of a `Files` record as the files the embellisher reads. */
  function Entries(files: Files): (r: seq<FileEntry>)
    ensures |r| == |files|
    ensures forall i | 0 <= i < |files| ::
      r[i] == FileEntry(files[i].0, files[i].1.filename, files[i].1.filesize)
  {
    seq(|files|, i requires 0 <= i < |files| => FileEntry(files[i].0, files[i].1.filename, files[i].1.filesize))
  }

  /**
    * The answer to one availability request: the files of the first cached
    * variant, looked up under the lower-cased hash, when the hash has at least
    * one variant; None otherwise.
    */
  function Lookup(availability: map<string, seq<Files>>, infoHash: string): (r: Option<seq<FileEntry>>)
    ensures var h := ToLower(infoHash);
      r.Some? <==> h in availability && |availability[h]| > 0
    ensures var h := ToLower(infoHash);
      r.Some? ==> r.value == Entries(availability[h][0])
  {
    var h := ToLower(infoHash);
    if h in availability && |availability[h]| > 0 then Some(Entries(availability[h][0])) else None
  }

  lemma LowerCharIdempotent(c: char)
    ensures LowerChar(LowerChar(c)) == LowerChar(c)
  {
  }

  /** A hash and its lower-cased form get the same answer. */
  lemma LookupIgnoresCase(availability: map<string, seq<Files>>, infoHash: string)
    ensures Lookup(availability, ToLower(infoHash)) == Lookup(availability, infoHash)
  {
    var h := ToLower(infoHash);
    forall i | 0 <= i < |h| ensures ToLower(h)[i] == h[i] {
      LowerCharIdempotent(infoHash[i]);
    }
    assert ToLower(h) == h;
  }

  /**
    * The batched resolver: every request of the batch is answered from the one
    * availability call, or, when that call fails, fails with its cause.
    */
  function Resolve(batch: Exit<map<string, seq<Files>>>, infoHashes: seq<string>): (r: seq<Exit<Option<seq<FileEntry>>>>)
    ensures |r| == |infoHashes|
    ensures batch.Failure? ==> forall i | 0 <= i < |r| :: r[i] == Failure(batch.cause)
    ensures batch.Success? ==> forall i | 0 <= i < |r| :: r[i] == Success(Lookup(batch.value, infoHashes[i]))
  {
    match batch
    case Failure(cause) => seq(|infoHashes|, i => Failure(cause))
    case Success(availability) =>
      seq(|infoHashes|, i requires 0 <= i < |infoHashes| => Success(Lookup(availability, infoHashes[i])))
  }

  /** Two requests for the same hash in one batch get the same answer. */
  lemma SameHashSameAnswer(batch: Exit<map<string, seq<Files>>>, infoHashes: seq<string>, i: nat, j: nat)
    requires i < |infoHashes| && j < |infoHashes|
    requires ToLower(infoHashes[i]) == ToLower(infoHashes[j])
    ensures Resolve(batch, infoHashes)[i] == Resolve(batch, infoHashes)[j]
  {
  }

  // ---------------------------------------------------------------------------
  // The embellisher

  /** The smallest size (exclusive) of a file worth a stream of its own: 10 MiB. */
  const MinFileSize: int := 10 * 1024 * 1024

  /** `userIsPremium`: the account type is "premium"; a failed user fetch counts as not premium. */
  function UserIsPremium(accountType: Exit<string>): (premium: bool)
    ensures premium <==> accountType == Success("premium")
  {
    accountType.Success? && accountType.value == "premium"
  }

  /** The path of the redirect route for a file of a torrent, under the add-on's base path. */
  function LinkPath(basePath: string, infoHash: string, fileNumber: string): string {
    basePath + "/real-debrid/" + infoHash + "/" + fileNumber
  }

  /** A plain stream with the fields of `s` (what `new SourceStream({...s})` keeps). */
  function Plain(s: SourceStream): (r: SourceStream)
    ensures r.SourceStream?
    ensures r.source == s.source && r.title == s.title && r.infoHash == s.infoHash
    ensures r.magnetUri == s.magnetUri && r.quality == s.quality && r.seeds == s.seeds
    ensures r.peers == s.peers && r.sizeBytes == s.sizeBytes && r.sizeDisplay == s.sizeDisplay
    ensures r.url == s.url && r.verified == s.verified
    ensures s.SourceStream? ==> r == s
  {
    SourceStream(s.source, s.title, s.infoHash, s.magnetUri, s.quality, s.seeds, s.peers,
                 s.sizeBytes, s.sizeDisplay, s.url, s.verified)
  }

  /** The files larger than 10 MiB, in order (`Seqs.FilterConcat` says how runs of files combine). */
  function LargeFiles(files: seq<FileEntry>): (r: seq<FileEntry>)
    ensures |r| <= |files|
    ensures forall f | f in r :: f in files && f.fileSize > MinFileSize
    ensures forall f | f in files && f.fileSize > MinFileSize :: f in r
    ensures (forall f | f in files :: f.fileSize <= MinFileSize) ==> r == []
  {
    Seqs.Filter(files, (f: FileEntry) => f.fileSize > MinFileSize)
  }

  /** `new SourceStream({...stream, sizeBytes, url})`: a plain stream with a size and a direct url. */
  function WithLink(stream: SourceStream, size: int, url: string): (r: SourceStream)
    ensures r.SourceStream? && r == Plain(stream).(sizeBytes := Some(size), url := Some(url))
  {
    SourceStream(stream.source, stream.title, stream.infoHash, stream.magnetUri, stream.quality,
                 stream.seeds, stream.peers, Some(size), stream.sizeDisplay, Some(url), stream.verified)
  }

  /** The stream for one cached file, named and classified after the file. */
  function FileLink(stream: SourceStream, file: FileEntry, basePath: string, resolveUrl: string -> string): SourceStream {
    WithLink(stream, file.fileSize, resolveUrl(LinkPath(basePath, stream.infoHash, file.fileNumber)))
      .(title := file.fileName, quality := QualityFromTitle(file.fileName))
  }

  /**
    * The branch the embellisher writes for a candidate whose `_tag` is not
    * "SourceStream": one stream per file above 10 MiB, in file order. No
    * stream has another tag, so `Transform` never takes this branch.
    */
  function PerFileStreams(stream: SourceStream, files: seq<FileEntry>, basePath: string,
                          resolveUrl: string -> string): (r: seq<SourceStream>)
    ensures |r| == |LargeFiles(files)|
    ensures forall i | 0 <= i < |r| ::
      var f := LargeFiles(files)[i];
      r[i].title == f.fileName && r[i].sizeBytes == Some(f.fileSize) && f.fileSize > MinFileSize
      && r[i].quality == QualityFromTitle(f.fileName)
      && r[i].url == Some(resolveUrl(LinkPath(basePath, stream.infoHash, f.fileNumber)))
    ensures (forall f | f in files :: f.fileSize <= MinFileSize) ==> r == []
  {
    var large := LargeFiles(files);
    seq(|large|, i requires 0 <= i < |large| => FileLink(stream, large[i], basePath, resolveUrl))
  }

  /**
    * What the embellisher falls back to when it cannot link: the candidate if
    * its `_tag` is "SourceStream", which holds for every stream, a stream
    * naming a file included.
    */
  function Fallback(stream: SourceStream): (r: seq<SourceStream>)
    ensures r == [stream]
  {
    if stream.Tag() == "SourceStream" then [stream] else []
  }

  /**
    * The embellisher's `transform` for a candidate whose availability request
    * was answered with `availability`, for a premium (or not) account.
    * `resolveUrl` stands for resolving a path against the add-on's base URL.
    * Every candidate passes the `_tag` test, so every candidate, a stream
    * naming a file included, is linked to the first cached file and becomes a
    * plain stream. A cached torrent whose first variant lists no file drops
    * the candidate.
    */
  function Transform(stream: SourceStream, basePath: string, resolveUrl: string -> string,
                     premium: bool, availability: Exit<Option<seq<FileEntry>>>): (r: seq<SourceStream>)
    ensures !premium || availability.Failure? ==> r == [stream]
    ensures premium && availability == Success(None) ==> r == []
    ensures premium && availability == Success(Some([])) ==> r == []
    ensures premium && availability.Success? && availability.value.Some? && availability.value.value != [] ==>
      var file := availability.value.value[0];
      r == [Plain(stream).(sizeBytes := Some(file.fileSize),
                           url := Some(resolveUrl(LinkPath(basePath, stream.infoHash, file.fileNumber))))]
    ensures |r| <= 1
    ensures premium && availability.Success? ==> forall s | s in r ::
      (s.SourceStream? && s.infoHash == stream.infoHash && s.title == stream.title && s.quality == stream.quality
       && s.source == stream.source && s.magnetUri == stream.magnetUri && s.seeds == stream.seeds
       && s.peers == stream.peers && s.verified == stream.verified)
  {
    if !premium || availability.Failure? then Fallback(stream)
    else match availability.value
      case None => []
      case Some(files) =>
        if stream.Tag() == "SourceStream" then
          if files == [] then []
          else
            var file := files[0];
            [WithLink(stream, file.fileSize, resolveUrl(LinkPath(basePath, stream.infoHash, file.fileNumber)))]
        else PerFileStreams(stream, files, basePath, resolveUrl)
  }

  /**
    * A stream naming one file of a season pack is linked to the first cached
    * file of its torrent, whatever its own file number, and loses that number.
    */
  lemma FileStreamLinksFirstFile(stream: SourceStream, basePath: string, resolveUrl: string -> string,
                                 files: seq<FileEntry>)
    requires stream.SourceStreamWithFile? && files != []
    ensures var r := Transform(stream, basePath, resolveUrl, true, Success(Some(files)));
      |r| == 1 && r[0].SourceStream?
      && r[0].url == Some(resolveUrl(LinkPath(basePath, stream.infoHash, files[0].fileNumber)))
      && r[0].title == stream.title && r[0].sizeBytes == Some(files[0].fileSize)
  {
  }

  // ---------------------------------------------------------------------------
  // The transform as written

  /**
    * The transform as the source has it: for every stream it reads `files[0]`
    * without checking that the list has an element, and on an empty list that
    * read throws. A throw inside `Effect.map` is a defect, which
    * `orElseSucceed` does not catch, so the whole list request fails. None
    * stands for that defect.
    */
  function TransformAsWritten(stream: SourceStream, basePath: string, resolveUrl: string -> string,
                              premium: bool, availability: Exit<Option<seq<FileEntry>>>): (r: Option<seq<SourceStream>>)
    ensures r.None? <==> premium && availability == Success(Some([]))
    ensures r.Some? ==> r.value == Transform(stream, basePath, resolveUrl, premium, availability)
  {
    if premium && availability == Success(Some([])) then None
    else Some(Transform(stream, basePath, resolveUrl, premium, availability))
  }

  /**
    * A body reachable from the service: the hash's record holds one host whose
    * only variant is an empty `Files` record. The lookup answers Some([]) and the
    * transform as written fails, where the corrected one drops the candidate.
    */
  lemma EmptyVariantFailsRequest(stream: SourceStream, basePath: string, resolveUrl: string -> string)
    requires stream.infoHash == "abc"
    ensures var availability := DecodeResponse(map["abc" := RecordValue([[[]]])]);
      Lookup(availability, stream.infoHash) == Some([])
      && TransformAsWritten(stream, basePath, resolveUrl, true, Success(Lookup(availability, stream.infoHash))).None?
      && Transform(stream, basePath, resolveUrl, true, Success(Lookup(availability, stream.infoHash))) == []
  {
    var availability := DecodeResponse(map["abc" := RecordValue([[[]]])]);
    assert ToLower("abc") == "abc";
    var hosts: seq<seq<Files>> := [[[]]];
    assert Decode(RecordValue(hosts)) == [[]] by {
      assert hosts[1..] == [];
    }
    assert availability["abc"] == [[]];
    assert Entries([]) == [];
  }
}
