/**
  * The candidates a provider yields (src/Domain/SourceStream.ts): a playable
  * stream, a stream that names one file of a multi-file torrent, and a whole
  * season pack; the order streams are ranked in; and the record a stream
  * becomes in the Stremio response.
  */
module SourceStreams {
  import opened Wrappers
  import opened Strings
  import opened Utils
  import Quality

  /**
    * A playable stream. The two constructors are the "SourceStream" and the
    * "SourceStreamWithFile" classes; the second carries every field of the first
    * and the position of its file in the torrent. An absent `verified` flag is false.
    * The second class is an extension of the first and keeps its `_tag` field,
    * so a `_tag` test does not tell the two apart.
    */
  datatype SourceStream =
    | SourceStream(source: string, title: string, infoHash: string, magnetUri: string,
                   quality: string, seeds: int, peers: int,
                   sizeBytes: Option<int>, sizeDisplay: Option<string>, url: Option<string>,
                   verified: bool)
    | SourceStreamWithFile(source: string, title: string, infoHash: string, magnetUri: string,
                           quality: string, seeds: int, peers: int,
                           sizeBytes: Option<int>, sizeDisplay: Option<string>, url: Option<string>,
                           verified: bool, fileNumber: int)
  {
    /** The `_tag` field, which the extended class inherits unchanged. */
    function Tag(): string {
      "SourceStream"
    }

    /** The size shown to the user; `bytesToSize` (floating point) is a parameter. */
    function SizeFormatted(bytesToSize: int -> string): (r: string)
      ensures sizeBytes.Some? && sizeBytes.value != 0 ==> r == bytesToSize(sizeBytes.value)
      ensures !(sizeBytes.Some? && sizeBytes.value != 0) ==>
        (sizeDisplay.Some? && sizeDisplay.value != "" ==> r == sizeDisplay.value)
      ensures !(sizeBytes.Some? && sizeBytes.value != 0) ==>
        (!(sizeDisplay.Some? && sizeDisplay.value != "") ==> r == "0B")
    {
      if sizeBytes.Some? && sizeBytes.value != 0 then bytesToSize(sizeBytes.value)
      else if sizeDisplay.Some? && sizeDisplay.value != "" then sizeDisplay.value
      else "0B"
    }

    /** The label shown to the user: the two 2160p labels read as 4K, every other label is kept. */
    function QualityFormatted(): (r: string)
      ensures quality == "2160p HDR" ==> r == "4K HDR"
      ensures quality == "2160p" ==> r == "4K"
      ensures quality != "2160p HDR" && quality != "2160p" ==> r == quality
    {
      match quality
      case "2160p HDR" => "4K HDR"
      case "2160p" => "4K"
      case _ => quality
    }

    /** Whether the stream carries a (non-empty) direct url. */
    predicate HasUrl() {
      url.Some? && url.value != ""
    }

    /** The Stremio stream record the add-on answers with. */
    function AsStremio(bytesToSize: int -> string): (r: StremioStream)
      ensures r.url == url && r.infoHash == infoHash
      ensures r.name == QualityFormatted() + (if HasUrl() then Sparkle else "")
      ensures r.bingeGroup == "effect-" + quality
      ensures r.title == SizeFormatted(bytesToSize) + "  " + UpArrow + " " + IntToString(seeds)
    {
      StremioStream(
        url, infoHash,
        SizeFormatted(bytesToSize) + "  " + UpArrow + " " + IntToString(seeds),
        QualityFormatted() + (if HasUrl() then Sparkle else ""),
        "effect-" + quality)
    }
  }

  /** The " ✨" suffix that marks a stream with a direct url. */
  const Sparkle: string := " \U{2728}"

  /** The "⬆️" in front of the seed count. */
  const UpArrow: string := "\U{2B06}\U{FE0F}"

  /** The fields of a Stremio stream object the add-on fills in. */
  datatype StremioStream = StremioStream(
    url: Option<string>, infoHash: string, title: string, name: string, bingeGroup: string)

  /** A season pack: its streams are the files of the torrent it names. */
  datatype SourceSeason = SourceSeason(source: string, title: string, infoHash: string,
                                       magnetUri: string, seeds: int, peers: int, verified: bool)
  {
    /** A season's quality is always classified from its title. */
    function Quality(): (q: string)
      ensures q == QualityFromTitle(title)
      ensures q == "N/A" || IsResolutionLabel(q)
    {
      QualityFromTitle(title)
    }
  }

  /** What a provider yields for a query. */
  datatype SourceResult = Stream(stream: SourceStream) | Season(season: SourceSeason)
  {
    /** The `_tag` of the value: a season pack is a "SourceSeason". */
    function Tag(): (t: string)
      ensures t == "SourceStream" <==> this.Stream?
      ensures this.Season? ==> t == "SourceSeason"
    {
      match this
      case Stream(s) => s.Tag()
      case Season(_) => "SourceSeason"
    }
  }

  // ---------------------------------------------------------------------------
  // Order: quality first, then seeds descending

  /** The stream order: by quality rank, ties broken by more seeds first. */
  function Compare(a: SourceStream, b: SourceStream): (c: int)
    ensures c == -1 || c == 0 || c == 1
    ensures c < 0 <==> Quality.Priority(a.quality) < Quality.Priority(b.quality)
                       || (Quality.Priority(a.quality) == Quality.Priority(b.quality) && a.seeds > b.seeds)
    ensures c == 0 <==> Quality.Priority(a.quality) == Quality.Priority(b.quality) && a.seeds == b.seeds
  {
    var byQuality := Quality.Compare(a.quality, b.quality);
    if byQuality != 0 then byQuality
    else if b.seeds < a.seeds then -1
    else if b.seeds > a.seeds then 1
    else 0
  }

  /** `a` may come before `b` in a sorted list. */
  predicate Le(a: SourceStream, b: SourceStream) {
    Compare(a, b) <= 0
  }

  /** The stream order is a total preorder, so sorting by it is well defined. */
  lemma CompareIsTotalPreorder(a: SourceStream, b: SourceStream, c: SourceStream)
    ensures Compare(a, a) == 0
    ensures Compare(a, b) == -Compare(b, a)
    ensures Le(a, b) || Le(b, a)
    ensures Le(a, b) && Le(b, c) ==> Le(a, c)
  {
  }

  /** Among streams of the same quality, the one with more seeds ranks first. */
  lemma MoreSeedsFirst(a: SourceStream, b: SourceStream)
    requires a.quality == b.quality && a.seeds > b.seeds
    ensures Compare(a, b) == -1 && Compare(b, a) == 1
  {
  }

  /**
    * For a stream whose label came from the title classifier, the name ends with
    * the sparkle exactly when the stream has a direct url.
    */
  lemma {:induction false} NameMarksDirectUrl(s: SourceStream, bytesToSize: int -> string)
    requires s.quality == QualityFromTitle(s.title)
    ensures EndsWith(s.AsStremio(bytesToSize).name, Sparkle) <==> s.HasUrl()
  {
    var name := s.AsStremio(bytesToSize).name;
    var f := s.QualityFormatted();
    if s.HasUrl() {
      assert name == f + Sparkle;
      assert name[|name| - |Sparkle|..] == Sparkle;
    } else {
      assert name == f;
      if EndsWith(f, Sparkle) {
        assert f[|f| - 1] == Sparkle[|Sparkle| - 1];
        ClassifiedLastChar(s.title);
        assert false;
      }
    }
  }

  /** A classified label ends in 'p' or is "N/A", and so does its display form. */
  lemma ClassifiedLastChar(title: string)
    ensures var q := QualityFromTitle(title);
      |q| > 0 && (q[|q| - 1] == 'p' || q[|q| - 1] == 'A')
  {
  }
}
