/**
  * The gathering step of `listUncached` (src/Sources.ts) as the stream runs
  * it, chunk by chunk. `Stream.scan` applies `unsafeAdd` to a whole chunk of
  * streams before `takeUntil` looks at any state of that chunk, and every
  * state it emits is the one group object, so the stop test sees the group
  * only after the whole chunk went in.
  *
  * The chunks that reach the scan hold at most one stream each: the inner
  * `flatMap` gives every plain result a chunk of its own, and the streams of
  * one season pack, or of one embellished candidate, all carry one info hash,
  * of which the dedup step lets one through. For such chunks the chunked scan
  * is the element-wise scan `Sources.Fold`, which is what the rest of the
  * model uses; a chunk of several distinct streams would be taken whole and
  * could leave more than twelve streams.
  */
module ChunkedScan {
  import opened SourceStreams
  import opened QualityGroups
  import Sources

  /** Every stream of a chunk added in turn, with no stop test in between. */
  function AddAll(g: Group, ys: seq<SourceStream>): (r: Group)
    requires Valid(g)
    ensures Valid(r)
    ensures HasPresets(g) ==> HasPresets(r)
    decreases |ys|
  {
    if ys == [] then g
    else Add(AddAll(g, ys[..|ys| - 1]), ys[|ys| - 1])
  }

  /**
    * The scan as written, chunk by chunk: a group that has enough stays as it
    * is, and any other group takes the whole next chunk.
    */
  function ScanChunks(chunks: seq<seq<SourceStream>>): (g: Group)
    ensures Valid(g) && HasPresets(g)
    decreases |chunks|
  {
    if chunks == [] then Empty()
    else
      var g := ScanChunks(chunks[..|chunks| - 1]);
      if HasEnough(g) then g else AddAll(g, chunks[|chunks| - 1])
  }

  /** The streams a bucket holds, none for a label that is not a key. */
  function Held(g: Group, q: string): nat {
    if q in g.buckets then |g.buckets[q]| else 0
  }

  /** How many streams of a chunk carry a label. */
  function CountLabel(ys: seq<SourceStream>, q: string): nat
    decreases |ys|
  {
    if ys == [] then 0
    else CountLabel(ys[..|ys| - 1], q) + (if ys[|ys| - 1].quality == q then 1 else 0)
  }

  /** The chunk fits: no label would need more room than its bucket has left. */
  predicate Fits(g: Group, ys: seq<SourceStream>) {
    forall y | y in ys :: Held(g, y.quality) + CountLabel(ys, y.quality) <= BucketCapacity
  }

  /** A chunk that fits is taken in whole: every stream of it is added, and each bucket grows by its label's count. */
  lemma {:induction false} FittingChunkIsTakenWhole(g: Group, ys: seq<SourceStream>)
    requires Valid(g) && Fits(g, ys)
    ensures |Flatten(AddAll(g, ys))| == |Flatten(g)| + |ys|
    ensures forall q :: Held(AddAll(g, ys), q) == Held(g, q) + CountLabel(ys, q)
    decreases |ys|
  {
    if ys != [] {
      var init, y := ys[..|ys| - 1], ys[|ys| - 1];
      CountLabelOfInit(ys);
      FittingChunkIsTakenWhole(g, init);
      var h := AddAll(g, init);
      assert y in ys;
      assert Accepts(h, y);
      AddContents(h, y);
      AddHeld(h, y);
    }
  }

  /** Dropping a chunk's last stream keeps it fitting, and takes one off its label's count. */
  lemma CountLabelOfInit(ys: seq<SourceStream>)
    requires ys != []
    ensures forall q :: CountLabel(ys, q) == CountLabel(ys[..|ys| - 1], q) + (if ys[|ys| - 1].quality == q then 1 else 0)
    ensures forall g | Fits(g, ys) :: Fits(g, ys[..|ys| - 1])
  {
    var init := ys[..|ys| - 1];
    assert forall x | x in init :: x in ys;
  }

  /** A stream that is accepted adds one to its label's bucket and leaves the others as they were. */
  lemma AddHeld(g: Group, s: SourceStream)
    requires Valid(g) && Accepts(g, s)
    ensures forall q :: Held(Add(g, s), q) == Held(g, q) + (if s.quality == q then 1 else 0)
  {
  }

  /**
    * A first chunk of more than twelve streams that fits the empty group, such
    * as three 1080p, three 720p, three 2160p and three 1440p streams and one
    * 576p stream, is taken whole: the group ends with more than twelve streams.
    */
  lemma ChunkOvershootsTwelve(chunk: seq<SourceStream>)
    requires |chunk| > EnoughTotal
    requires forall y | y in chunk :: CountLabel(chunk, y.quality) <= BucketCapacity
    ensures |Flatten(ScanChunks([chunk]))| == |chunk| > EnoughTotal
  {
    var e := Empty();
    EmptyHoldsNothing();
    assert Fits(e, chunk);
    FittingChunkIsTakenWhole(e, chunk);
    FirstChunkIsAddedToEmpty(chunk);
  }

  /** The empty group holds no stream under any label. */
  lemma EmptyHoldsNothing()
    ensures forall q :: Held(Empty(), q) == 0
  {
  }

  /** The first chunk is added, in whole, to the empty group. */
  lemma FirstChunkIsAddedToEmpty(chunk: seq<SourceStream>)
    ensures ScanChunks([chunk]) == AddAll(Empty(), chunk)
  {
    assert [chunk][..0] == [];
    assert |Flatten(Empty())| == 0;
  }

  /** The streams of the chunks, one chunk after another. */
  function Streams(chunks: seq<seq<SourceStream>>): seq<SourceStream>
    decreases |chunks|
  {
    if chunks == [] then [] else Streams(chunks[..|chunks| - 1]) + chunks[|chunks| - 1]
  }

  /** Chunks of at most one stream each make the chunked scan the element-wise one, which stops in time. */
  lemma {:induction false} SmallChunksScanLikeFold(chunks: seq<seq<SourceStream>>)
    requires forall c | c in chunks :: |c| <= 1
    ensures ScanChunks(chunks) == Sources.Fold(Streams(chunks))
    decreases |chunks|
  {
    if chunks != [] {
      var init, last := chunks[..|chunks| - 1], chunks[|chunks| - 1];
      assert forall c | c in init :: c in chunks;
      assert last in chunks;
      SmallChunksScanLikeFold(init);
      ScanOneMoreChunk(init, last);
      InitAndLast(chunks);
    }
  }

  /** One more chunk of at most one stream is one more step of the element-wise scan, or none. */
  lemma ScanOneMoreChunk(init: seq<seq<SourceStream>>, last: seq<SourceStream>)
    requires |last| <= 1
    requires ScanChunks(init) == Sources.Fold(Streams(init))
    ensures ScanChunks(init + [last]) == Sources.Fold(Streams(init + [last]))
  {
    if last != [] {
      var y := last[0];
      Singleton(last);
      ChunksSnoc(init, last);
      ScanOneMoreStream(init, y);
      Sources.FoldSnoc(Streams(init), y);
    } else {
      ChunksSnoc(init, last);
      assert Streams(init) + last == Streams(init);
    }
  }

  /** A non-empty list is its front and its last element. */
  lemma InitAndLast<T>(s: seq<T>)
    requires s != []
    ensures s == s[..|s| - 1] + [s[|s| - 1]]
  {
  }

  /** A list of one element is that element. */
  lemma Singleton<T>(s: seq<T>)
    requires |s| == 1
    ensures s == [s[0]]
  {
  }

  /** A chunk of one stream is one step of the element-wise scan. */
  lemma ScanOneMoreStream(init: seq<seq<SourceStream>>, y: SourceStream)
    requires ScanChunks(init) == Sources.Fold(Streams(init))
    ensures ScanChunks(init + [[y]]) == Sources.Step(ScanChunks(init), y)
  {
    ChunksSnoc(init, [y]);
    var g := ScanChunks(init);
    assert AddAll(g, [y]) == Add(AddAll(g, []), y);
  }

  /** The scan and the streams of one more chunk, unfolded once. */
  lemma ChunksSnoc(init: seq<seq<SourceStream>>, last: seq<SourceStream>)
    ensures ScanChunks(init + [last]) ==
      (if HasEnough(ScanChunks(init)) then ScanChunks(init) else AddAll(ScanChunks(init), last))
    ensures Streams(init + [last]) == Streams(init) + last
  {
    var chunks := init + [last];
    assert chunks[..|chunks| - 1] == init && chunks[|chunks| - 1] == last;
  }
}
