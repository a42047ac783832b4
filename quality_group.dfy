/**
  * Quality buckets (src/Domain/QualityGroup.ts): a record from quality label to
  * the streams kept for it, at most three per label, updated in place as
  * streams arrive, with a test that says when enough streams have been kept.
  *
  * `Group` is the value of such a record: its keys in insertion order (the
  * order `Object.values` lists them in, as no label is an array index) and the
  * list under each key. The class `QualityGroup` is the mutable record itself.
  */
module QualityGroups {
  import opened SourceStreams

  /** The labels `empty()` starts with, in order. */
  const PresetKeys: seq<string> := ["3D", "2160p HDR", "2160p", "1080p", "720p", "480p"]

  /** The most streams a bucket accepts. */
  const BucketCapacity: nat := 3

  /** The total that is always enough. */
  const EnoughTotal: nat := 12

  datatype Group = Group(keys: seq<string>, buckets: map<string, seq<SourceStream>>)

  predicate DistinctKeys(keys: seq<string>) {
    forall i, j | 0 <= i < j < |keys| :: keys[i] != keys[j]
  }

  /** The keys list each key of the record exactly once. */
  ghost predicate Valid(g: Group) {
    DistinctKeys(g.keys) && forall k :: k in g.keys <==> k in g.buckets
  }

  /** The six preset labels are keys. */
  predicate HasPresets(g: Group) {
    forall k | k in PresetKeys :: k in g.buckets
  }

  /** No bucket holds more than three streams. */
  predicate Bounded(g: Group) {
    forall k | k in g.buckets :: |g.buckets[k]| <= BucketCapacity
  }

  /** The concatenation of the buckets named by `keys`, in that order. */
  function FlattenKeys(keys: seq<string>, buckets: map<string, seq<SourceStream>>): seq<SourceStream>
    requires forall k | k in keys :: k in buckets
  {
    if keys == [] then [] else buckets[keys[0]] + FlattenKeys(keys[1..], buckets)
  }

  /** `Object.values(group).flat()`: every kept stream, bucket by bucket in key order. */
  function Flatten(g: Group): seq<SourceStream>
    requires Valid(g)
  {
    FlattenKeys(g.keys, g.buckets)
  }

  /** `empty()`: the six preset labels, each with no stream. */
  function Empty(): (g: Group)
    ensures Valid(g) && HasPresets(g) && Bounded(g)
    ensures g.keys == PresetKeys
    ensures forall k | k in g.buckets :: g.buckets[k] == []
    ensures Flatten(g) == []
  {
    var g := Group(PresetKeys, map k | k in PresetKeys :: []);
    FlattenKeysOfEmptyBuckets(g.keys, g.buckets);
    g
  }

  /** Whether `unsafeAdd` keeps the stream: its label is new, or its bucket has room. */
  predicate Accepts(g: Group, s: SourceStream) {
    s.quality !in g.buckets || |g.buckets[s.quality]| < BucketCapacity
  }

  /**
    * `unsafeAdd` as a value: a new label gets a bucket holding the stream, a
    * bucket with room gets the stream at its end, and a full bucket drops it.
    */
  function Add(g: Group, s: SourceStream): (r: Group)
    requires Valid(g)
    ensures Valid(r)
    ensures s.quality in r.buckets
    ensures forall k | k in g.buckets && k != s.quality :: k in r.buckets && r.buckets[k] == g.buckets[k]
    ensures forall k | k in r.buckets && k != s.quality :: k in g.buckets
    ensures |g.keys| <= |r.keys| && r.keys[..|g.keys|] == g.keys
    ensures !Accepts(g, s) ==> r == g
    ensures s.quality !in g.buckets ==> r.keys == g.keys + [s.quality] && r.buckets[s.quality] == [s]
    ensures s.quality in g.buckets && |g.buckets[s.quality]| < BucketCapacity ==>
      r.keys == g.keys && r.buckets[s.quality] == g.buckets[s.quality] + [s]
  {
    var q := s.quality;
    if q !in g.buckets then Group(g.keys + [q], g.buckets[q := [s]])
    else if |g.buckets[q]| < BucketCapacity then Group(g.keys, g.buckets[q := g.buckets[q] + [s]])
    else g
  }

  /** `hasEnough`: two HDR, three 2160p and three 1080p streams, or twelve streams in all. */
  predicate HasEnough(g: Group)
    requires Valid(g) && HasPresets(g)
  {
    (|g.buckets["2160p HDR"]| >= 2 && |g.buckets["2160p"]| >= 3 && |g.buckets["1080p"]| >= 3)
    || |Flatten(g)| >= EnoughTotal
  }

  // ---------------------------------------------------------------------------
  // Flatten lemmas

  lemma {:induction false} FlattenKeysConcat(k1: seq<string>, k2: seq<string>, b: map<string, seq<SourceStream>>)
    requires forall k | k in k1 + k2 :: k in b
    ensures FlattenKeys(k1 + k2, b) == FlattenKeys(k1, b) + FlattenKeys(k2, b)
    decreases |k1|
  {
    if k1 != [] {
      assert (k1 + k2)[0] == k1[0] && (k1 + k2)[1..] == k1[1..] + k2;
      FlattenKeysConcat(k1[1..], k2, b);
    } else {
      assert k1 + k2 == k2;
    }
  }

  lemma {:induction false} FlattenKeysOfEmptyBuckets(keys: seq<string>, b: map<string, seq<SourceStream>>)
    requires forall k | k in keys :: k in b && b[k] == []
    ensures FlattenKeys(keys, b) == []
    decreases |keys|
  {
    if keys != [] {
      FlattenKeysOfEmptyBuckets(keys[1..], b);
    }
  }

  lemma {:induction false} FlattenKeysIgnoresOtherKey(keys: seq<string>, b: map<string, seq<SourceStream>>, q: string, v: seq<SourceStream>)
    requires forall k | k in keys :: k in b
    requires q !in keys
    ensures FlattenKeys(keys, b[q := v]) == FlattenKeys(keys, b)
    decreases |keys|
  {
    if keys != [] {
      FlattenKeysIgnoresOtherKey(keys[1..], b, q, v);
    }
  }

  lemma {:induction false} FlattenKeysGrowBucket(keys: seq<string>, b: map<string, seq<SourceStream>>, q: string, s: SourceStream)
    requires forall k | k in keys :: k in b
    requires DistinctKeys(keys) && q in keys
    ensures multiset(FlattenKeys(keys, b[q := b[q] + [s]])) == multiset(FlattenKeys(keys, b)) + multiset{s}
    decreases |keys|
  {
    var b' := b[q := b[q] + [s]];
    if keys[0] == q {
      assert q !in keys[1..] by {
        forall i | 0 <= i < |keys[1..]| ensures keys[1..][i] != q { assert keys[i + 1] != keys[0]; }
      }
      FlattenKeysIgnoresOtherKey(keys[1..], b, q, b[q] + [s]);
    } else {
      FlattenKeysGrowBucket(keys[1..], b, q, s);
    }
  }

  lemma {:induction false} FlattenKeysInsert(keys: seq<string>, b: map<string, seq<SourceStream>>, q: string, s: SourceStream)
    returns (p: nat)
    requires forall k | k in keys :: k in b
    requires DistinctKeys(keys) && q in keys
    ensures p <= |FlattenKeys(keys, b)|
    ensures FlattenKeys(keys, b[q := b[q] + [s]]) == FlattenKeys(keys, b)[..p] + [s] + FlattenKeys(keys, b)[p..]
    decreases |keys|
  {
    var b' := b[q := b[q] + [s]];
    var rest := FlattenKeys(keys[1..], b);
    if keys[0] == q {
      assert q !in keys[1..] by {
        forall i | 0 <= i < |keys[1..]| ensures keys[1..][i] != q { assert keys[i + 1] != keys[0]; }
      }
      FlattenKeysIgnoresOtherKey(keys[1..], b, q, b[q] + [s]);
      p := |b[q]|;
      assert FlattenKeys(keys, b) == b[q] + rest;
      assert (b[q] + rest)[..p] == b[q] && (b[q] + rest)[p..] == rest;
    } else {
      var p' := FlattenKeysInsert(keys[1..], b, q, s);
      var head := b[keys[0]];
      p := |head| + p';
      assert FlattenKeys(keys, b) == head + rest;
      assert (head + rest)[..p] == head + rest[..p'];
      assert (head + rest)[p..] == rest[p'..];
    }
  }

  /**
    * An accepted stream is inserted somewhere into the contents, which keep
    * their order: at the end of its own bucket, or at the very end for a new label.
    */
  lemma AddInserts(g: Group, s: SourceStream) returns (p: nat)
    requires Valid(g) && Accepts(g, s)
    ensures p <= |Flatten(g)|
    ensures Flatten(Add(g, s)) == Flatten(g)[..p] + [s] + Flatten(g)[p..]
  {
    var q := s.quality;
    if q !in g.buckets {
      FlattenKeysConcat(g.keys, [q], g.buckets[q := [s]]);
      FlattenKeysIgnoresOtherKey(g.keys, g.buckets, q, [s]);
      assert FlattenKeys([q], g.buckets[q := [s]]) == [s];
      p := |Flatten(g)|;
      assert Flatten(g)[..p] == Flatten(g) && Flatten(g)[p..] == [];
    } else {
      p := FlattenKeysInsert(g.keys, g.buckets, q, s);
    }
  }

  /** The contents after an add: the old contents, plus the stream exactly when it was accepted. */
  lemma AddContents(g: Group, s: SourceStream)
    requires Valid(g)
    ensures multiset(Flatten(Add(g, s))) ==
      multiset(Flatten(g)) + (if Accepts(g, s) then multiset{s} else multiset{})
    ensures |Flatten(Add(g, s))| == |Flatten(g)| + (if Accepts(g, s) then 1 else 0)
  {
    var q := s.quality;
    if q !in g.buckets {
      FlattenKeysConcat(g.keys, [q], g.buckets[q := [s]]);
      FlattenKeysIgnoresOtherKey(g.keys, g.buckets, q, [s]);
      assert FlattenKeys([q], g.buckets[q := [s]]) == [s];
    } else if |g.buckets[q]| < BucketCapacity {
      FlattenKeysGrowBucket(g.keys, g.buckets, q, s);
    }
    var before, after := Flatten(g), Flatten(Add(g, s));
    assert |after| == |multiset(after)|;
    assert |before| == |multiset(before)|;
  }

  /** Adding keeps the presets, keeps every bucket at most three long, and grows the total by at most one. */
  lemma AddPreserves(g: Group, s: SourceStream)
    requires Valid(g) && HasPresets(g) && Bounded(g)
    ensures HasPresets(Add(g, s)) && Bounded(Add(g, s))
    ensures |Flatten(g)| <= |Flatten(Add(g, s))| <= |Flatten(g)| + 1
  {
    AddContents(g, s);
  }

  /** Once a group has enough, it keeps having enough whatever is added. */
  lemma HasEnoughIsStable(g: Group, s: SourceStream)
    requires Valid(g) && HasPresets(g)
    requires HasEnough(g)
    ensures HasPresets(Add(g, s)) && HasEnough(Add(g, s))
  {
    AddContents(g, s);
  }

  // ---------------------------------------------------------------------------
  // The mutable record

  /** A quality group that `unsafeAdd` updates in place. */
  class QualityGroup {
    var keys: seq<string>
    var buckets: map<string, seq<SourceStream>>

    function Value(): Group
      reads this
    {
      Group(keys, buckets)
    }

    /** `empty()`. */
    constructor ()
      ensures Value() == Empty()
    {
      keys := PresetKeys;
      buckets := map k | k in PresetKeys :: [];
    }

    /** `unsafeAdd(self, stream)`: updates this record in place and returns it. */
    method UnsafeAdd(stream: SourceStream) returns (self: QualityGroup)
      requires Valid(Value())
      modifies this
      ensures self == this
      ensures Value() == Add(old(Value()), stream)
    {
      var q := stream.quality;
      if q !in buckets {
        keys := keys + [q];
        buckets := buckets[q := [stream]];
      } else if |buckets[q]| < BucketCapacity {
        buckets := buckets[q := buckets[q] + [stream]];
      }
      self := this;
    }
  }
}
