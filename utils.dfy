/**
  * Magnet links, quality classification of free-text titles and the request
  * wrapper the caches key on (src/Utils.ts), plus the cache lifetimes that the
  * time-to-live policies of the other modules choose from.
  */
module Utils {
  import opened Wrappers
  import opened Strings

  /** Cache lifetimes, in minutes. */
  type Minutes = nat

  const OneMinute: Minutes := 1
  const FiveMinutes: Minutes := 5
  const ThreeHours: Minutes := 3 * 60
  const SixHours: Minutes := 6 * 60
  const TwelveHours: Minutes := 12 * 60
  const ThreeDays: Minutes := 3 * 24 * 60
  const OneWeek: Minutes := 7 * 24 * 60

  /**
    * The announce list of every magnet link built here: the eight tracker URLs,
    * each percent-encoded, joined by "&tr=" behind a leading "tr=".
    */
  const Trackers: string :=
    "tr=udp%3A%2F%2Fglotorrents.pw%3A6969%2Fannounce"
    + "&tr=udp%3A%2F%2Ftracker.opentrackr.org%3A1337%2Fannounce"
    + "&tr=udp%3A%2F%2Ftorrent.gresille.org%3A80%2Fannounce"
    + "&tr=udp%3A%2F%2Ftracker.openbittorrent.com%3A80"
    + "&tr=udp%3A%2F%2Ftracker.coppersurfer.tk%3A6969"
    + "&tr=udp%3A%2F%2Ftracker.leechers-paradise.org%3A6969"
    + "&tr=udp%3A%2F%2Fp4p.arenabg.ch%3A1337"
    + "&tr=udp%3A%2F%2Ftracker.internetwarriors.net%3A1337"

  const MagnetScheme: string := "magnet:?xt="
  const Btih: string := "urn:btih:"

  function MagnetFromHash(hash: string): string {
    MagnetScheme + Btih + hash + "&" + Trackers
  }

  // ---------------------------------------------------------------------------
  // infoHashFromMagnet: the first match of /urn:btih:([^&]+)/, group 1

  /** The pattern matches at `i`: "urn:btih:" followed by at least one character other than '&'. */
  predicate BtihAt(s: string, i: int) {
    OccursAt(s, Btih, i) && i + |Btih| < |s| && s[i + |Btih|] != '&'
  }

  function FirstBtih(s: string, from: nat): (k: int)
    ensures k == -1 || (from <= k && BtihAt(s, k))
    ensures k == -1 ==> forall j :: from <= j ==> !BtihAt(s, j)
    ensures k != -1 ==> forall j :: from <= j < k ==> !BtihAt(s, j)
    decreases |s| - from
  {
    if |s| <= from + |Btih| then -1
    else if BtihAt(s, from) then from
    else FirstBtih(s, from + 1)
  }

  /** The longest run of characters other than '&' that starts at `i` (the greedy `[^&]+`). */
  function RunUntilAmpersand(s: string, i: nat): (r: string)
    requires i <= |s|
    ensures i + |r| <= |s| && r == s[i..i + |r|]
    ensures '&' !in r
    ensures i + |r| == |s| || s[i + |r|] == '&'
    decreases |s| - i
  {
    if i == |s| || s[i] == '&' then "" else [s[i]] + RunUntilAmpersand(s, i + 1)
  }

  /** The info hash a magnet link names, or "" when it names none. */
  function InfoHashFromMagnet(magnet: string): (h: string)
    ensures h == "" <==> forall j :: !BtihAt(magnet, j)
    ensures h != "" ==>
      exists k :: BtihAt(magnet, k) && (forall j :: 0 <= j < k ==> !BtihAt(magnet, j))
        && h == RunUntilAmpersand(magnet, k + |Btih|)
  {
    var k := FirstBtih(magnet, 0);
    if k == -1 then "" else RunUntilAmpersand(magnet, k + |Btih|)
  }

  /** The run of non-'&' characters in front of an '&' is exactly that prefix. */
  lemma {:induction false} RunBeforeAmpersand(s: string, i: nat, h: string)
    requires i + |h| < |s| && s[i..i + |h|] == h && '&' !in h && s[i + |h|] == '&'
    ensures RunUntilAmpersand(s, i) == h
    decreases |h|
  {
    if h != [] {
      assert s[i] == h[0];
      assert s[i + 1..i + 1 + |h[1..]|] == h[1..];
      RunBeforeAmpersand(s, i + 1, h[1..]);
      assert [h[0]] + h[1..] == h;
    }
  }

  /** The hash is read back from any link that starts with the scheme, "urn:btih:", the hash and '&'. */
  lemma HashAfterScheme(hash: string, rest: string)
    requires hash != "" && '&' !in hash
    ensures InfoHashFromMagnet(MagnetScheme + Btih + hash + "&" + rest) == hash
  {
    var m := MagnetScheme + Btih + hash + "&" + rest;
    var k := |MagnetScheme|;
    assert m[..k] == MagnetScheme;
    assert m[k..k + |Btih|] == Btih;
    assert m[k + |Btih|..k + |Btih| + |hash|] == hash;
    assert m[k + |Btih| + |hash|] == '&';
    assert BtihAt(m, k);
    forall j | 0 <= j < k
      ensures !BtihAt(m, j)
    {
      assert m[j] == MagnetScheme[j];
    }
    assert FirstBtih(m, 0) == k;
    RunBeforeAmpersand(m, k + |Btih|, hash);
  }

  /** Reading the hash back out of a magnet link built from it gives the hash. */
  lemma MagnetRoundTrip(hash: string)
    requires hash != "" && '&' !in hash
    ensures InfoHashFromMagnet(MagnetFromHash(hash)) == hash
  {
    HashAfterScheme(hash, Trackers);
  }

  // ---------------------------------------------------------------------------
  // qualityFromTitle: the first match of /\d{3,4}p/

  /** `n` decimal digits followed by 'p' start at `i`. */
  predicate DigitsThenP(s: string, i: int, n: nat) {
    0 <= i && i + n < |s| && AllDigits(s[i..i + n]) && s[i + n] == 'p'
  }

  /** The pattern matches at `i` with three or with four digits. */
  predicate ResolutionAt(s: string, i: int) {
    DigitsThenP(s, i, 4) || DigitsThenP(s, i, 3)
  }

  function FirstResolution(s: string, from: nat): (k: int)
    ensures k == -1 || (from <= k && ResolutionAt(s, k))
    ensures k == -1 ==> forall j :: from <= j ==> !ResolutionAt(s, j)
    ensures k != -1 ==> forall j :: from <= j < k ==> !ResolutionAt(s, j)
    decreases |s| - from
  {
    if |s| <= from then -1
    else if ResolutionAt(s, from) then from
    else FirstResolution(s, from + 1)
  }

  /** A label the classifier can produce besides "N/A": three or four digits and a 'p'. */
  predicate IsResolutionLabel(q: string) {
    (|q| == 4 || |q| == 5) && q[|q| - 1] == 'p' && AllDigits(q[..|q| - 1])
  }

  /** The leftmost match starts at `k`, and at `k` the greedy `\d{3,4}` takes four digits when it can. */
  predicate LeftmostGreedyMatch(title: string, k: int, q: string) {
    ResolutionAt(title, k)
    && (forall j :: 0 <= j < k ==> !ResolutionAt(title, j))
    && |q| == (if DigitsThenP(title, k, 4) then 5 else 4)
    && q == title[k..k + |q|]
  }

  function QualityFromTitle(title: string): (q: string)
    ensures q == "N/A" || IsResolutionLabel(q)
    ensures q == "N/A" <==> forall j :: !ResolutionAt(title, j)
    ensures q != "N/A" ==> exists k :: LeftmostGreedyMatch(title, k, q)
  {
    var k := FirstResolution(title, 0);
    if k == -1 then "N/A"
    else
      var n := if DigitsThenP(title, k, 4) then 4 else 3;
      var q := title[k..k + n + 1];
      assert q[..n] == title[k..k + n];
      assert LeftmostGreedyMatch(title, k, q);
      q
  }

  /** The classifier never yields the "3D" or "2160p HDR" labels. */
  lemma ClassifiedIsNeitherThreeDNorHdr(title: string)
    ensures QualityFromTitle(title) != "3D" && QualityFromTitle(title) != "2160p HDR"
  {
  }

  // ---------------------------------------------------------------------------
  // SpanRequest: the key of a traced cache call

  /** A cache request together with the tracing span it was made under. */
  datatype SpanRequest<K> = SpanRequest(span: Option<string>, request: K)

  /** Equality of two span requests ignores the span. */
  predicate SpanRequestEquals<K(==)>(a: SpanRequest<K>, b: SpanRequest<K>) {
    a.request == b.request
  }

  /** The hash of a span request is the hash of its inner request. */
  function SpanRequestHash<K>(r: SpanRequest<K>, hash: K -> int): int {
    hash(r.request)
  }

  /**
    * Equal span requests hash alike, and the span never separates two
    * requests: the same request under any other span is equal and hashes alike.
    */
  lemma SpanRequestHashConsistent<K>(a: SpanRequest<K>, b: SpanRequest<K>, hash: K -> int, span: Option<string>)
    ensures SpanRequestEquals(a, b) ==> SpanRequestHash(a, hash) == SpanRequestHash(b, hash)
    ensures SpanRequestEquals(a, SpanRequest(span, a.request))
    ensures SpanRequestHash(SpanRequest(span, a.request), hash) == SpanRequestHash(a, hash)
  {
  }
}
