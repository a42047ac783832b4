/**
  * The stream requests of the add-on (src/Stremio.ts): the four kinds of
  * request, the string that identifies a request in the persisted cache, and
  * how the `/stream/:type/:id.json` route turns its two parameters into a
  * request.
  */
module Stremio {
  import opened Wrappers
  import opened Strings

  datatype StreamRequest =
    | Channel(id: string)
    | Movie(imdbId: string)
    | Series(imdbId: string, season: nat, episode: nat)
    | Tv(imdbId: string)

  /** `streamRequestId`: the kind, a colon, and the fields joined by colons. */
  function StreamRequestId(r: StreamRequest): (s: string)
    ensures r.Channel? ==> s == "Channel:" + r.id
    ensures r.Movie? ==> s == "Movie:" + r.imdbId
    ensures r.Series? ==> s == "Series:" + r.imdbId + ":" + NatToString(r.season) + ":" + NatToString(r.episode)
    ensures r.Tv? ==> s == "Tv:" + r.imdbId
  {
    match r
    case Channel(id) => "Channel:" + id
    case Movie(imdbId) => "Movie:" + imdbId
    case Series(imdbId, season, episode) =>
      "Series:" + imdbId + ":" + NatToString(season) + ":" + NatToString(episode)
    case Tv(imdbId) => "Tv:" + imdbId
  }

  /** Splitting at the last separator: what follows it holds no separator, so it is determined. */
  lemma LastSeparator(a: string, b: string, c: string, d: string, sep: char)
    requires sep !in b && sep !in d
    requires a + [sep] + b == c + [sep] + d
    ensures a == c && b == d
  {
    var s := a + [sep] + b;
    assert forall k | |a| < k < |s| :: s[k] == b[k - |a| - 1];
    assert forall k | |c| < k < |s| :: s[k] == d[k - |c| - 1];
    assert s[|a|] == sep && s[|c|] == sep;
    assert |a| == |c|;
    assert a == s[..|a|] == c;
    assert b == s[|a| + 1..] == d;
  }

  /** Two series ids are equal only for the same imdb id, season and episode. */
  lemma SeriesIdInjective(i1: string, s1: nat, e1: nat, i2: string, s2: nat, e2: nat)
    requires StreamRequestId(Series(i1, s1, e1)) == StreamRequestId(Series(i2, s2, e2))
    ensures i1 == i2 && s1 == s2 && e1 == e2
  {
    var x1, x2 := i1 + ":" + NatToString(s1), i2 + ":" + NatToString(s2);
    assert StreamRequestId(Series(i1, s1, e1)) == "Series:" + x1 + ":" + NatToString(e1);
    assert StreamRequestId(Series(i2, s2, e2)) == "Series:" + x2 + ":" + NatToString(e2);
    assert ("Series:" + x1) + [':'] + NatToString(e1) == ("Series:" + x2) + [':'] + NatToString(e2);
    NoColonInDecimal(e1);
    NoColonInDecimal(e2);
    LastSeparator("Series:" + x1, NatToString(e1), "Series:" + x2, NatToString(e2), ':');
    assert x1 == ("Series:" + x1)[7..] == ("Series:" + x2)[7..] == x2;
    assert i1 + [':'] + NatToString(s1) == i2 + [':'] + NatToString(s2);
    NoColonInDecimal(s1);
    NoColonInDecimal(s2);
    LastSeparator(i1, NatToString(s1), i2, NatToString(s2), ':');
    NatToStringInjective(s1, s2);
    NatToStringInjective(e1, e2);
  }

  /** Distinct requests have distinct ids, so the id can stand for the request as a cache key. */
  lemma StreamRequestIdInjective(r1: StreamRequest, r2: StreamRequest)
    requires StreamRequestId(r1) == StreamRequestId(r2)
    ensures r1 == r2
  {
    var s := StreamRequestId(r1);
    assert s[0] == StreamRequestId(r2)[0];
    match r1
    case Series(i1, s1, e1) =>
      SeriesIdInjective(i1, s1, e1, r2.imdbId, r2.season, r2.episode);
    case Channel(id) =>
      assert id == s[8..] == r2.id;
    case Movie(imdbId) =>
      assert imdbId == s[6..] == r2.imdbId;
    case Tv(imdbId) =>
      assert imdbId == s[3..] == r2.imdbId;
  }

  lemma NoColonInDecimal(n: nat)
    ensures ':' !in NatToString(n)
  {
    var s := NatToString(n);
    forall i | 0 <= i < |s| ensures s[i] != ':' {
      assert IsDigit(s[i]);
    }
  }

  // ---------------------------------------------------------------------------
  // The /stream route

  /**
    * Unary `+` on a route field that is a run of decimal digits (the empty
    * string reads as 0); any other field reads as None.
    */
  function ParseNumber(field: Option<string>): (n: Option<nat>)
    ensures n.Some? <==> field.Some? && AllDigits(field.value)
    ensures n.Some? ==> n.value == DigitsValue(field.value)
  {
    if field.Some? && AllDigits(field.value) then Some(DigitsValue(field.value)) else None
  }

  /** The element at `i` of the result of `split`, or None where the array has no such element. */
  function Field(parts: seq<string>, i: nat): (f: Option<string>)
    ensures f.Some? <==> i < |parts|
    ensures i < |parts| ==> f.value == parts[i]
  {
    if i < |parts| then Some(parts[i]) else None
  }

  /**
    * The request the route builds from its `type` and `id` parameters; None
    * for a type the switch has no case for, and for a series id whose season or
    * episode field is not a decimal number.
    */
  function Route(kind: string, id: string): (r: Option<StreamRequest>)
    ensures kind == "channel" ==> r == Some(Channel(id))
    ensures kind == "movie" ==> r == Some(Movie(id))
    ensures kind == "tv" ==> r == Some(Tv(id))
    ensures kind !in {"channel", "movie", "series", "tv"} ==> r.None?
    ensures kind == "series" && r.Some? ==> r.value.Series? && r.value.imdbId == Split(id, ':')[0]
  {
    match kind
    case "channel" => Some(Channel(id))
    case "movie" => Some(Movie(id))
    case "series" =>
      var parts := Split(id, ':');
      var season := ParseNumber(Field(parts, 1));
      var episode := ParseNumber(Field(parts, 2));
      if season.Some? && episode.Some? then Some(Series(parts[0], season.value, episode.value)) else None
    case "tv" => Some(Tv(id))
    case _ => None
  }

  /**
    * A series id "imdbId:season:episode" whose imdb id holds no colon parses
    * back into exactly that request, whose cache id is "Series:" and the route id.
    */
  lemma SeriesRouteRoundTrip(imdbId: string, season: nat, episode: nat)
    requires ':' !in imdbId
    ensures var id := imdbId + ":" + NatToString(season) + ":" + NatToString(episode);
      Route("series", id) == Some(Series(imdbId, season, episode))
      && StreamRequestId(Route("series", id).value) == "Series:" + id
  {
    var s, e := NatToString(season), NatToString(episode);
    var id := imdbId + ":" + s + ":" + e;
    SplitSeriesId(imdbId, season, episode);
    var parts := Split(id, ':');
    DigitsValueOfNatToString(season);
    DigitsValueOfNatToString(episode);
    assert Field(parts, 1) == Some(s) && Field(parts, 2) == Some(e);
    assert "Series:" + imdbId + ":" + s + ":" + e == "Series:" + id;
  }

  /** A series route id splits at its two colons into the imdb id, the season and the episode. */
  lemma SplitSeriesId(imdbId: string, season: nat, episode: nat)
    requires ':' !in imdbId
    ensures Split(imdbId + ":" + NatToString(season) + ":" + NatToString(episode), ':')
      == [imdbId, NatToString(season), NatToString(episode)]
  {
    var s, e := NatToString(season), NatToString(episode);
    var id := imdbId + ":" + s + ":" + e;
    NoColonInDecimal(season);
    NoColonInDecimal(episode);
    assert id == imdbId + [':'] + (s + [':'] + e);
    SplitAtSeparator(imdbId, ':', s + [':'] + e);
    SplitAtSeparator(s, ':', e);
    SplitNoSeparator(e, ':');
  }
}
