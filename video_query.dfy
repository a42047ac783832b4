/**
  * The queries the add-on asks its providers (src/Domain/VideoQuery.ts): ten
  * variants, each with the search string it is sent as, the token a result
  * title must contain to match it, and for season queries the episode query
  * they narrow down to. The regular expression of the title matcher is written
  * out as a scan.
  */
module VideoQueries {
  import opened Wrappers
  import opened Strings

  datatype VideoQuery =
    | SeriesQuery(title: string, season: nat, episode: nat)
    | AbsoluteSeriesQuery(title: string, number: nat)
    | ImdbSeriesQuery(imdbId: string, season: nat, episode: nat)
    | ImdbAbsoluteSeriesQuery(imdbId: string, number: nat)
    | SeasonQuery(title: string, season: nat, episode: nat)
    | ImdbSeasonQuery(imdbId: string, season: nat, episode: nat)
    | MovieQuery(title: string)
    | ImdbMovieQuery(imdbId: string)
    | ChannelQuery(id: string)
    | ImdbTvQuery(imdbId: string)
  {
    /** The `_tag` discriminant; the Imdb movie and tv variants carry "MovieQuery" and "TvQuery". */
    function Tag(): (t: string)
      ensures this.ImdbMovieQuery? ==> t == "MovieQuery"
      ensures this.ImdbTvQuery? ==> t == "TvQuery"
      ensures t == "MovieQuery" <==> this.MovieQuery? || this.ImdbMovieQuery?
    {
      match this
      case SeriesQuery(_, _, _) => "SeriesQuery"
      case AbsoluteSeriesQuery(_, _) => "AbsoluteSeriesQuery"
      case ImdbSeriesQuery(_, _, _) => "ImdbSeriesQuery"
      case ImdbAbsoluteSeriesQuery(_, _) => "ImdbAbsoluteSeriesQuery"
      case SeasonQuery(_, _, _) => "SeasonQuery"
      case ImdbSeasonQuery(_, _, _) => "ImdbSeasonQuery"
      case MovieQuery(_) => "MovieQuery"
      case ImdbMovieQuery(_) => "MovieQuery"
      case ChannelQuery(_) => "ChannelQuery"
      case ImdbTvQuery(_) => "TvQuery"
    }

    /** The `imdbId` field a handler reads: the id of the five Imdb variants, and nothing for the others. */
    function ImdbIdField(): (r: Option<string>)
      ensures r.Some? <==> this.ImdbSeriesQuery? || this.ImdbAbsoluteSeriesQuery? || this.ImdbSeasonQuery?
                           || this.ImdbMovieQuery? || this.ImdbTvQuery?
      ensures r.Some? ==> r.value == imdbId
    {
      match this
      case ImdbSeriesQuery(i, _, _) => Some(i)
      case ImdbAbsoluteSeriesQuery(i, _) => Some(i)
      case ImdbSeasonQuery(i, _, _) => Some(i)
      case ImdbMovieQuery(i) => Some(i)
      case ImdbTvQuery(i) => Some(i)
      case _ => None
    }

    /** The `category` getter; the channel and tv variants have none. */
    function Category(): (c: Option<string>)
      ensures c == Some("movie") <==> this.MovieQuery? || this.ImdbMovieQuery?
      ensures c.None? <==> this.ChannelQuery? || this.ImdbTvQuery?
    {
      match this
      case MovieQuery(_) => Some("movie")
      case ImdbMovieQuery(_) => Some("movie")
      case ChannelQuery(_) => None
      case ImdbTvQuery(_) => None
      case _ => Some("series")
    }

    /** The `asQuery` getter: the string sent to a provider's search. */
    function AsQuery(): (q: string)
      ensures (this.SeriesQuery? || this.SeasonQuery? || this.AbsoluteSeriesQuery?) ==>
        StartsWith(q, title + " ")
      ensures this.SeriesQuery? ==> q == title + " " + FormatEpisode(season, episode)
      ensures this.SeasonQuery? ==> q == title + " " + SeasonString(season)
      ensures this.AbsoluteSeriesQuery? ==> q == title + " " + NatToString(number)
      ensures this.MovieQuery? ==> q == title
      ensures this.ChannelQuery? ==> q == id
      ensures (this.ImdbSeriesQuery? || this.ImdbAbsoluteSeriesQuery? || this.ImdbSeasonQuery?
               || this.ImdbMovieQuery? || this.ImdbTvQuery?) ==> q == imdbId
    {
      match this
      case SeriesQuery(t, s, e) => t + " " + FormatEpisode(s, e)
      case AbsoluteSeriesQuery(t, n) => t + " " + NatToString(n)
      case SeasonQuery(t, s, _) => t + " " + SeasonString(s)
      case MovieQuery(t) => t
      case ChannelQuery(i) => i
      case _ => imdbId
    }

    /**
      * The token of the `titleMatcher` getter: a title matches when it contains
      * the token as a whole word (see `EpisodeTitleMatches`); None means every
      * title matches.
      */
    function TitleToken(): (token: Option<string>)
      ensures token.None? <==> this.MovieQuery? || this.ImdbMovieQuery? || this.ChannelQuery? || this.ImdbTvQuery?
      ensures (this.SeriesQuery? || this.ImdbSeriesQuery?) ==> token == Some(FormatEpisode(season, episode))
      ensures (this.SeasonQuery? || this.ImdbSeasonQuery?) ==> token == Some(SeasonString(season))
      ensures (this.AbsoluteSeriesQuery? || this.ImdbAbsoluteSeriesQuery?) ==> token == Some(NatToString(number))
    {
      match this
      case SeriesQuery(_, s, e) => Some(FormatEpisode(s, e))
      case ImdbSeriesQuery(_, s, e) => Some(FormatEpisode(s, e))
      case AbsoluteSeriesQuery(_, n) => Some(NatToString(n))
      case ImdbAbsoluteSeriesQuery(_, n) => Some(NatToString(n))
      case SeasonQuery(_, s, _) => Some(SeasonString(s))
      case ImdbSeasonQuery(_, s, _) => Some(SeasonString(s))
      case _ => None
    }

    /** Whether a result title passes the matcher; a query without a matcher passes every title. */
    predicate AcceptsTitle(t: string) {
      match TitleToken()
      case None => true
      case Some(token) => EpisodeTitleMatches(token, t)
    }
  }

  /** `seriesQuery` of the two season variants, and every other query unchanged. */
  function NonSeasonQuery(q: VideoQuery): (r: VideoQuery)
    ensures !r.SeasonQuery? && !r.ImdbSeasonQuery?
    ensures q.SeasonQuery? ==> r == SeriesQuery(q.title, q.season, q.episode)
    ensures q.ImdbSeasonQuery? ==> r == ImdbSeriesQuery(q.imdbId, q.season, q.episode)
    ensures !q.SeasonQuery? && !q.ImdbSeasonQuery? ==> r == q
  {
    match q
    case SeasonQuery(t, s, e) => SeriesQuery(t, s, e)
    case ImdbSeasonQuery(i, s, e) => ImdbSeriesQuery(i, s, e)
    case _ => q
  }

  // ---------------------------------------------------------------------------
  // Season and episode strings

  /** `"S" + season.toString().padStart(2, "0")`. */
  function SeasonString(season: nat): (r: string)
    ensures |r| >= 3 && r[0] == 'S' && AllDigits(r[1..])
  {
    "S" + PadStart2(NatToString(season))
  }

  /** `"S" + pad2(season) + "E" + pad2(episode)`. */
  function FormatEpisode(season: nat, episode: nat): (r: string)
    ensures |SeasonString(season)| < |r|
    ensures r[..|SeasonString(season)|] == SeasonString(season)
    ensures r[|SeasonString(season)|] == 'E'
    ensures r[|SeasonString(season)| + 1..] == PadStart2(NatToString(episode))
  {
    var s := SeasonString(season);
    var r := s + "E" + PadStart2(NatToString(episode));
    assert r[..|s|] == s;
    assert r[|s| + 1..] == PadStart2(NatToString(episode));
    r
  }

  /** A two-padded decimal determines its number: padding never truncates and never collides. */
  lemma PaddedDecimalInjective(m: nat, n: nat)
    requires PadStart2(NatToString(m)) == PadStart2(NatToString(n))
    ensures m == n
  {
    var sm, sn := NatToString(m), NatToString(n);
    var pm := PadStart2(sm);
    assert |sm| == 1 <==> pm[0] == '0';
    assert |sn| == 1 <==> pm[0] == '0';
    if |sm| == 1 {
      assert sm == pm[1..] && sn == pm[1..];
    }
    NatToStringInjective(m, n);
  }

  /** Distinct season/episode pairs give distinct episode tokens: the season digits run up to the first 'E'. */
  lemma FormatEpisodeInjective(s1: nat, e1: nat, s2: nat, e2: nat)
    requires FormatEpisode(s1, e1) == FormatEpisode(s2, e2)
    ensures s1 == s2 && e1 == e2
  {
    var r := FormatEpisode(s1, e1);
    var ss1, ss2 := SeasonString(s1), SeasonString(s2);
    assert forall k | 1 <= k < |ss1| :: r[k] == ss1[1..][k - 1];
    assert forall k | 1 <= k < |ss2| :: r[k] == ss2[1..][k - 1];
    assert r[|ss1|] == 'E' && r[|ss2|] == 'E';
    assert |ss1| == |ss2|;
    assert ss1 == r[..|ss1|] == ss2;
    assert ss1[1..] == PadStart2(NatToString(s1)) && ss2[1..] == PadStart2(NatToString(s2));
    PaddedDecimalInjective(s1, s2);
    PaddedDecimalInjective(e1, e2);
  }

  /** Padding only pads: season 123 gives "S123" and episode 4 gives "E04". */
  lemma PaddingNeverTruncates()
    ensures SeasonString(123) == "S123"
    ensures FormatEpisode(123, 4) == "S123E04"
    ensures FormatEpisode(1, 2) == "S01E02"
  {
    assert NatToString(1) == "1";
    assert NatToString(12) == NatToString(1) + [DigitChar(2)] == "12";
    assert NatToString(123) == NatToString(12) + [DigitChar(3)] == "123";
    assert NatToString(4) == "4" && NatToString(2) == "2";
    var s := SeasonString(123);
    assert s == "S123";
    var f := FormatEpisode(123, 4);
    assert f == f[..|s|] + [f[|s|]] + f[|s| + 1..];
    var g := FormatEpisode(1, 2);
    var t := SeasonString(1);
    assert t == "S01";
    assert g == g[..|t|] + [g[|t|]] + g[|t| + 1..];
  }

  // ---------------------------------------------------------------------------
  // The episode title matcher

  /** Characters of the class `[A-z0-9-]`: A..Z, the six between Z and a, a..z, digits and '-'. */
  predicate IsWordish(c: char) {
    ('A' <= c <= 'z') || IsDigit(c) || c == '-'
  }

  /** Case-insensitive equality of two characters under ASCII case folding. */
  predicate SameLetter(a: char, b: char) {
    UpperChar(a) == UpperChar(b)
  }

  /** `token` occurs in `title` at `i`, ignoring ASCII case. */
  predicate OccursAtIgnoringCase(title: string, token: string, i: int) {
    0 <= i && i + |token| <= |title| && forall k | 0 <= k < |token| :: SameLetter(title[i + k], token[k])
  }

  /** The pattern matches at `i`: the token, with a string edge or a non-wordish character on either side. */
  predicate MatchesAt(title: string, token: string, i: int) {
    OccursAtIgnoringCase(title, token, i)
    && (i == 0 || !IsWordish(title[i - 1]))
    && (i + |token| == |title| || !IsWordish(title[i + |token|]))
  }

  /** `episodeTitleMatcher(token)(title)`: the pattern matches somewhere in the title. */
  predicate EpisodeTitleMatches(token: string, title: string) {
    exists i | 0 <= i <= |title| :: MatchesAt(title, token, i)
  }

  /** An underscore, being inside `A-z`, next to the token blocks the match there. */
  lemma UnderscoreBlocks(title: string, token: string, i: int)
    requires 0 < i <= |title| && title[i - 1] == '_'
    ensures !MatchesAt(title, token, i)
  {
  }

  /** Examples of the matcher: separators and case do not matter, word characters do. */
  lemma MatcherExamples()
    ensures EpisodeTitleMatches("S01E02", "Show.s01e02.1080p")
    ensures EpisodeTitleMatches("S01E02", "S01E02")
    ensures !EpisodeTitleMatches("S01", "Show_S01E02")
  {
    assert MatchesAt("Show.s01e02.1080p", "S01E02", 5);
    assert MatchesAt("S01E02", "S01E02", 0);
    var t := "Show_S01E02";
    forall i | 0 <= i <= |t| ensures !MatchesAt(t, "S01", i) {
      if i == 5 {
        assert IsWordish(t[4]);
      } else if i + 3 <= |t| {
        assert !SameLetter(t[i], "S01"[0]) || !SameLetter(t[i + 1], "S01"[1]);
      }
    }
  }

  /** The episode and the Imdb episode query of one season and episode share their matcher. */
  lemma SeriesVariantsShareToken(title: string, imdbId: string, season: nat, episode: nat)
    ensures SeriesQuery(title, season, episode).TitleToken() == ImdbSeriesQuery(imdbId, season, episode).TitleToken()
    ensures SeasonQuery(title, season, episode).TitleToken() == ImdbSeasonQuery(imdbId, season, episode).TitleToken()
  {
  }

  /** A season's matcher token is a prefix of every episode token of that season. */
  lemma SeasonTokenPrefixesEpisodeToken(season: nat, episode: nat)
    ensures StartsWith(FormatEpisode(season, episode), SeasonString(season))
  {
  }

  /** Narrowing a season query to its episode query keeps its title or id, season and episode, and is idempotent. */
  lemma NonSeasonQueryKeepsFields(q: VideoQuery)
    requires q.SeasonQuery? || q.ImdbSeasonQuery?
    ensures NonSeasonQuery(q).season == q.season && NonSeasonQuery(q).episode == q.episode
    ensures NonSeasonQuery(NonSeasonQuery(q)) == NonSeasonQuery(q)
    ensures NonSeasonQuery(q).TitleToken() == Some(FormatEpisode(q.season, q.episode))
    ensures NonSeasonQuery(q).AsQuery() == (if q.SeasonQuery? then q.title + " " + FormatEpisode(q.season, q.episode) else q.imdbId)
  {
  }
}
