/**
 * The in-memory key of a title being watched and the Trakt ids check
 * (`src/trakt/scrobble.ts`).
 */
module TraktScrobble {
  import opened Wrappers
  import opened Strings
  import opened Media
  import opened ExternalId
  import opened StremioId
  import opened MediaId

  datatype WatchingKeyType = KeyMovie | KeySeries

  /** The normalised key of the id with any `:<season>:<episode>` suffix removed. */
  function WatchingBaseId(id: IdInput): string {
    ParseEpisodeIdSuffix(NormalizeIdForKey(id)).baseId
  }

  /**
   * `buildWatchingKey`: `movie:<base>` for a movie; for a series `episode:<base>`,
   * followed by `:<season>:<episode>` when both are given and positive.
   */
  function BuildWatchingKey(t: WatchingKeyType, id: IdInput, season: Option<int>, episode: Option<int>): (key: string)
    ensures t == KeyMovie ==> key == "movie:" + WatchingBaseId(id)
    ensures t == KeySeries && season.Some? && episode.Some? && season.value > 0 && episode.value > 0 ==>
      key == "episode:" + (WatchingBaseId(id) + ":" + NatStr(season.value) + ":" + NatStr(episode.value))
    ensures t == KeySeries && !(season.Some? && episode.Some? && season.value > 0 && episode.value > 0) ==>
      key == "episode:" + WatchingBaseId(id)
  {
    var baseId := WatchingBaseId(id);
    match t
    case KeySeries =>
      if season.Some? && episode.Some? && season.value > 0 && episode.value > 0 then
        "episode:" + (baseId + ":" + NatStr(season.value) + ":" + NatStr(episode.value))
      else "episode:" + baseId
    case KeyMovie => "movie:" + baseId
  }

  /**
   * A series key is `episode:` followed by a Stremio episode id: parsing that id gives
   * back the base and both numbers.
   */
  lemma WatchingKeyRoundTrip(id: IdInput, s: PosInt, e: PosInt)
    requires WatchingBaseId(id) != "" && Trim(WatchingBaseId(id)) == WatchingBaseId(id)
    ensures BuildWatchingKey(KeySeries, id, Some(s), Some(e)) == "episode:" + BuildEpisodeId(WatchingBaseId(id), s, e).value
    ensures ParseEpisodeIdSuffix(BuildEpisodeId(WatchingBaseId(id), s, e).value)
         == EpisodeIdSuffix(WatchingBaseId(id), Some(s), Some(e))
  {
    EpisodeKey(WatchingBaseId(id), s, e);
  }

  lemma EpisodeKey(b: string, s: PosInt, e: PosInt)
    requires b != "" && Trim(b) == b
    ensures b + ":" + NatStr(s) + ":" + NatStr(e) == BuildEpisodeId(b, s, e).value
    ensures ParseEpisodeIdSuffix(BuildEpisodeId(b, s, e).value) == EpisodeIdSuffix(b, Some(s), Some(e))
  {
    EpisodeIdRoundTrip(b, s, e);
  }

  /** A series key and a movie key for the same id never coincide. */
  lemma KindsNeverCollide(id: IdInput, season: Option<int>, episode: Option<int>)
    ensures BuildWatchingKey(KeySeries, id, season, episode) != BuildWatchingKey(KeyMovie, id, None, None)
  {
    var k := BuildWatchingKey(KeySeries, id, season, episode);
    assert k[0] == 'e';
    assert BuildWatchingKey(KeyMovie, id, None, None)[0] == 'm';
  }

  /** `getTraktIdsObject`: the ids `parseMediaIdInput` reads from a media id. */
  function GetTraktIdsObject(id: IdInput): (ids: ExternalIds)
    ensures ValidIds(ids)
  {
    ParseMediaIdInput(id, false).ids
  }

  /**
   * `isValidTraktIdsObject`: a positive Trakt, TMDB or TVDB id, an IMDb id matching
   * `tt<digits>` in any case, or a non-blank slug.
   */
  predicate IsValidTraktIdsObject(ids: ExternalIds) {
    (ids.trakt.Some? && ids.trakt.value > 0)
    || (ids.tmdb.Some? && ids.tmdb.value > 0)
    || (ids.tvdb.Some? && ids.tvdb.value > 0)
    || (ids.imdb.Some? && ImdbPatternAnyCase(ids.imdb.value))
    || (ids.slug.Some? && Trim(ids.slug.value) != "")
  }

  /** Any canonical IMDb id, TMDB id or slug on its own is enough. */
  lemma SingleIdsValid(c: string, n: PosInt, slug: string)
    requires IsImdbId(c) && Trim(slug) != ""
    ensures IsValidTraktIdsObject(NoIds.(imdb := Some(c)))
    ensures IsValidTraktIdsObject(NoIds.(tmdb := Some(n)))
    ensures IsValidTraktIdsObject(NoIds.(trakt := Some(n)))
    ensures IsValidTraktIdsObject(NoIds.(tvdb := Some(n)))
    ensures IsValidTraktIdsObject(NoIds.(slug := Some(slug)))
    ensures !IsValidTraktIdsObject(NoIds.(simkl := Some(n)))
  {
    assert c[2..] == c[2..];
  }

  /** A positive numeric media id is a TMDB id, which Trakt accepts. */
  lemma NumberIdValid(n: PosInt)
    ensures GetTraktIdsObject(Number(n)) == NoIds.(tmdb := Some(n))
    ensures IsValidTraktIdsObject(GetTraktIdsObject(Number(n)))
  {
    NumberInput(n, false);
  }
}
