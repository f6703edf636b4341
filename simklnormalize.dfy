/**
 * Simkl items normalised into the shared media record (`src/simkl/normalize.ts`): the
 * Simkl type, the ids (numbers or numeric strings), the artwork built from Simkl image
 * paths, the episode an item refers to, and the playback session id of a paused item.
 */
module SimklNormalize {
  import opened Wrappers
  import opened Strings
  import opened Media
  import opened Json
  import opened ExternalId
  import opened SimklImages

  const UnknownTitle: string := "Unknown title"

  datatype SimklType = SimklMovie | SimklTv | SimklAnime | SimklEpisode

  function SimklTypeName(t: SimklType): string {
    match t
    case SimklMovie => "movie"
    case SimklTv => "tv"
    case SimklAnime => "anime"
    case SimklEpisode => "episode"
  }

  /** The type a lower-cased, trimmed name stands for: one of the four names, as itself. */
  function SimklTypeOfName(name: string): (r: Option<SimklType>)
    ensures r.Some? <==> name in {"movie", "tv", "anime", "episode"}
    ensures r.Some? ==> SimklTypeName(r.value) == name
  {
    if name == "movie" then Some(SimklMovie)
    else if name == "tv" then Some(SimklTv)
    else if name == "anime" then Some(SimklAnime)
    else if name == "episode" then Some(SimklEpisode)
    else None
  }

  /** `normalizeSimklType`: one of the four type names, after trimming and lower-casing. */
  function NormalizeSimklType(value: Option<string>): (r: Option<SimklType>)
    ensures r.Some? <==> value.Some? && Lower(Trim(value.value)) in {"movie", "tv", "anime", "episode"}
    ensures r.Some? ==> SimklTypeName(r.value) == Lower(Trim(value.value))
  {
    if value.None? || value.value == "" then
      assert value.Some? ==> |Lower(Trim(value.value))| == 0;
      None
    else SimklTypeOfName(Lower(Trim(value.value)))
  }

  /** Every type name is recognised as itself. */
  lemma SimklTypeNameRoundTrip(t: SimklType)
    ensures NormalizeSimklType(Some(SimklTypeName(t))) == Some(t)
  {
    var name := SimklTypeName(t);
    assert IsLowerWord(name);
    LowerWordFixed(name);
  }

  /** The type is read case-insensitively. */
  lemma NormalizeSimklTypeIgnoresCase(s: string)
    ensures NormalizeSimklType(Some(Lower(s))) == NormalizeSimklType(Some(s))
  {
    TrimLower(s);
    LowerIdempotent(Trim(s));
    assert |Lower(s)| == |s|;
    assert Lower(Trim(Lower(s))) == Lower(Trim(s));
  }

  /** `simklTypeToMediaType`: only a movie is a movie. */
  function ToMediaType(t: SimklType): MediaType {
    if t == SimklMovie then Movie else Series
  }

  // ---------------------------------------------------------------------------
  // numbers

  /** `readNumberLike` on a property value: a number, or `parseInt` of a non-blank trimmed string. */
  function NumberLike(v: Option<Json>): Option<int> {
    if v.Some? && v.value.JNum? then Some(v.value.n)
    else if v.Some? && v.value.JStr? && Trim(v.value.s) != "" then JsParseInt(Trim(v.value.s))
    else None
  }

  function ReadNumberLike(record: Json, key: string): Option<int> {
    NumberLike(Get(record, key))
  }

  /** A string of digits reads as its value. */
  lemma NumberLikeDigits(d: string)
    requires IsDigits(d)
    ensures NumberLike(Some(JStr(d))) == Some(DigitsValue(d))
  {
    assert !IsSpace(d[0]) && !IsSpace(d[|d| - 1]);
    TrimNoop(d);
    JsParseIntDigits(d);
  }

  /**
   * The `tmdb` and `tvdb` rule: a number, or `parseInt` of the trimmed string, kept when
   * positive (`Math.trunc` leaves whole numbers alone).
   */
  function PositiveId(v: Option<Json>): (r: Option<int>)
    ensures r.Some? ==> r.value > 0
    ensures r.Some? <==> NumberLike(v).Some? && NumberLike(v).value > 0
    ensures r.Some? ==> r == NumberLike(v)
  {
    var n := if v.Some? && v.value.JNum? then Some(v.value.n)
             else if v.Some? && v.value.JStr? then JsParseInt(Trim(v.value.s))
             else None;
    assert v.Some? && v.value.JStr? && Trim(v.value.s) == "" ==> n.None? by {
      assert LeadingDigits("") == "";
    }
    if n.Some? && n.value > 0 then n else None
  }

  /** `undefined` or `null`, the values `??` skips. */
  predicate Nullish(v: Option<Json>) {
    v.None? || v.value.JNull?
  }

  /**
   * The `simkl` rule: `simkl ?? simkl_id`, then a positive number, or the positive
   * `parseInt` of a non-blank string.
   */
  function SimklIdOf(record: Json): (r: Option<int>)
    ensures !Nullish(Get(record, "simkl")) ==> r == PositiveId(Get(record, "simkl"))
    ensures Nullish(Get(record, "simkl")) ==> r == PositiveId(Get(record, "simkl_id"))
  {
    var simklValue := if Nullish(Get(record, "simkl")) then Get(record, "simkl_id") else Get(record, "simkl");
    if simklValue.Some? && simklValue.value.JNum? && simklValue.value.n > 0 then Some(simklValue.value.n)
    else if simklValue.Some? && simklValue.value.JStr? && Trim(simklValue.value.s) != "" then
      var parsed := JsParseInt(Trim(simklValue.value.s));
      if parsed.Some? && parsed.value > 0 then parsed else None
    else None
  }

  /** A `simkl` that is present but unusable hides `simkl_id`: the fallback is for nullish values only. */
  lemma SimklIdNoFallbackOnZero(record: Json)
    requires Get(record, "simkl") == Some(JNum(0))
    ensures SimklIdOf(record).None?
  {
  }

  /**
   * `extractIds`: positive Simkl, TMDB and TVDB ids, the normalised IMDb id and the
   * trimmed slug; a Trakt id is never read, and a non-record gives no ids.
   */
  function ExtractIds(value: Option<Json>): (ids: ExternalIds)
    ensures ValidIds(ids) && ids.trakt.None?
    ensures ids.slug.Some? ==> IsTrimmedText(ids.slug.value)
    ensures AsRecord(value).None? ==> ids == NoIds
    ensures AsRecord(value).Some? ==>
      ids.simkl == SimklIdOf(value.value) && ids.tmdb == PositiveId(Get(value.value, "tmdb"))
      && ids.tvdb == PositiveId(Get(value.value, "tvdb"))
  {
    var record := AsRecord(value);
    if record.None? then NoIds
    else
      var raw := record.value;
      ExternalIds(None, PositiveId(Get(raw, "tmdb")), PositiveId(Get(raw, "tvdb")), SimklIdOf(raw),
                  NormalizeImdbId(AsString(Get(raw, "imdb"))), ReadString(raw, "slug"))
  }

  /** A TMDB id sent as a string of digits is read as that number. */
  lemma ExtractIdsNumericString(value: Option<Json>, d: string)
    requires AsRecord(value).Some? && Get(value.value, "tmdb") == Some(JStr(d))
    requires IsDigits(d) && DigitsValue(d) > 0
    ensures ExtractIds(value).tmdb == Some(DigitsValue(d))
  {
    NumberLikeDigits(d);
  }

  /** A canonical IMDb id, bare or behind `imdb:`, is kept as it is. */
  lemma ExtractIdsImdb(value: Option<Json>, c: string)
    requires AsRecord(value).Some? && IsImdbId(c)
    requires AsString(Get(value.value, "imdb")) == Some(c) || AsString(Get(value.value, "imdb")) == Some("imdb:" + c)
    ensures ExtractIds(value).imdb == Some(c)
  {
    NormalizeImdbIdAccepts(c);
  }

  // ---------------------------------------------------------------------------
  // artwork and episode

  /** A URL list when it is non-empty. */
  function NonEmptyUrls(urls: seq<string>): Option<seq<string>> {
    if |urls| > 0 then Some(urls) else None
  }

  /** The poster and the five poster variants of a `poster` path. */
  function PosterImages(path: string): (r: (Option<string>, Option<seq<string>>))
    requires IsTrimmedText(path)
    ensures r.0.Some? <==> path != "\\"
    ensures r.1.Some? <==> path != "\\"
    ensures r.1.Some? ==> |r.1.value| == 5
  {
    TrimmedTextFixed(path);
    ImageUrlDefined(Posters, path, Some("ca"), DefaultOptions);
    PosterUrlsSpec(path, DefaultOptions);
    (BuildSimklPosterUrl(path, None, DefaultOptions),
     NonEmptyUrls(UrlsFor(PosterVariants, v => BuildSimklPosterUrl(path, Some(v), DefaultOptions))))
  }

  /** The backdrop and the five fanart variants of a `fanart` path. */
  function FanartImages(path: string): (r: (Option<string>, Option<seq<string>>))
    requires IsTrimmedText(path)
    ensures r.0.Some? <==> path != "\\"
    ensures r.1.Some? <==> path != "\\"
    ensures r.1.Some? ==> |r.1.value| == 5
  {
    TrimmedTextFixed(path);
    ImageUrlDefined(Fanart, path, Some("mobile"), DefaultOptions);
    FanartUrlsSpec(path, DefaultOptions);
    (BuildSimklFanartUrl(path, None, DefaultOptions),
     NonEmptyUrls(UrlsFor(FanartVariants, v => BuildSimklFanartUrl(path, Some(v), DefaultOptions))))
  }

  /** The artwork of the (trimmed) `poster` and `fanart` paths. */
  function ImagesFromPaths(posterPath: Option<string>, fanartPath: Option<string>): (r: ImageSet)
    requires posterPath.Some? ==> IsTrimmedText(posterPath.value)
    requires fanartPath.Some? ==> IsTrimmedText(fanartPath.value)
    ensures r.logo.None? && r.fanart.None? && r.thumbnail.None?
    ensures r.poster.Some? <==> posterPath.Some? && posterPath.value != "\\"
    ensures r.posters.Some? <==> r.poster.Some?
    ensures r.posters.Some? ==> |r.posters.value| == 5
    ensures r.backdrop.Some? <==> fanartPath.Some? && fanartPath.value != "\\"
    ensures r.backdrops.Some? <==> r.backdrop.Some?
    ensures r.backdrops.Some? ==> |r.backdrops.value| == 5
    ensures posterPath.Some? ==> r.poster == BuildSimklPosterUrl(posterPath.value, None, DefaultOptions)
    ensures fanartPath.Some? ==> r.backdrop == BuildSimklFanartUrl(fanartPath.value, None, DefaultOptions)
  {
    var posters := if posterPath.Some? then PosterImages(posterPath.value) else (None, None);
    var fanart := if fanartPath.Some? then FanartImages(fanartPath.value) else (None, None);
    NoImages.(poster := posters.0, posters := posters.1, backdrop := fanart.0, backdrops := fanart.1)
  }

  /**
   * `extractImages`: a poster and a backdrop with their variant lists, for every non-blank
   * path except a lone backslash; nothing else.
   */
  function ExtractImages(record: Json): (r: ImageSet)
    ensures r.logo.None? && r.fanart.None? && r.thumbnail.None?
    ensures var path := ReadString(record, "poster");
            (r.poster.Some? <==> path.Some? && path.value != "\\")
            && (path.Some? ==> r.poster == BuildSimklPosterUrl(path.value, None, DefaultOptions))
            && (r.posters.Some? <==> r.poster.Some?) && (r.posters.Some? ==> |r.posters.value| == 5)
    ensures var path := ReadString(record, "fanart");
            (r.backdrop.Some? <==> path.Some? && path.value != "\\")
            && (path.Some? ==> r.backdrop == BuildSimklFanartUrl(path.value, None, DefaultOptions))
            && (r.backdrops.Some? <==> r.backdrop.Some?) && (r.backdrops.Some? ==> |r.backdrops.value| == 5)
  {
    ImagesFromPaths(ReadString(record, "poster"), ReadString(record, "fanart"))
  }

  /** `readNumberLike(episode, 'episode') ?? readNumberLike(episode, 'number')`. */
  function EpisodeNumber(episode: Json): Option<int> {
    ReadNumberLike(episode, "episode").OrElse(ReadNumberLike(episode, "number"))
  }

  /** `extractEpisodeInfo`: a non-zero season and episode number, and the episode's title. */
  function ExtractEpisodeInfo(episode: Option<Json>): (r: Option<EpisodeInfo>)
    ensures r.Some? <==> episode.Some? && NumSet(ReadNumberLike(episode.value, "season"))
                         && NumSet(EpisodeNumber(episode.value))
    ensures r.Some? ==> r.value.season == ReadNumberLike(episode.value, "season").value
                        && r.value.episode == EpisodeNumber(episode.value).value
                        && r.value.title == ReadString(episode.value, "title")
  {
    if episode.None? then None
    else
      var season := ReadNumberLike(episode.value, "season");
      var ep := EpisodeNumber(episode.value);
      if !NumSet(season) || !NumSet(ep) then None
      else Some(EpisodeInfo(season.value, ep.value, ReadString(episode.value, "title"), None, None, None, None))
  }

  /** `number` stands in for a missing `episode`. */
  lemma EpisodeNumberFallback(episode: Json, s: int, n: int)
    requires ReadNumberLike(episode, "season") == Some(s) && s != 0
    requires Get(episode, "episode").None? && ReadNumberLike(episode, "number") == Some(n) && n != 0
    ensures ExtractEpisodeInfo(Some(episode)).Some?
    ensures ExtractEpisodeInfo(Some(episode)).value.season == s
    ensures ExtractEpisodeInfo(Some(episode)).value.episode == n
  {
  }

  /** An `episode` of 0 is a value, so `number` is not consulted and there is no episode. */
  lemma EpisodeZeroHidesNumber(episode: Json)
    requires Get(episode, "episode") == Some(JNum(0))
    ensures ExtractEpisodeInfo(Some(episode)).None?
  {
  }

  // ---------------------------------------------------------------------------
  // items

  /** `NormalizedSimklItem`, without the fields that are copied through unchanged. */
  datatype NormalizedSimklItem = NormalizedSimklItem(
    id: string,
    mediaType: MediaType,
    title: string,
    ids: ExternalIds,
    images: ImageSet,
    simklType: SimklType,
    playbackProgress: Option<real>,
    pausedAt: Option<string>,
    episode: Option<EpisodeInfo>,
    showTitle: Option<string>,
    simklPlaybackId: Option<int>)

  /** What the branch taken sets: type, ids, its own title, show title, artwork and episode. */
  datatype Branch = Branch(
    simklType: SimklType,
    mediaType: MediaType,
    ids: ExternalIds,
    title: Option<string>,
    showTitle: Option<string>,
    images: ImageSet,
    episode: Option<EpisodeInfo>)

  /** What the `show`, `movie` and flat branches read from their record: its ids, title and artwork. */
  predicate BranchOf(record: Json, b: Branch) {
    && b.ids == ExtractIds(Get(record, "ids"))
    && b.title == ReadString(record, "title")
    && b.images == ExtractImages(record)
  }

  /**
   * The four branches of `normalizeSimklItem`: a wrapped `episode` wins over `show`, which
   * wins over `movie`; an item with none of them is read flat.
   */
  function SelectBranch(source: Json, detected: Option<SimklType>): (b: Branch)
    ensures b.mediaType == ToMediaType(b.simklType)
    ensures b.title.Some? ==> IsTrimmedText(b.title.value)
    ensures b.showTitle.Some? ==> b.title == b.showTitle
    ensures b.simklType == SimklEpisode <==>
      AsRecord(Get(source, "episode")).Some?
      || (AsRecord(Get(source, "show")).None? && AsRecord(Get(source, "movie")).None? && detected == Some(SimklEpisode))
    ensures AsRecord(Get(source, "episode")).Some? ==>
      b.ids == ExtractIds(GetOpt(AsRecord(Get(source, "show")), "ids"))
      && b.episode == ExtractEpisodeInfo(AsRecord(Get(source, "episode")))
      && b.images == (if AsRecord(Get(source, "show")).Some? then ExtractImages(AsRecord(Get(source, "show")).value) else NoImages)
      && b.title == (if AsRecord(Get(source, "show")).Some? then ReadString(AsRecord(Get(source, "show")).value, "title") else None)
    ensures AsRecord(Get(source, "episode")).None? ==> b.episode.None? && b.showTitle.None?
    ensures AsRecord(Get(source, "episode")).None? && AsRecord(Get(source, "show")).Some? ==>
      b.simklType == (if detected == Some(SimklAnime) then SimklAnime else SimklTv)
      && BranchOf(AsRecord(Get(source, "show")).value, b)
    ensures AsRecord(Get(source, "episode")).None? && AsRecord(Get(source, "show")).None?
            && AsRecord(Get(source, "movie")).Some? ==>
      b.simklType == SimklMovie && BranchOf(AsRecord(Get(source, "movie")).value, b)
    ensures AsRecord(Get(source, "episode")).None? && AsRecord(Get(source, "show")).None?
            && AsRecord(Get(source, "movie")).None? ==>
      b.simklType == detected.GetOr(SimklMovie) && BranchOf(source, b)
  {
    var movie := AsRecord(Get(source, "movie"));
    var show := AsRecord(Get(source, "show"));
    var episode := AsRecord(Get(source, "episode"));
    if episode.Some? then
      var showTitle := if show.Some? then ReadString(show.value, "title") else None;
      Branch(SimklEpisode, Series, ExtractIds(GetOpt(show, "ids")), showTitle, showTitle,
             if show.Some? then ExtractImages(show.value) else NoImages, ExtractEpisodeInfo(episode))
    else if show.Some? then
      Branch(if detected == Some(SimklAnime) then SimklAnime else SimklTv, Series, ExtractIds(Get(show.value, "ids")),
             ReadString(show.value, "title"), None, ExtractImages(show.value), None)
    else if movie.Some? then
      Branch(SimklMovie, Movie, ExtractIds(Get(movie.value, "ids")), ReadString(movie.value, "title"), None,
             ExtractImages(movie.value), None)
    else
      var simklType := detected.GetOr(SimklMovie);
      Branch(simklType, ToMediaType(simklType), ExtractIds(Get(source, "ids")), ReadString(source, "title"), None,
             ExtractImages(source), None)
  }

  /** The `id` rule: the canonical id, or the fallback, with `:s:e` for an episode that has one. */
  function SimklItemId(ids: ExternalIds, fallbackId: string, isEpisode: bool, episode: Option<EpisodeInfo>): (id: string)
    requires IsTrimmedText(fallbackId)
    ensures id != ""
    ensures !isEpisode || episode.None? ==> Some(id) == BuildCanonicalId(ids, Some(fallbackId))
    ensures isEpisode && episode.Some? ==> id == EpisodeKey(BuildCanonicalId(ids, Some(fallbackId)).value, episode.value)
  {
    TrimmedTextFixed(fallbackId);
    var canonical := BuildCanonicalId(ids, Some(fallbackId)).GetOr(fallbackId);
    if isEpisode && episode.Some? then EpisodeKey(canonical, episode.value) else canonical
  }

  /** The branch's title, else the item's own, else `Unknown title`. */
  function ItemTitle(title: Option<string>, sourceTitle: Option<string>): (r: string)
    requires title.Some? ==> IsTrimmedText(title.value)
    requires sourceTitle.Some? ==> IsTrimmedText(sourceTitle.value)
    ensures IsTrimmedText(r) && r == title.OrElse(sourceTitle).GetOr(UnknownTitle)
  {
    title.OrElse(sourceTitle).GetOr(UnknownTitle)
  }

  /** The playback session id, kept only for a movie or an episode with a `paused_at` and a progress. */
  function PlaybackSession(simklType: SimklType, progress: Option<real>, pausedAt: Option<string>,
                           playbackId: Option<int>): (r: Option<int>)
    ensures r.Some? <==> (simklType == SimklEpisode || simklType == SimklMovie) && NumSet(playbackId)
                         && pausedAt.Some? && progress.Some?
    ensures r.Some? ==> r == playbackId
  {
    if (simklType == SimklEpisode || simklType == SimklMovie) && NumSet(playbackId)
       && pausedAt.Some? && progress.Some? then playbackId else None
  }

  /**
   * The record built from the branch taken: the title falls back to the item's own title
   * and then `Unknown title`; the id is the canonical id, with `:s:e` for an episode; a
   * playback session id only for a movie or an episode with a `paused_at` and a progress.
   */
  function Assemble(b: Branch, sourceTitle: Option<string>, progress: Option<real>, pausedAt: Option<string>,
                    playbackId: Option<int>): (r: NormalizedSimklItem)
    requires b.title.Some? ==> IsTrimmedText(b.title.value)
    requires sourceTitle.Some? ==> IsTrimmedText(sourceTitle.value)
    requires b.showTitle.Some? ==> b.title == b.showTitle
    ensures r.simklType == b.simklType && r.mediaType == b.mediaType && r.ids == b.ids && r.images == b.images
    ensures r.episode == b.episode && r.showTitle == b.showTitle && r.pausedAt == pausedAt
    ensures r.playbackProgress == progress
    ensures IsTrimmedText(r.title) && r.title == b.title.OrElse(sourceTitle).GetOr(UnknownTitle)
    ensures r.id != ""
    ensures b.simklType != SimklEpisode || b.episode.None? ==> Some(r.id) == BuildCanonicalId(b.ids, Some(r.title))
    ensures b.simklType == SimklEpisode && b.episode.Some? ==>
      r.id == EpisodeKey(BuildCanonicalId(b.ids, Some(r.title)).value, b.episode.value)
    ensures r.simklPlaybackId.Some? <==>
      (b.simklType == SimklEpisode || b.simklType == SimklMovie) && NumSet(playbackId) && pausedAt.Some? && progress.Some?
    ensures r.simklPlaybackId.Some? ==> r.simklPlaybackId == playbackId
  {
    var title := ItemTitle(b.title, sourceTitle);
    var fallbackId := FallbackId(title, b.showTitle);
    FallbackIsTitle(title, b.showTitle);
    var id := SimklItemId(b.ids, fallbackId, b.simklType == SimklEpisode, b.episode);
    var playback := PlaybackSession(b.simklType, progress, pausedAt, playbackId);
    NormalizedSimklItem(id, b.mediaType, title, b.ids, b.images, b.simklType, progress, pausedAt, b.episode,
                        b.showTitle, playback)
  }

  /**
   * `readFloatLike`: a number, or `parseFloat` of a non-blank trimmed string; `parseFloat`
   * is a parameter, `None` standing for `NaN`.
   */
  function ReadFloatLike(record: Json, key: string, parseFloat: string -> Option<real>): Option<real> {
    var v := Get(record, key);
    if v.Some? && v.value.JNum? then Some(v.value.n as real)
    else if v.Some? && v.value.JStr? && Trim(v.value.s) != "" then parseFloat(Trim(v.value.s))
    else None
  }

  /**
   * What an item read from one record of the `show`, `movie` or flat branch holds: that
   * record's ids and artwork, and its title, else the item's own title, else `Unknown title`.
   */
  predicate ItemFrom(record: Json, input: Json, r: NormalizedSimklItem) {
    && r.ids == ExtractIds(Get(record, "ids"))
    && r.images == ExtractImages(record)
    && r.title == ReadString(record, "title").OrElse(ReadString(input, "title")).GetOr(UnknownTitle)
  }

  /** `normalizeSimklItem`: a record becomes one normalised item; anything else none. */
  function NormalizeSimklItem(input: Json, parseFloat: string -> Option<real>): (r: Option<NormalizedSimklItem>)
    ensures r.Some? <==> IsRecord(input)
    ensures r.Some? ==> IsTrimmedText(r.value.title) && r.value.id != ""
    ensures r.Some? ==> (r.value.mediaType == Movie <==> r.value.simklType == SimklMovie)
    ensures r.Some? && AsRecord(Get(input, "episode")).Some? ==>
      r.value.simklType == SimklEpisode && r.value.ids == ExtractIds(GetOpt(AsRecord(Get(input, "show")), "ids"))
      && r.value.episode == ExtractEpisodeInfo(AsRecord(Get(input, "episode")))
      && r.value.images == (if AsRecord(Get(input, "show")).Some? then ExtractImages(AsRecord(Get(input, "show")).value) else NoImages)
    ensures r.Some? && AsRecord(Get(input, "episode")).None? && AsRecord(Get(input, "show")).Some? ==>
      r.value.mediaType == Series
      && (r.value.simklType == SimklAnime <==> NormalizeSimklType(ReadString(input, "type")) == Some(SimklAnime))
    ensures r.Some? && AsRecord(Get(input, "episode")).Some? ==>
      r.value.title == (if AsRecord(Get(input, "show")).Some? then ReadString(AsRecord(Get(input, "show")).value, "title") else None)
                         .OrElse(ReadString(input, "title")).GetOr(UnknownTitle)
    ensures r.Some? && AsRecord(Get(input, "episode")).None? && AsRecord(Get(input, "show")).Some? ==>
      ItemFrom(AsRecord(Get(input, "show")).value, input, r.value)
    ensures r.Some? && AsRecord(Get(input, "episode")).None? && AsRecord(Get(input, "show")).None?
            && AsRecord(Get(input, "movie")).Some? ==>
      r.value.simklType == SimklMovie && ItemFrom(AsRecord(Get(input, "movie")).value, input, r.value)
    ensures r.Some? && AsRecord(Get(input, "episode")).None? && AsRecord(Get(input, "show")).None?
            && AsRecord(Get(input, "movie")).None? ==>
      r.value.simklType == NormalizeSimklType(ReadString(input, "type")).GetOr(SimklMovie) && ItemFrom(input, input, r.value)
    ensures r.Some? && AsRecord(Get(input, "episode")).None? ==> r.value.episode.None?
    ensures r.Some? && r.value.episode.None? ==> Some(r.value.id) == BuildCanonicalId(r.value.ids, Some(r.value.title))
    ensures r.Some? && r.value.episode.Some? ==>
      r.value.id == EpisodeKey(BuildCanonicalId(r.value.ids, Some(r.value.title)).value, r.value.episode.value)
    ensures r.Some? ==>
      (r.value.simklPlaybackId.Some? <==>
        (r.value.simklType == SimklEpisode || r.value.simklType == SimklMovie) && NumSet(ReadNumberLike(input, "id"))
        && r.value.pausedAt.Some? && r.value.playbackProgress.Some?)
  {
    if !IsRecord(input) then None
    else
      var detected := NormalizeSimklType(ReadString(input, "type"));
      var b := SelectBranch(input, detected);
      Some(Assemble(b, ReadString(input, "title"), ReadFloatLike(input, "progress", parseFloat),
                    ReadString(input, "paused_at"), ReadNumberLike(input, "id")))
  }

  /**
   * An episode of a show with an IMDb id is keyed `<imdb>:<s>:<e>`, whatever the titles
   * and the other ids.
   */
  lemma EpisodeKeyedByShowImdb(input: Json, parseFloat: string -> Option<real>, c: string)
    requires IsRecord(input) && AsRecord(Get(input, "episode")).Some?
    requires ExtractIds(GetOpt(AsRecord(Get(input, "show")), "ids")).imdb == Some(c) && IsImdbId(c)
    requires ExtractEpisodeInfo(AsRecord(Get(input, "episode"))).Some?
    ensures NormalizeSimklItem(input, parseFloat).value.id
         == c + ":" + IntStr(ExtractEpisodeInfo(AsRecord(Get(input, "episode"))).value.season)
            + ":" + IntStr(ExtractEpisodeInfo(AsRecord(Get(input, "episode"))).value.episode)
  {
  }
}
