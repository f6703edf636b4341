/**
 * Request bodies for Simkl's `/sync/history` and `/sync/history/remove` endpoints
 * (`src/simkl/payloads.ts`): the id check every builder makes first, the ids object
 * written into the body, and one movie, show or episode item per payload.
 */
module SimklPayloads {
  import opened Wrappers
  import opened Strings
  import opened Media
  import opened JsNumbers
  import opened ExternalId
  import opened MediaId
  import StremioId

  datatype SyncType = SyncMovie | SyncShow | SyncEpisode

  function SyncTypeName(t: SyncType): string {
    match t
    case SyncMovie => "movie"
    case SyncShow => "show"
    case SyncEpisode => "episode"
  }

  datatype WatchStatus = Watching | PlanToWatch | Hold | Completed | Dropped

  /** `SimklMemo` as a caller passes it. */
  datatype MemoInput = MemoInput(text: string, isPrivate: Option<bool>)

  /** `SimklHistoryAddOptions`. */
  datatype AddOptions = AddOptions(
    watchedAt: Option<string>,
    addedAt: Option<string>,
    rating: Option<JsNumber>,
    memo: Option<MemoInput>,
    status: Option<WatchStatus>)

  const NoOptions := AddOptions(None, None, None, None, None)

  /** The ids object written into a payload: only these four keys are ever set. */
  datatype PayloadIds = PayloadIds(simkl: Option<int>, tmdb: Option<int>, imdb: Option<string>, slug: Option<string>)

  /** `SimklHistoryMemo`. */
  datatype Memo = Memo(text: string, isPrivate: bool)

  datatype MovieItem = MovieItem(
    ids: PayloadIds,
    watchedAt: Option<string>,
    addedAt: Option<string>,
    rating: Option<int>,
    memo: Option<Memo>)

  /** `SimklHistorySeasonItem`; each episode reference is its number. */
  datatype SeasonItem = SeasonItem(number: int, watchedAt: Option<string>, episodes: Option<seq<int>>)

  datatype ShowItem = ShowItem(ids: PayloadIds, status: Option<WatchStatus>, seasons: Option<seq<SeasonItem>>)

  datatype EpisodeItem = EpisodeItem(ids: PayloadIds, watchedAt: Option<string>)

  /** `SimklSyncHistoryPayload`, also used for removals; an absent list is `None`. */
  datatype HistoryPayload = HistoryPayload(
    movies: Option<seq<MovieItem>>,
    shows: Option<seq<ShowItem>>,
    episodes: Option<seq<EpisodeItem>>)

  /** The error the builders throw. */
  function InvalidIdsMessage(context: string): string {
    "[media-core][simkl] Invalid ids for " + context
  }

  const RatingMessage := "[media-core][simkl] Rating must be between 1 and 10"
  const SeasonEpisodeMessage := "[media-core][simkl] season and episode must be positive integers"
  const SeasonMessage := "[media-core][simkl] season must be a positive integer"
  const EpisodeMessage := "[media-core][simkl] episode must be a positive integer"

  /** `isNonEmptyString(v) ? v.trim() : undefined`. */
  function TrimmedText(value: Option<string>): (r: Option<string>)
    ensures r.Some? <==> value.Some? && Trim(value.value) != ""
    ensures r.Some? ==> r.value == Trim(value.value) && Trim(r.value) == r.value
  {
    if value.Some? && Trim(value.value) != "" then
      TrimIdempotent(value.value);
      Some(Trim(value.value))
    else None
  }

  /**
   * `isValidSimklIdsObject`: a positive Simkl or TMDB id, an IMDb id matching `tt<digits>`
   * in any case, or a non-blank slug. Trakt and TVDB ids alone do not qualify.
   */
  predicate IsValidSimklIdsObject(ids: ExternalIds) {
    (ids.simkl.Some? && ids.simkl.value > 0)
    || (ids.tmdb.Some? && ids.tmdb.value > 0)
    || (ids.imdb.Some? && StremioId.ImdbPatternAnyCase(ids.imdb.value))
    || (ids.slug.Some? && Trim(ids.slug.value) != "")
  }

  /**
   * `normalizeIdsForPayload`: positive Simkl and TMDB ids, the normalised IMDb id and the
   * trimmed slug; every other id is dropped.
   */
  function NormalizeIdsForPayload(ids: ExternalIds): (p: PayloadIds)
    ensures p.simkl.Some? <==> ids.simkl.Some? && ids.simkl.value > 0
    ensures p.tmdb.Some? <==> ids.tmdb.Some? && ids.tmdb.value > 0
    ensures p.simkl.Some? ==> p.simkl == ids.simkl
    ensures p.tmdb.Some? ==> p.tmdb == ids.tmdb
    ensures p.imdb.Some? ==> ids.imdb.Some? && IsImdbId(p.imdb.value)
    ensures p.imdb == NormalizeImdbId(ids.imdb)
    ensures p.slug == TrimmedText(ids.slug)
  {
    PayloadIds(
      if ids.simkl.Some? && ids.simkl.value > 0 then ids.simkl else None,
      if ids.tmdb.Some? && ids.tmdb.value > 0 then ids.tmdb else None,
      NormalizeImdbId(ids.imdb),
      TrimmedText(ids.slug))
  }

  /** An IMDb id that passes validation reaches the payload in lower case. */
  lemma ImdbReachesPayload(imdb: Option<string>)
    requires imdb.Some? && StremioId.ImdbPatternAnyCase(imdb.value)
    ensures NormalizeImdbId(imdb) == Some(Lower(imdb.value))
  {
    var c := imdb.value;
    assert c[|c| - 1] == c[2..][|c| - 3];
    TrimNoop(c);
    StremioId.ImdbPatternLower(c);
    assert NormalizeImdbId(imdb) == NormalizeImdbText(Lower(c));
  }

  /** Ids that pass validation always leave at least one id in the payload. */
  lemma ValidIdsGivePayloadIds(ids: ExternalIds)
    requires IsValidSimklIdsObject(ids)
    ensures NormalizeIdsForPayload(ids) != PayloadIds(None, None, None, None)
  {
    if ids.imdb.Some? && StremioId.ImdbPatternAnyCase(ids.imdb.value) {
      ImdbReachesPayload(ids.imdb);
    }
  }

  /** A TVDB or Trakt id on its own is not enough for Simkl. */
  lemma TvdbAndTraktAloneInvalid(tvdb: PosInt, trakt: PosInt)
    ensures !IsValidSimklIdsObject(NoIds.(tvdb := Some(tvdb), trakt := Some(trakt)))
  {
  }

  /**
   * An `imdb:`-prefixed IMDb id fails validation even though the payload would carry the
   * id: `assertValidIds` and `normalizeImdbId` accept different spellings.
   */
  lemma PrefixedImdbRejected(c: string)
    requires IsImdbId(c)
    ensures !IsValidSimklIdsObject(NoIds.(imdb := Some("imdb:" + c)))
    ensures NormalizeIdsForPayload(NoIds.(imdb := Some("imdb:" + c))).imdb == Some(c)
  {
    assert ("imdb:" + c)[0] == 'i';
    NormalizeImdbIdPrefixed(c);
  }

  /** A rating is refused when its integer part is not finite or lies outside 1..10. */
  predicate RatingRejected(rating: Option<JsNumber>) {
    rating.Some? && (rating.value.NotFinite? || Trunc(rating.value.value) < 1 || Trunc(rating.value.value) > 10)
  }

  /** The finite ratings accepted are exactly those in `[1, 11)`. */
  lemma RatingAcceptedRange(x: real)
    ensures !RatingRejected(Some(Finite(x))) <==> 1.0 <= x < 11.0
  {
    TruncBetween(x, 1, 10);
  }

  /** The payload holds exactly one item, in the list that `t` names. */
  predicate SingleItemOf(p: HistoryPayload, t: SyncType) {
    match t
    case SyncMovie => p.movies.Some? && |p.movies.value| == 1 && p.shows.None? && p.episodes.None?
    case SyncShow => p.shows.Some? && |p.shows.value| == 1 && p.movies.None? && p.episodes.None?
    case SyncEpisode => p.episodes.Some? && |p.episodes.value| == 1 && p.movies.None? && p.shows.None?
  }

  /** The item's ids object, whatever its kind. */
  function ItemIds(p: HistoryPayload, t: SyncType): PayloadIds
    requires SingleItemOf(p, t)
  {
    match t
    case SyncMovie => p.movies.value[0].ids
    case SyncShow => p.shows.value[0].ids
    case SyncEpisode => p.episodes.value[0].ids
  }

  /** The memo written for a movie: its trimmed text, when that is not blank. */
  function MemoOf(memo: Option<MemoInput>): (r: Option<Memo>)
    ensures r.Some? <==> memo.Some? && Trim(memo.value.text) != ""
    ensures r.Some? ==> r.value.text == Trim(memo.value.text) && (r.value.isPrivate <==> memo.value.isPrivate == Some(true))
  {
    if memo.Some? && memo.value.text != "" && Trim(memo.value.text) != "" then
      Some(Memo(Trim(memo.value.text), memo.value.isPrivate == Some(true)))
    else None
  }

  /** `buildSimklHistoryAddPayload`. */
  function BuildSimklHistoryAddPayload(t: SyncType, ids: ExternalIds, options: AddOptions): (r: Result<HistoryPayload, string>)
    ensures r.Err? <==> !IsValidSimklIdsObject(ids) || RatingRejected(options.rating)
    ensures !IsValidSimklIdsObject(ids) ==> r.error == InvalidIdsMessage("history add payload (" + SyncTypeName(t) + ")")
    ensures IsValidSimklIdsObject(ids) && RatingRejected(options.rating) ==> r.error == RatingMessage
    ensures r.Ok? ==> SingleItemOf(r.value, t) && ItemIds(r.value, t) == NormalizeIdsForPayload(ids)
    ensures r.Ok? && t == SyncMovie ==>
      var m := r.value.movies.value[0];
      m.watchedAt == TrimmedText(options.watchedAt) && m.addedAt == TrimmedText(options.addedAt)
      && (m.rating.Some? <==> options.rating.Some?)
      && (m.rating.Some? ==> 1 <= m.rating.value <= 10 && m.rating.value == Trunc(options.rating.value.value))
      && m.memo == MemoOf(options.memo)
    ensures r.Ok? && t == SyncShow ==>
      r.value.shows.value[0].status == options.status && r.value.shows.value[0].seasons.None?
    ensures r.Ok? && t == SyncEpisode ==> r.value.episodes.value[0].watchedAt == TrimmedText(options.watchedAt)
  {
    if !IsValidSimklIdsObject(ids) then Err(InvalidIdsMessage("history add payload (" + SyncTypeName(t) + ")"))
    else if RatingRejected(options.rating) then Err(RatingMessage)
    else
      var idsPayload := NormalizeIdsForPayload(ids);
      var watchedAt := TrimmedText(options.watchedAt);
      match t
      case SyncMovie =>
        var rating := if options.rating.Some? then Some(Trunc(options.rating.value.value)) else None;
        Ok(HistoryPayload(Some([MovieItem(idsPayload, watchedAt, TrimmedText(options.addedAt), rating, MemoOf(options.memo))]), None, None))
      case SyncShow =>
        Ok(HistoryPayload(None, Some([ShowItem(idsPayload, options.status, None)]), None))
      case SyncEpisode =>
        Ok(HistoryPayload(None, None, Some([EpisodeItem(idsPayload, watchedAt)])))
  }

  /** A rating is checked for every kind of item but only written for movies. */
  lemma RatingOnlyForMovies(t: SyncType, ids: ExternalIds, x: real)
    requires IsValidSimklIdsObject(ids) && 1.0 <= x < 11.0 && t != SyncMovie
    ensures BuildSimklHistoryAddPayload(t, ids, NoOptions.(rating := Some(Finite(x))))
         == BuildSimklHistoryAddPayload(t, ids, NoOptions)
  {
    RatingAcceptedRange(x);
  }

  /** `getSimklIdsObject`: the ids `parseMediaIdInput` reads from a media id. */
  function GetSimklIdsObject(id: IdInput): (ids: ExternalIds)
    ensures ValidIds(ids)
  {
    ParseMediaIdInput(id, false).ids
  }

  /** `tryBuildSimklHistoryAddPayloadFromId`: the add payload, or `None` where the builder would throw. */
  function TryBuildSimklHistoryAddPayloadFromId(t: SyncType, id: IdInput, options: AddOptions): (r: Option<HistoryPayload>)
    ensures r.Some? <==> IsValidSimklIdsObject(GetSimklIdsObject(id)) && !RatingRejected(options.rating)
    ensures r.Some? ==> BuildSimklHistoryAddPayload(t, GetSimklIdsObject(id), options) == Ok(r.value)
  {
    var ids := GetSimklIdsObject(id);
    if !IsValidSimklIdsObject(ids) then None
    else
      var built := BuildSimklHistoryAddPayload(t, ids, options);
      if built.Ok? then Some(built.value) else None
  }

  /** A number or NaN/infinity that is finite and above zero. */
  predicate PositiveNumber(x: JsNumber) {
    x.Finite? && x.value > 0.0
  }

  /** `buildSimklShowEpisodeHistoryAddPayload`: one show holding one season holding one episode. */
  function BuildSimklShowEpisodeHistoryAddPayload(showIds: ExternalIds, season: JsNumber, episode: JsNumber, watchedAt: Option<string>): (r: Result<HistoryPayload, string>)
    ensures r.Err? <==> !IsValidSimklIdsObject(showIds) || !PositiveNumber(season) || !PositiveNumber(episode)
    ensures !IsValidSimklIdsObject(showIds) ==> r.error == InvalidIdsMessage("show episode history add payload")
    ensures IsValidSimklIdsObject(showIds) && r.Err? ==> r.error == SeasonEpisodeMessage
    ensures r.Ok? ==> SingleItemOf(r.value, SyncShow) && ItemIds(r.value, SyncShow) == NormalizeIdsForPayload(showIds)
    ensures r.Ok? ==>
      var show := r.value.shows.value[0];
      show.status.None? && show.seasons.Some? && |show.seasons.value| == 1
      && show.seasons.value[0].number == Trunc(season.value) >= 0
      && show.seasons.value[0].episodes == Some([Trunc(episode.value)])
      && show.seasons.value[0].watchedAt == TrimmedText(watchedAt)
  {
    if !IsValidSimklIdsObject(showIds) then Err(InvalidIdsMessage("show episode history add payload"))
    else if !PositiveNumber(season) || !PositiveNumber(episode) then Err(SeasonEpisodeMessage)
    else
      var seasonItem := SeasonItem(Trunc(season.value), TrimmedText(watchedAt), Some([Trunc(episode.value)]));
      Ok(HistoryPayload(None, Some([ShowItem(NormalizeIdsForPayload(showIds), None, Some([seasonItem]))]), None))
  }

  /** `buildSimklHistoryRemovePayload`: the item carries its ids and nothing else. */
  function BuildSimklHistoryRemovePayload(t: SyncType, ids: ExternalIds): (r: Result<HistoryPayload, string>)
    ensures r.Err? <==> !IsValidSimklIdsObject(ids)
    ensures r.Err? ==> r.error == InvalidIdsMessage("history remove payload (" + SyncTypeName(t) + ")")
    ensures r.Ok? ==> SingleItemOf(r.value, t) && ItemIds(r.value, t) == NormalizeIdsForPayload(ids)
  {
    if !IsValidSimklIdsObject(ids) then Err(InvalidIdsMessage("history remove payload (" + SyncTypeName(t) + ")"))
    else
      var idsPayload := NormalizeIdsForPayload(ids);
      match t
      case SyncMovie => Ok(HistoryPayload(Some([MovieItem(idsPayload, None, None, None, None)]), None, None))
      case SyncShow => Ok(HistoryPayload(None, Some([ShowItem(idsPayload, None, None)]), None))
      case SyncEpisode => Ok(HistoryPayload(None, None, Some([EpisodeItem(idsPayload, None)])))
  }

  /** A removal body is the add body built without options. */
  lemma RemoveIsBareAdd(t: SyncType, ids: ExternalIds)
    ensures BuildSimklHistoryRemovePayload(t, ids).Ok? <==> BuildSimklHistoryAddPayload(t, ids, NoOptions).Ok?
    ensures BuildSimklHistoryRemovePayload(t, ids).Ok? ==>
      BuildSimklHistoryRemovePayload(t, ids) == BuildSimklHistoryAddPayload(t, ids, NoOptions)
  {
  }

  /** `tryBuildSimklHistoryRemovePayloadFromId`. */
  function TryBuildSimklHistoryRemovePayloadFromId(t: SyncType, id: IdInput): (r: Option<HistoryPayload>)
    ensures r.Some? <==> IsValidSimklIdsObject(GetSimklIdsObject(id))
    ensures r.Some? ==> BuildSimklHistoryRemovePayload(t, GetSimklIdsObject(id)) == Ok(r.value)
  {
    var ids := GetSimklIdsObject(id);
    if !IsValidSimklIdsObject(ids) then None
    else
      var built := BuildSimklHistoryRemovePayload(t, ids);
      if built.Ok? then Some(built.value) else None
  }

  /** A positive numeric id is read as a TMDB id, which Simkl accepts. */
  lemma RemoveByNumber(t: SyncType, n: PosInt)
    ensures TryBuildSimklHistoryRemovePayloadFromId(t, Number(n)).Some?
    ensures ItemIds(TryBuildSimklHistoryRemovePayloadFromId(t, Number(n)).value, t) == PayloadIds(None, Some(n), None, None)
  {
    NumberInput(n, false);
  }

  /** `buildSimklShowEpisodeHistoryRemovePayload`: a whole season, or one episode of it. */
  function BuildSimklShowEpisodeHistoryRemovePayload(showIds: ExternalIds, season: JsNumber, episode: Option<JsNumber>): (r: Result<HistoryPayload, string>)
    ensures r.Err? <==> !IsValidSimklIdsObject(showIds) || !PositiveNumber(season) || (episode.Some? && !PositiveNumber(episode.value))
    ensures !IsValidSimklIdsObject(showIds) ==> r.error == InvalidIdsMessage("show episode history remove payload")
    ensures IsValidSimklIdsObject(showIds) && !PositiveNumber(season) ==> r.error == SeasonMessage
    ensures IsValidSimklIdsObject(showIds) && PositiveNumber(season) && r.Err? ==> r.error == EpisodeMessage
    ensures r.Ok? ==> SingleItemOf(r.value, SyncShow) && ItemIds(r.value, SyncShow) == NormalizeIdsForPayload(showIds)
    ensures r.Ok? ==>
      var show := r.value.shows.value[0];
      show.status.None? && show.seasons.Some? && |show.seasons.value| == 1
      && show.seasons.value[0].number == Trunc(season.value) >= 0
      && show.seasons.value[0].watchedAt.None?
      && (show.seasons.value[0].episodes.Some? <==> episode.Some?)
      && (episode.Some? ==> show.seasons.value[0].episodes == Some([Trunc(episode.value.value)]))
  {
    if !IsValidSimklIdsObject(showIds) then Err(InvalidIdsMessage("show episode history remove payload"))
    else if !PositiveNumber(season) then Err(SeasonMessage)
    else if episode.Some? && !PositiveNumber(episode.value) then Err(EpisodeMessage)
    else
      var episodes := if episode.Some? then Some([Trunc(episode.value.value)]) else None;
      Ok(HistoryPayload(None, Some([ShowItem(NormalizeIdsForPayload(showIds), None, Some([SeasonItem(Trunc(season.value), None, episodes)]))]), None))
  }

  /** Removing one episode sends the body that marking it watched sends without a date. */
  lemma EpisodeRemoveMatchesAdd(showIds: ExternalIds, season: JsNumber, episode: JsNumber)
    ensures BuildSimklShowEpisodeHistoryRemovePayload(showIds, season, Some(episode)).Ok?
        <==> BuildSimklShowEpisodeHistoryAddPayload(showIds, season, episode, None).Ok?
    ensures BuildSimklShowEpisodeHistoryRemovePayload(showIds, season, Some(episode)).Ok? ==>
      BuildSimklShowEpisodeHistoryRemovePayload(showIds, season, Some(episode))
      == BuildSimklShowEpisodeHistoryAddPayload(showIds, season, episode, None)
  {
  }

  /**
   * The guard admits fractions below one: a season of 0.5 passes the positivity check
   * and is written as season 0.
   */
  lemma FractionalSeasonWrittenAsZero(showIds: ExternalIds)
    requires IsValidSimklIdsObject(showIds)
    ensures BuildSimklShowEpisodeHistoryAddPayload(showIds, Finite(0.5), Finite(1.0), None).Ok?
    ensures BuildSimklShowEpisodeHistoryAddPayload(showIds, Finite(0.5), Finite(1.0), None).value.shows.value[0].seasons.value[0].number == 0
    ensures BuildSimklShowEpisodeHistoryRemovePayload(showIds, Finite(0.5), None).Ok?
    ensures BuildSimklShowEpisodeHistoryRemovePayload(showIds, Finite(0.5), None).value.shows.value[0].seasons.value[0].number == 0
  {
    TruncPositiveZero(0.5);
  }

  /** A finite number whose integer part is at least one. */
  predicate PositiveInteger(x: JsNumber) {
    x.Finite? && x.value >= 1.0
  }

  /**
   * `buildSimklShowEpisodeHistoryAddPayload` with the guard the error message describes:
   * a season or episode whose integer part is below one is refused.
   */
  function BuildCheckedShowEpisodeAddPayload(showIds: ExternalIds, season: JsNumber, episode: JsNumber, watchedAt: Option<string>): (r: Result<HistoryPayload, string>)
    ensures r.Err? <==> !IsValidSimklIdsObject(showIds) || !PositiveInteger(season) || !PositiveInteger(episode)
    ensures r.Ok? ==> r == BuildSimklShowEpisodeHistoryAddPayload(showIds, season, episode, watchedAt)
    ensures r.Ok? ==>
      var s := r.value.shows.value[0].seasons.value[0];
      s.number >= 1 && s.episodes.Some? && |s.episodes.value| == 1 && s.episodes.value[0] >= 1
  {
    if IsValidSimklIdsObject(showIds) && !(PositiveInteger(season) && PositiveInteger(episode)) then Err(SeasonEpisodeMessage)
    else BuildSimklShowEpisodeHistoryAddPayload(showIds, season, episode, watchedAt)
  }

  /**
   * `buildSimklShowEpisodeHistoryRemovePayload` with the guard its error messages describe.
   */
  function BuildCheckedShowEpisodeRemovePayload(showIds: ExternalIds, season: JsNumber, episode: Option<JsNumber>): (r: Result<HistoryPayload, string>)
    ensures r.Err? <==> !IsValidSimklIdsObject(showIds) || !PositiveInteger(season) || (episode.Some? && !PositiveInteger(episode.value))
    ensures r.Ok? ==> r == BuildSimklShowEpisodeHistoryRemovePayload(showIds, season, episode)
    ensures r.Ok? ==>
      var s := r.value.shows.value[0].seasons.value[0];
      s.number >= 1 && (s.episodes.Some? ==> |s.episodes.value| == 1 && s.episodes.value[0] >= 1)
  {
    if IsValidSimklIdsObject(showIds) && !PositiveInteger(season) then Err(SeasonMessage)
    else if IsValidSimklIdsObject(showIds) && episode.Some? && !PositiveInteger(episode.value) then Err(EpisodeMessage)
    else BuildSimklShowEpisodeHistoryRemovePayload(showIds, season, episode)
  }
}
