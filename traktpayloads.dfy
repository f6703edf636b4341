/**
 * Request bodies for Trakt's sync and rating endpoints (`src/trakt/payloads.ts`): the
 * ids are checked, then sent unchanged as the single item of one list.
 */
module TraktPayloads {
  import opened Wrappers
  import opened Media
  import opened JsNumbers
  import opened ExternalId
  import opened TraktScrobble

  datatype SyncType = SyncMovie | SyncShow | SyncEpisode

  function SyncTypeName(t: SyncType): string {
    match t
    case SyncMovie => "movie"
    case SyncShow => "show"
    case SyncEpisode => "episode"
  }

  /** `TraktSyncPayload`: each item is its ids object; an absent list is `None`. */
  datatype SyncPayload = SyncPayload(
    movies: Option<seq<ExternalIds>>,
    shows: Option<seq<ExternalIds>>,
    episodes: Option<seq<ExternalIds>>)

  datatype RatingItem = RatingItem(ids: ExternalIds, rating: real, ratedAt: Option<string>)

  /** `TraktRatingPayload`. */
  datatype RatingPayload = RatingPayload(
    movies: Option<seq<RatingItem>>,
    shows: Option<seq<RatingItem>>,
    episodes: Option<seq<RatingItem>>)

  function InvalidIdsMessage(context: string): string {
    "[media-core][trakt] Invalid ids for " + context
  }

  const RatingMessage := "[media-core][trakt] Rating must be between 1 and 10"

  /** `makeSyncPayload`: the ids as the one item of the list `t` names. */
  function MakeSyncPayload(t: SyncType, ids: ExternalIds): (p: SyncPayload)
    ensures t == SyncMovie <==> p.movies.Some?
    ensures t == SyncShow <==> p.shows.Some?
    ensures t == SyncEpisode <==> p.episodes.Some?
    ensures p.movies.Some? ==> p.movies.value == [ids]
    ensures p.shows.Some? ==> p.shows.value == [ids]
    ensures p.episodes.Some? ==> p.episodes.value == [ids]
  {
    match t
    case SyncMovie => SyncPayload(Some([ids]), None, None)
    case SyncShow => SyncPayload(None, Some([ids]), None)
    case SyncEpisode => SyncPayload(None, None, Some([ids]))
  }

  /** Different item types give different payloads for the same ids. */
  lemma MakeSyncPayloadInjective(t1: SyncType, t2: SyncType, ids1: ExternalIds, ids2: ExternalIds)
    requires MakeSyncPayload(t1, ids1) == MakeSyncPayload(t2, ids2)
    ensures t1 == t2 && ids1 == ids2
  {
    var p := MakeSyncPayload(t1, ids1);
    if p.movies.Some? {
      assert [ids1] == p.movies.value == [ids2];
    } else if p.shows.Some? {
      assert [ids1] == p.shows.value == [ids2];
    } else {
      assert [ids1] == p.episodes.value == [ids2];
    }
  }

  /** `buildTraktSyncPayload`. */
  function BuildTraktSyncPayload(t: SyncType, ids: ExternalIds): (r: Result<SyncPayload, string>)
    ensures r.Err? <==> !IsValidTraktIdsObject(ids)
    ensures r.Err? ==> r.error == InvalidIdsMessage("sync payload (" + SyncTypeName(t) + ")")
    ensures r.Ok? ==> r.value == MakeSyncPayload(t, ids)
  {
    if !IsValidTraktIdsObject(ids) then Err(InvalidIdsMessage("sync payload (" + SyncTypeName(t) + ")"))
    else Ok(MakeSyncPayload(t, ids))
  }

  /** `tryBuildTraktSyncPayloadFromId`: `None` exactly where the builder would throw. */
  function TryBuildTraktSyncPayloadFromId(t: SyncType, id: IdInput): (r: Option<SyncPayload>)
    ensures r.Some? <==> BuildTraktSyncPayload(t, GetTraktIdsObject(id)).Ok?
    ensures r.Some? ==> BuildTraktSyncPayload(t, GetTraktIdsObject(id)) == Ok(r.value)
  {
    var ids := GetTraktIdsObject(id);
    if !IsValidTraktIdsObject(ids) then None else Some(MakeSyncPayload(t, ids))
  }

  /** A positive numeric id always gives a payload carrying it as the TMDB id. */
  lemma SyncByNumber(t: SyncType, n: PosInt)
    ensures TryBuildTraktSyncPayloadFromId(t, Number(n)) == Some(MakeSyncPayload(t, NoIds.(tmdb := Some(n))))
  {
    NumberIdValid(n);
  }

  /** A rating Trakt accepts: a finite number in `[1, 10]`, fractions included. */
  predicate ValidRating(rating: JsNumber) {
    rating.Finite? && 1.0 <= rating.value <= 10.0
  }

  /** `ratedAt ? … : …`: an empty string counts as absent. */
  function RatedAt(ratedAt: Option<string>): (r: Option<string>)
    ensures r.Some? <==> ratedAt.Some? && ratedAt.value != ""
    ensures r.Some? ==> r == ratedAt
  {
    if ratedAt.Some? && ratedAt.value != "" then ratedAt else None
  }

  /** The list of a rating payload that `t` names. */
  function RatingItems(p: RatingPayload, t: SyncType): Option<seq<RatingItem>> {
    match t
    case SyncMovie => p.movies
    case SyncShow => p.shows
    case SyncEpisode => p.episodes
  }

  /** `buildTraktRatingPayload`: the ids with the rating as given, never rounded. */
  function BuildTraktRatingPayload(t: SyncType, ids: ExternalIds, rating: JsNumber, ratedAt: Option<string>): (r: Result<RatingPayload, string>)
    ensures r.Err? <==> !IsValidTraktIdsObject(ids) || !ValidRating(rating)
    ensures !IsValidTraktIdsObject(ids) ==> r.error == InvalidIdsMessage("rating payload (" + SyncTypeName(t) + ")")
    ensures IsValidTraktIdsObject(ids) && !ValidRating(rating) ==> r.error == RatingMessage
    ensures r.Ok? ==> (t == SyncMovie <==> r.value.movies.Some?) && (t == SyncShow <==> r.value.shows.Some?)
                      && (t == SyncEpisode <==> r.value.episodes.Some?)
    ensures r.Ok? ==> RatingItems(r.value, t) == Some([RatingItem(ids, rating.value, RatedAt(ratedAt))])
  {
    if !IsValidTraktIdsObject(ids) then Err(InvalidIdsMessage("rating payload (" + SyncTypeName(t) + ")"))
    else if !ValidRating(rating) then Err(RatingMessage)
    else
      var item := RatingItem(ids, rating.value, RatedAt(ratedAt));
      match t
      case SyncMovie => Ok(RatingPayload(Some([item]), None, None))
      case SyncShow => Ok(RatingPayload(None, Some([item]), None))
      case SyncEpisode => Ok(RatingPayload(None, None, Some([item])))
  }

  /** `tryBuildTraktRatingPayloadFromId`: `None` for invalid ids or an invalid rating, never an error. */
  function TryBuildTraktRatingPayloadFromId(t: SyncType, id: IdInput, rating: JsNumber, ratedAt: Option<string>): (r: Option<RatingPayload>)
    ensures r.Some? <==> IsValidTraktIdsObject(GetTraktIdsObject(id)) && ValidRating(rating)
    ensures r.Some? ==> BuildTraktRatingPayload(t, GetTraktIdsObject(id), rating, ratedAt) == Ok(r.value)
  {
    var ids := GetTraktIdsObject(id);
    if !IsValidTraktIdsObject(ids) then None
    else if !ValidRating(rating) then None
    else
      var built := BuildTraktRatingPayload(t, ids, rating, ratedAt);
      if built.Ok? then Some(built.value) else None
  }

  /** The rating and sync payloads of an id list the same item type with the same ids. */
  lemma RatingMatchesSync(t: SyncType, ids: ExternalIds, rating: JsNumber, ratedAt: Option<string>)
    requires BuildTraktRatingPayload(t, ids, rating, ratedAt).Ok?
    ensures BuildTraktSyncPayload(t, ids).Ok?
    ensures var sync := BuildTraktSyncPayload(t, ids).value;
            var rated := BuildTraktRatingPayload(t, ids, rating, ratedAt).value;
            (sync.movies.Some? <==> rated.movies.Some?) && (sync.shows.Some? <==> rated.shows.Some?)
            && (sync.movies.Some? ==> rated.movies.value[0].ids == sync.movies.value[0])
            && (sync.shows.Some? ==> rated.shows.value[0].ids == sync.shows.value[0])
            && (sync.episodes.Some? ==> rated.episodes.value[0].ids == sync.episodes.value[0])
  {
  }
}
