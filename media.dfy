/** The shared domain values: media type and the external id set of a title. */
module Media {
  import opened Wrappers
  import opened Strings

  type PosInt = n: int | n > 0 witness 1

  datatype MediaType = Movie | Series

  /** Native ids of one title across providers; every field is optional. */
  datatype ExternalIds = ExternalIds(
    trakt: Option<int>,
    tmdb: Option<int>,
    tvdb: Option<int>,
    simkl: Option<int>,
    imdb: Option<string>,
    slug: Option<string>)

  const NoIds := ExternalIds(None, None, None, None, None, None)

  /** The artwork of a title; every field is optional. */
  datatype ImageSet = ImageSet(
    poster: Option<string>,
    backdrop: Option<string>,
    logo: Option<string>,
    fanart: Option<string>,
    thumbnail: Option<string>,
    posters: Option<seq<string>>,
    backdrops: Option<seq<string>>)

  const NoImages := ImageSet(None, None, None, None, None, None, None)

  /** The episode a normalised item refers to. */
  datatype EpisodeInfo = EpisodeInfo(
    season: int,
    episode: int,
    title: Option<string>,
    overview: Option<string>,
    runtimeMinutes: Option<int>,
    releaseDate: Option<string>,
    thumbnail: Option<string>)

  /** JavaScript truthiness of an optional number. */
  predicate NumSet(x: Option<int>) {
    x.Some? && x.value != 0
  }

  /** JavaScript truthiness of an optional string. */
  predicate StrSet(x: Option<string>) {
    x.Some? && x.value != ""
  }

  /** A lowercase IMDb id: `tt` followed by one or more digits. */
  predicate IsImdbId(s: string) {
    |s| >= 3 && s[0] == 't' && s[1] == 't' && IsDigits(s[2..])
  }

  predicate PositiveOpt(x: Option<int>) {
    x.Some? ==> x.value > 0
  }

  /** Ids whose numbers are positive and whose imdb id is in canonical lowercase form. */
  predicate ValidIds(ids: ExternalIds) {
    PositiveOpt(ids.trakt) && PositiveOpt(ids.tmdb) && PositiveOpt(ids.tvdb) && PositiveOpt(ids.simkl)
    && (ids.imdb.Some? ==> IsImdbId(ids.imdb.value))
  }

  /** The fields that `mergeExternalIds` copies. */
  datatype Field = TraktField | TmdbField | TvdbField | ImdbField | SlugField

  predicate HasField(ids: ExternalIds, f: Field) {
    match f
    case TraktField => NumSet(ids.trakt)
    case TmdbField => NumSet(ids.tmdb)
    case TvdbField => NumSet(ids.tvdb)
    case ImdbField => StrSet(ids.imdb)
    case SlugField => StrSet(ids.slug)
  }

  predicate SameField(a: ExternalIds, b: ExternalIds, f: Field) {
    match f
    case TraktField => a.trakt == b.trakt
    case TmdbField => a.tmdb == b.tmdb
    case TvdbField => a.tvdb == b.tvdb
    case ImdbField => a.imdb == b.imdb
    case SlugField => a.slug == b.slug
  }
}
