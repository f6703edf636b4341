/** The Stremio addon record shapes the parsers produce (`src/stremio/types.ts`). */
module StremioTypes {
  import opened Wrappers
  import opened Media
  import opened Json

  /** `StremioMetaPreview`; `runtime`, `imdbRating` and `behaviorHints` keep their raw value. */
  datatype MetaPreview = MetaPreview(
    id: string,
    mediaType: MediaType,
    name: string,
    poster: Option<string>,
    posterShape: Option<string>,
    background: Option<string>,
    logo: Option<string>,
    description: Option<string>,
    releaseInfo: Option<string>,
    genres: Option<seq<string>>,
    runtime: Option<Json>,
    imdbRating: Option<Json>,
    imdbId: Option<string>,
    behaviorHints: Option<Json>)

  /** `StremioVideo`. */
  datatype Video = Video(
    id: string,
    title: Option<string>,
    season: Option<int>,
    episode: Option<int>,
    released: Option<string>,
    overview: Option<string>,
    thumbnail: Option<string>,
    runtime: Option<Json>,
    imdbRating: Option<Json>,
    behaviorHints: Option<Json>)

  /** `StremioStream`. */
  datatype Stream = Stream(
    name: string,
    title: Option<string>,
    url: Option<string>,
    infoHash: Option<string>,
    behaviorHints: Option<Json>)

  /** `StremioSubtitle`. */
  datatype Subtitle = Subtitle(id: Option<string>, url: string, lang: string)

  /** `StremioLink`. */
  datatype Link = Link(name: string, url: string, category: Option<string>)

  /** `StremioMeta`: a preview with its cast, directors, videos and links. */
  datatype Meta = Meta(
    preview: MetaPreview,
    cast: Option<seq<string>>,
    director: Option<seq<string>>,
    videos: Option<seq<Video>>,
    links: Option<seq<Link>>)
}
