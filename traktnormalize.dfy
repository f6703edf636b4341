/**
 * Trakt items normalised into the shared media record (`src/trakt/normalize.ts`):
 * image URLs made absolute, the ids Trakt reports, the episode an item refers to,
 * and which of the wrapped movie, show or episode objects an item is read from.
 */
module TraktNormalize {
  import opened Wrappers
  import opened Strings
  import opened Media
  import opened Json
  import opened ExternalId
  import opened UrlPatterns
  import opened Seqs

  /** The hosts (and path) of the `https://walter.trakt.tv` and `https://image.tmdb.org/t/p/original` bases. */
  const TraktWalterHost: string := "walter.trakt.tv"
  const TmdbOriginalHost: string := "image.tmdb.org/t/p/original"
  const UnknownTitle: string := "Unknown title"

  /** `readNumber`: a number property; every decoded number is finite. */
  function ReadNumber(record: Json, key: string): Option<int> {
    AsNumber(Get(record, key))
  }

  // ---------------------------------------------------------------------------
  // image URLs

  /** `//host/path` takes the `https:` scheme. */
  lemma SchemeRelativeJoin(t: string)
    requires IsTrimmedText(t) && StartsWith(t, "//")
    ensures IsTrimmedText("https:" + t) && IsHttpUrl("https:" + t)
  {
    assert t[0] == '/' && t[1] == '/' by { assert t[..2] == "//"; }
    HttpsLead("https:" + t);
  }

  /** `/http…` loses its slash and takes the `https:` scheme. */
  lemma SlashHttpJoin(t: string)
    requires IsTrimmedText(t) && StartsWith(t, "/http")
    ensures IsTrimmedText("https:" + t[1..])
  {
  }

  /** Any text after `https://` that does not end in a space makes a trimmed absolute URL. */
  lemma HttpsSchemeJoin(rest: string)
    requires rest == "" || !IsSpace(rest[|rest| - 1])
    ensures IsTrimmedText("https://" + rest) && IsHttpUrl("https://" + rest)
  {
    HttpsLead("https://" + rest);
  }

  /** The rules of `normalizeImageUrl` for a value that starts with `/`, in their order. */
  function ResolveSlashPath(t: string): (r: string)
    requires IsTrimmedText(t) && t[0] == '/'
    ensures IsTrimmedText(r)
    ensures !StartsWith(t, "/http") ==> IsHttpUrl(r)
    ensures StartsWith(t, "//") ==> r == "https:" + t
    ensures StartsWith(t, "/http") ==> r == "https:" + t[1..]
    ensures StartsWith(t, "/images") ==> r == "https://" + TraktWalterHost + t
    ensures !StartsWith(t, "//") && !StartsWith(t, "/http") && !StartsWith(t, "/images") ==>
              r == "https://" + TmdbOriginalHost + t
  {
    if StartsWith(t, "//") then
      SchemeRelativeJoin(t);
      assert !StartsWith(t, "/http") by { assert t[..2][1] == '/'; }
      "https:" + t
    else if StartsWith(t, "/http") then
      SlashHttpJoin(t);
      "https:" + t[1..]
    else if StartsWith(t, "/images") then
      HttpsSchemeJoin(TraktWalterHost + t);
      "https://" + (TraktWalterHost + t)
    else
      HttpsSchemeJoin(TmdbOriginalHost + t);
      "https://" + (TmdbOriginalHost + t)
  }

  /** The rules of `normalizeImageUrl`, in their order, on a trimmed non-empty value. */
  function ResolveImageUrl(t: string): (r: Option<string>)
    requires IsTrimmedText(t)
    ensures IsHttpUrl(t) ==> r == Some(t)
    ensures r.None? <==> !IsHttpUrl(t) && t[0] != '/' && !HostWithPath(t)
    ensures r.Some? ==> IsTrimmedText(r.value)
    ensures r.Some? && !StartsWith(t, "/http") ==> IsHttpUrl(r.value)
    ensures t[0] == '/' ==> r == Some(ResolveSlashPath(t))
    ensures !IsHttpUrl(t) && t[0] != '/' && HostWithPath(t) ==> r == Some("https://" + t)
  {
    if IsHttpUrl(t) then Some(t)
    else if t[0] == '/' then Some(ResolveSlashPath(t))
    else if HostWithPath(t) then
      HttpsSchemeJoin(t);
      Some("https://" + t)
    else None
  }

  /**
   * `normalizeImageUrl`: nothing for a blank value; otherwise the trimmed value resolved
   * to an absolute URL, or nothing when it is neither a URL, a `/` path nor a host name.
   */
  function NormalizeImageUrl(value: Option<string>): (r: Option<string>)
    ensures value.None? || Trim(value.value) == "" ==> r.None?
    ensures value.Some? && IsHttpUrl(Trim(value.value)) ==> r == Some(Trim(value.value))
    ensures value.Some? && StartsWith(Trim(value.value), "/") ==> r.Some?
    ensures r.Some? ==> value.Some? && IsTrimmedText(r.value)
    ensures r.Some? ==> IsHttpUrl(r.value) || StartsWith(Trim(value.value), "/http")
    ensures value.Some? && Trim(value.value) != "" ==> r == ResolveImageUrl(Trim(value.value))
  {
    if value.None? then None
    else if value.value == "" then
      assert Trim(value.value) == "";
      None
    else
      var t := Trim(value.value);
      StartsWithChar(t, '/');
      if t == "" then None
      else ResolveImageUrl(t)
  }

  /** Every absolute URL the normaliser produces is left alone by a second pass. */
  lemma NormalizeImageUrlIdempotent(value: Option<string>)
    requires NormalizeImageUrl(value).Some? && IsHttpUrl(NormalizeImageUrl(value).value)
    ensures NormalizeImageUrl(NormalizeImageUrl(value)) == NormalizeImageUrl(value)
  {
    TrimNoop(NormalizeImageUrl(value).value);
  }

  /**
   * The `/http` rule keeps the path's `http` after the new scheme: `/https://h` becomes
   * `https:https://h`, which is not an http(s) URL.
   */
  lemma SlashHttpKeepsScheme(h: string)
    requires h == "" || !IsSpace(h[|h| - 1])
    ensures NormalizeImageUrl(Some("/https://" + h)) == Some("https:https://" + h)
    ensures !IsHttpUrl("https:https://" + h)
  {
    var t := "/https://" + h;
    TrimNoop(t);
    assert t[..5] == "/http";
    assert t[..2] != "//" by { assert t[1] == 'h'; }
    SlashNotHttp(t);
    assert NormalizeImageUrl(Some(t)) == ResolveImageUrl(t);
    assert ResolveImageUrl(t) == Some(ResolveSlashPath(t));
    assert t[1..] == "https://" + h;
    assert "https:" + t[1..] == "https:https://" + h;
    DoubledSchemeNotHttp(h);
  }

  /** A value starting with `/` is not an http(s) URL. */
  lemma SlashNotHttp(t: string)
    requires t != "" && t[0] == '/'
    ensures !IsHttpUrl(t)
  {
  }

  /** `https:https://…` is not an http(s) URL: its fifth or seventh character breaks the scheme. */
  lemma DoubledSchemeNotHttp(h: string)
    ensures !IsHttpUrl("https:https://" + h)
  {
    var u := "https:https://" + h;
    if StartsWithNoCase(u, "http://") {
      StartsWithNoCaseAt(u, "http://", 4);
    }
    if StartsWithNoCase(u, "https://") {
      StartsWithNoCaseAt(u, "https://", 6);
    }
  }

  /** `readString(record, 'full') ?? … 'medium' ?? … 'thumb' ?? … 'url'`. */
  function Candidate(record: Json): (r: Option<string>)
    ensures r.Some? ==> IsTrimmedText(r.value)
  {
    ReadString(record, "full").OrElse(ReadString(record, "medium")).OrElse(ReadString(record, "thumb"))
      .OrElse(ReadString(record, "url"))
  }

  /**
   * The first of `full`, `medium`, `thumb` and `url` that is a non-blank string wins,
   * even when it does not resolve and a later one would.
   */
  lemma CandidatePriority(record: Json)
    ensures ReadString(record, "full").Some? ==> Candidate(record) == ReadString(record, "full")
    ensures ReadString(record, "full").None? && ReadString(record, "medium").Some? ==>
      Candidate(record) == ReadString(record, "medium")
    ensures ReadString(record, "full").None? && ReadString(record, "medium").None? ==>
      Candidate(record) == ReadString(record, "thumb").OrElse(ReadString(record, "url"))
  {
  }

  /** An unresolvable `full` hides a resolvable `medium`. */
  lemma UnresolvedFullHidesMedium(record: Json)
    requires ReadString(record, "full").Some? && NormalizeImageUrl(ReadString(record, "full")).None?
    ensures NormalizeImageUrl(Candidate(record)).None?
  {
  }

  /** The URL one entry of an image array yields: a string as is, a record by its candidate. */
  function EntryUrl(entry: Json): (r: Option<string>)
    ensures r.Some? ==> IsTrimmedText(r.value)
  {
    if entry.JStr? then NormalizeImageUrl(Some(entry.s))
    else if IsRecord(entry) then NormalizeImageUrl(Candidate(entry))
    else None
  }

  /** The URL of the first entry that yields one. */
  function FirstEntryUrl(entries: seq<Json>): (r: Option<string>)
    ensures r.None? <==> forall i :: 0 <= i < |entries| ==> EntryUrl(entries[i]).None?
    ensures r.Some? ==> IsTrimmedText(r.value)
  {
    FirstSome(EntryUrl, entries)
  }

  /** The entry at `k` wins when every entry before it yields nothing. */
  lemma FirstEntryUrlAt(entries: seq<Json>, k: nat)
    requires k < |entries| && EntryUrl(entries[k]).Some?
    requires forall j :: 0 <= j < k ==> EntryUrl(entries[j]).None?
    ensures FirstEntryUrl(entries) == EntryUrl(entries[k])
  {
    FirstSomeAt(EntryUrl, entries, k);
  }

  /** The first URL from `i` on is the entry's own, or else the first from `i + 1` on. */
  lemma FirstEntryUrlStep(entries: seq<Json>, i: nat)
    requires i < |entries|
    ensures FirstEntryUrl(entries[i..])
            == if EntryUrl(entries[i]).Some? then EntryUrl(entries[i]) else FirstEntryUrl(entries[i + 1..])
  {
    assert entries[i..][0] == entries[i] && entries[i..][1..] == entries[i + 1..];
  }

  /** What `firstImageValue` returns: a string, an array by its first entry, a record by its candidate. */
  function FirstImage(value: Option<Json>): (r: Option<string>)
    ensures r.Some? ==> IsTrimmedText(r.value)
  {
    if value.None? then None
    else match value.value
      case JStr(s) => NormalizeImageUrl(Some(s))
      case JArr(items) => FirstEntryUrl(items)
      case JObj(_) => NormalizeImageUrl(Candidate(value.value))
      case _ => None
  }

  /** `firstImageValue`: the array case returns from inside the loop at the first usable entry. */
  method FirstImageValue(value: Option<Json>) returns (r: Option<string>)
    ensures r == FirstImage(value)
  {
    if value.None? {
      return None;
    }
    var v := value.value;
    if v.JStr? {
      r := NormalizeImageUrl(Some(v.s));
    } else if v.JArr? {
      r := FirstArrayImage(v.items);
    } else if !IsRecord(v) {
      r := None;
    } else {
      r := NormalizeImageUrl(Candidate(v));
    }
  }

  /** The array case of `firstImageValue`: the scan returning at the first usable entry. */
  method FirstArrayImage(items: seq<Json>) returns (r: Option<string>)
    ensures r == FirstEntryUrl(items)
  {
    for i := 0 to |items|
      invariant FirstEntryUrl(items[i..]) == FirstEntryUrl(items)
    {
      FirstEntryUrlStep(items, i);
      var entry := items[i];
      if entry.JStr? {
        var normalized := NormalizeImageUrl(Some(entry.s));
        if normalized.Some? {
          return normalized;
        }
        continue;
      }
      if !IsRecord(entry) {
        continue;
      }
      var candidate := Candidate(entry);
      var normalized := NormalizeImageUrl(candidate);
      if normalized.Some? {
        return normalized;
      }
    }
    assert items[|items|..] == [];
    return None;
  }

  /** `extractImages`: poster, backdrop (from `fanart`), logo and thumbnail (from `thumb`). */
  function ExtractImages(images: Option<Json>): (r: ImageSet)
    ensures r.fanart.None? && r.posters.None? && r.backdrops.None?
    ensures r.poster == FirstImage(GetOpt(images, "poster")) && r.logo == FirstImage(GetOpt(images, "logo"))
    ensures r.backdrop == FirstImage(GetOpt(images, "fanart")) && r.thumbnail == FirstImage(GetOpt(images, "thumb"))
    ensures images.None? ==> r == NoImages
  {
    NoImages.(poster := FirstImage(GetOpt(images, "poster")), backdrop := FirstImage(GetOpt(images, "fanart")),
              logo := FirstImage(GetOpt(images, "logo")), thumbnail := FirstImage(GetOpt(images, "thumb")))
  }

  // ---------------------------------------------------------------------------
  // ids and episode

  /**
   * `extractIds`: Trakt and TMDB ids when they are non-zero numbers, the normalised IMDb
   * id and the trimmed slug; TVDB and Simkl ids are never read.
   */
  function ExtractIds(value: Option<Json>): (ids: ExternalIds)
    ensures ids.tvdb.None? && ids.simkl.None?
    ensures ids.trakt.Some? <==> value.Some? && NumSet(ReadNumber(value.value, "trakt"))
    ensures ids.trakt.Some? ==> ids.trakt == ReadNumber(value.value, "trakt")
    ensures ids.tmdb.Some? <==> value.Some? && NumSet(ReadNumber(value.value, "tmdb"))
    ensures ids.tmdb.Some? ==> ids.tmdb == ReadNumber(value.value, "tmdb")
    ensures ids.imdb.Some? ==> value.Some? && IsImdbId(ids.imdb.value)
    ensures value.Some? ==> ids.imdb == NormalizeImdbId(ReadString(value.value, "imdb"))
    ensures value.Some? ==> ids.slug == ReadString(value.value, "slug")
    ensures value.None? ==> ids == NoIds
  {
    if value.None? then NoIds
    else
      var record := value.value;
      var trakt := ReadNumber(record, "trakt");
      var tmdb := ReadNumber(record, "tmdb");
      ExternalIds(
        if NumSet(trakt) then trakt else None,
        if NumSet(tmdb) then tmdb else None,
        None,
        None,
        NormalizeImdbId(ReadString(record, "imdb")),
        ReadString(record, "slug"))
  }

  /** A canonical IMDb id, bare or behind `imdb:`, is kept as it is. */
  lemma ExtractIdsImdb(value: Option<Json>, c: string)
    requires IsImdbId(c) && value.Some?
    requires ReadString(value.value, "imdb") == Some(c) || ReadString(value.value, "imdb") == Some("imdb:" + c)
    ensures ExtractIds(value).imdb == Some(c)
  {
    NormalizeImdbIdAccepts(c);
  }

  /** `extractEpisodeInfo`: an episode needs non-zero `season` and `number`. */
  function ExtractEpisodeInfo(episode: Option<Json>): (r: Option<EpisodeInfo>)
    ensures r.Some? <==> episode.Some? && NumSet(ReadNumber(episode.value, "season"))
                         && NumSet(ReadNumber(episode.value, "number"))
    ensures r.Some? ==> r.value.season == ReadNumber(episode.value, "season").value
                        && r.value.episode == ReadNumber(episode.value, "number").value
                        && r.value.title == ReadString(episode.value, "title")
                        && r.value.thumbnail.None?
  {
    if episode.None? then None
    else
      var season := ReadNumber(episode.value, "season");
      var number := ReadNumber(episode.value, "number");
      if !NumSet(season) || !NumSet(number) then None
      else
        var runtime := ReadNumber(episode.value, "runtime");
        Some(EpisodeInfo(season.value, number.value, ReadString(episode.value, "title"),
                         ReadString(episode.value, "overview"), if NumSet(runtime) then runtime else None,
                         ReadString(episode.value, "first_aired"), None))
  }

  // ---------------------------------------------------------------------------
  // items

  datatype TraktType = TraktMovie | TraktShow | TraktEpisode

  /** `NormalizedTraktItem`, without the fields that are copied through unchanged. */
  datatype NormalizedTraktItem = NormalizedTraktItem(
    id: string,
    mediaType: MediaType,
    title: string,
    ids: ExternalIds,
    images: ImageSet,
    traktType: TraktType,
    episode: Option<EpisodeInfo>,
    showTitle: Option<string>,
    showIds: Option<ExternalIds>,
    episodeIds: Option<ExternalIds>)

  /** A title read from the record, or `Unknown title`. */
  function TitleOf(title: Option<string>): (r: string)
    requires title.Some? ==> IsTrimmedText(title.value)
    ensures IsTrimmedText(r)
    ensures title.Some? ==> r == title.value
  {
    title.GetOr(UnknownTitle)
  }

  /**
   * The `id` derivation: an episode is keyed by the show's canonical id (with `:s:e` when
   * the episode is known), anything else by its own canonical id, both with the fallback.
   */
  function ItemId(traktType: TraktType, ids: ExternalIds, showIds: Option<ExternalIds>, episodeIds: Option<ExternalIds>,
                  episodeInfo: Option<EpisodeInfo>, fallbackId: string): (id: string)
    ensures fallbackId != "" ==> id != ""
    ensures IsTrimmedText(fallbackId) && traktType != TraktEpisode ==> Some(id) == BuildCanonicalId(ids, Some(fallbackId))
    ensures IsTrimmedText(fallbackId) && traktType == TraktEpisode && episodeInfo.None? ==>
      Some(id) == BuildCanonicalId(showIds.GetOr(NoIds), Some(fallbackId))
    ensures IsTrimmedText(fallbackId) && traktType == TraktEpisode && episodeInfo.Some? ==>
      id == EpisodeKey(BuildCanonicalId(showIds.GetOr(NoIds), Some(fallbackId)).value, episodeInfo.value)
  {
    if traktType == TraktEpisode then
      CanonicalWithFallback(showIds.GetOr(NoIds), fallbackId);
      var showCanonical := BuildCanonicalId(showIds.GetOr(NoIds), Some(fallbackId));
      if showCanonical.Some? && episodeInfo.Some? then EpisodeKey(showCanonical.value, episodeInfo.value)
      else if showCanonical.Some? then showCanonical.value
      else (if episodeIds.Some? then BuildCanonicalId(episodeIds.value, Some(fallbackId)) else None).GetOr(fallbackId)
    else
      CanonicalWithFallback(ids, fallbackId);
      BuildCanonicalId(ids, Some(fallbackId)).GetOr(fallbackId)
  }

  /** A trimmed fallback always gives a canonical id. */
  lemma CanonicalWithFallback(ids: ExternalIds, fallbackId: string)
    ensures IsTrimmedText(fallbackId) ==> BuildCanonicalId(ids, Some(fallbackId)).Some?
  {
    TrimmedTextFixed(fallbackId);
  }

  /**
   * The `episode` branch once its parts are read: keyed and titled by the show, with the
   * show's artwork and the episode's thumbnail in front of the show's.
   */
  function EpisodeAssembly(showIds: ExternalIds, episodeIds: ExternalIds, showTitle: Option<string>,
                           episodeTitle: Option<string>, showImages: ImageSet, episodeImages: ImageSet,
                           info: Option<EpisodeInfo>): (r: NormalizedTraktItem)
    requires showTitle.Some? ==> IsTrimmedText(showTitle.value)
    requires episodeTitle.Some? ==> IsTrimmedText(episodeTitle.value)
    ensures r.traktType == TraktEpisode && r.mediaType == Series
    ensures r.ids == showIds && r.showIds == Some(showIds) && r.episodeIds == Some(episodeIds)
    ensures r.episode == info && r.showTitle == showTitle
    ensures IsTrimmedText(r.title) && r.title == TitleOf(showTitle.OrElse(episodeTitle))
    ensures r.images == showImages.(thumbnail := episodeImages.thumbnail.OrElse(showImages.thumbnail))
    ensures info.None? ==> Some(r.id) == BuildCanonicalId(showIds, Some(r.title))
    ensures info.Some? ==> r.id == EpisodeKey(BuildCanonicalId(showIds, Some(r.title)).value, info.value)
  {
    var title := TitleOf(showTitle.OrElse(episodeTitle));
    var thumbnail := episodeImages.thumbnail.OrElse(showImages.thumbnail);
    var images := if thumbnail.Some? then showImages.(thumbnail := thumbnail) else showImages;
    var fallbackId := FallbackId(title, showTitle);
    FallbackIsTitle(title, showTitle);
    var id := ItemId(TraktEpisode, showIds, Some(showIds), Some(episodeIds), info, fallbackId);
    NormalizedTraktItem(id, Series, title, showIds, images, TraktEpisode, info, showTitle, Some(showIds), Some(episodeIds))
  }

  /** The `episode` branch: the show's ids, title and artwork, the episode's ids and numbers. */
  function EpisodeItem(episode: Json, show: Option<Json>): (r: NormalizedTraktItem)
    ensures r.traktType == TraktEpisode && r.mediaType == Series
    ensures r.ids == ExtractIds(GetOpt(show, "ids")) && r.showIds == Some(r.ids)
    ensures r.episodeIds == Some(ExtractIds(Get(episode, "ids")))
    ensures r.episode == ExtractEpisodeInfo(Some(episode))
    ensures show.Some? && ReadString(show.value, "title").Some? ==> r.title == ReadString(show.value, "title").value
    ensures EpisodeFrom(episode, show, r)
  {
    EpisodeAssembly(ExtractIds(GetOpt(show, "ids")), ExtractIds(Get(episode, "ids")),
                    if show.Some? then ReadString(show.value, "title") else None, ReadString(episode, "title"),
                    ExtractImages(GetOpt(show, "images")), ExtractImages(Get(episode, "images")),
                    ExtractEpisodeInfo(Some(episode)))
  }

  /** The `show`, `movie` and flat branches: ids, title and artwork of one record. */
  function PlainItem(record: Json, traktType: TraktType, mediaType: MediaType): (r: NormalizedTraktItem)
    ensures r.traktType == traktType && r.mediaType == mediaType
    ensures r.ids == ExtractIds(Get(record, "ids")) && r.images == ExtractImages(Get(record, "images"))
    ensures r.episode.None? && r.showTitle.None? && r.showIds.None? && r.episodeIds.None?
    ensures IsTrimmedText(r.title) && r.title == TitleOf(ReadString(record, "title"))
    ensures traktType != TraktEpisode ==> Some(r.id) == BuildCanonicalId(r.ids, Some(r.title))
  {
    var ids := ExtractIds(Get(record, "ids"));
    var title := TitleOf(ReadString(record, "title"));
    var id := ItemId(traktType, ids, None, None, None, FallbackId(title, None));
    NormalizedTraktItem(id, mediaType, title, ids, ExtractImages(Get(record, "images")), traktType, None, None, None, None)
  }

  /**
   * What the `episode` branch promises: the show's ids, title and artwork, the episode's
   * thumbnail in front of the show's, and the key `<show id>:<season>:<episode>` when the
   * episode numbers are known.
   */
  predicate EpisodeFrom(episode: Json, show: Option<Json>, r: NormalizedTraktItem) {
    var showTitle := if show.Some? then ReadString(show.value, "title") else None;
    var showImages := ExtractImages(GetOpt(show, "images"));
    var info := ExtractEpisodeInfo(Some(episode));
    && r.ids == ExtractIds(GetOpt(show, "ids"))
    && r.episodeIds == Some(ExtractIds(Get(episode, "ids")))
    && r.title == TitleOf(showTitle.OrElse(ReadString(episode, "title")))
    && r.images == showImages.(thumbnail := ExtractImages(Get(episode, "images")).thumbnail.OrElse(showImages.thumbnail))
    && r.episode == info
    && (info.None? ==> Some(r.id) == BuildCanonicalId(r.ids, Some(r.title)))
    && (info.Some? ==> r.id == EpisodeKey(BuildCanonicalId(r.ids, Some(r.title)).value, info.value))
  }

  /** What the `show`, `movie` and flat branches promise: the record's ids, title, artwork and canonical id. */
  predicate PlainFrom(record: Json, r: NormalizedTraktItem) {
    && r.ids == ExtractIds(Get(record, "ids"))
    && r.title == TitleOf(ReadString(record, "title"))
    && r.images == ExtractImages(Get(record, "images"))
    && Some(r.id) == BuildCanonicalId(r.ids, Some(r.title))
  }

  /** `extractMediaType`: the item's own `type`, or movie. */
  function ExtractMediaType(source: Json): (r: MediaType)
    ensures r == Series <==> ReadString(source, "type").Some? && Lower(Trim(ReadString(source, "type").value)) in {"show", "tv", "series"}
  {
    var normalized := NormalizeMediaType(ReadString(source, "type"));
    if normalized == Some(Series) then Series else Movie
  }

  /**
   * `normalizeTraktItem`: a wrapped `episode` wins over `show`, which wins over `movie`;
   * an item with none of them is read flat, typed by its own `type`.
   */
  function NormalizeTraktItem(input: Json): (r: Option<NormalizedTraktItem>)
    ensures r.Some? <==> IsRecord(input)
    ensures r.Some? ==> r.value.id != "" && r.value.title != ""
    ensures r.Some? ==> (r.value.traktType == TraktEpisode <==> AsRecord(Get(input, "episode")).Some?)
    ensures r.Some? ==> (r.value.mediaType == Movie <==> r.value.traktType == TraktMovie)
    ensures r.Some? && AsRecord(Get(input, "episode")).Some? ==>
      EpisodeFrom(AsRecord(Get(input, "episode")).value, AsRecord(Get(input, "show")), r.value)
    ensures r.Some? && AsRecord(Get(input, "episode")).None? && AsRecord(Get(input, "show")).Some? ==>
      r.value.traktType == TraktShow && PlainFrom(AsRecord(Get(input, "show")).value, r.value)
    ensures r.Some? && AsRecord(Get(input, "episode")).None? && AsRecord(Get(input, "show")).None?
            && AsRecord(Get(input, "movie")).Some? ==>
      r.value.traktType == TraktMovie && PlainFrom(AsRecord(Get(input, "movie")).value, r.value)
    ensures r.Some? && AsRecord(Get(input, "episode")).None? && AsRecord(Get(input, "show")).None?
            && AsRecord(Get(input, "movie")).None? ==>
      r.value.mediaType == ExtractMediaType(input) && PlainFrom(input, r.value)
    ensures r.Some? && r.value.traktType != TraktEpisode ==> Some(r.value.id) == BuildCanonicalId(r.value.ids, Some(r.value.title))
  {
    if !IsRecord(input) then None
    else
      var movie := AsRecord(Get(input, "movie"));
      var show := AsRecord(Get(input, "show"));
      var episode := AsRecord(Get(input, "episode"));
      if episode.Some? then Some(EpisodeItem(episode.value, show))
      else if show.Some? then Some(PlainItem(show.value, TraktShow, Series))
      else if movie.Some? then Some(PlainItem(movie.value, TraktMovie, Movie))
      else
        var mediaType := ExtractMediaType(input);
        Some(PlainItem(input, if mediaType == Series then TraktShow else TraktMovie, mediaType))
  }

  /**
   * An episode of a show known by its TMDB id alone is keyed `tmdb:<id>:<s>:<e>`; the
   * episode's own ids play no part.
   */
  lemma EpisodeKeyedByShowTmdb(input: Json, n: int)
    requires IsRecord(input) && AsRecord(Get(input, "episode")).Some?
    requires ExtractIds(GetOpt(AsRecord(Get(input, "show")), "ids")).imdb.None?
    requires ExtractIds(GetOpt(AsRecord(Get(input, "show")), "ids")).tmdb == Some(n)
    requires ExtractEpisodeInfo(AsRecord(Get(input, "episode"))).Some?
    ensures NormalizeTraktItem(input).value.id
         == "tmdb:" + IntStr(n) + ":" + IntStr(ExtractEpisodeInfo(AsRecord(Get(input, "episode"))).value.season)
            + ":" + IntStr(ExtractEpisodeInfo(AsRecord(Get(input, "episode"))).value.episode)
  {
  }
}
