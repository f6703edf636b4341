/**
 * The id, image, year, logo, trailer, certification, cast, language and season rules
 * of the TMDB detail normaliser (`src/tmdb/normalize.ts`).
 */
module TmdbNormalize {
  import opened Wrappers
  import opened Strings
  import opened Media
  import opened ExternalId
  import opened ProviderRefs
  import opened Canonical
  import opened IdPrefixes
  import opened Seqs

  // ---------------------------------------------------------------------------
  // Image URLs

  /** Host and path of the TMDB image base `https://image.tmdb.org/t/p`. */
  const TmdbImageHost := "image.tmdb.org/t/p"

  /** An absolute web URL, matched case-sensitively as `toImageUrl` does. */
  predicate IsWebUrl(s: string) {
    StartsWith(s, "http://") || StartsWith(s, "https://")
  }

  lemma HttpsPrefixed(rest: string)
    ensures IsWebUrl("https://" + rest)
  {
    assert ("https://" + rest)[..8] == "https://";
  }

  lemma SchemeRelativePrefixed(p: string)
    requires StartsWith(p, "//")
    ensures IsWebUrl("https:" + p)
  {
    assert p == "//" + p[2..];
    assert "https:" + p == "https://" + p[2..];
    HttpsPrefixed(p[2..]);
  }

  /**
   * `toImageUrl`: an empty path gives nothing; an http(s) URL is kept; a scheme-relative
   * `//host/…` gets `https:`; any other path must be root-relative and is put under the
   * image base with the size segment.
   */
  function ToImageUrl(path: Option<string>, size: string): (r: Option<string>)
    ensures r.None? <==> !StrSet(path) || (!IsWebUrl(path.value) && !StartsWith(path.value, "/"))
    ensures r.Some? ==> IsWebUrl(r.value)
    ensures StrSet(path) && IsWebUrl(path.value) ==> r == path
    ensures StrSet(path) && !IsWebUrl(path.value) && StartsWith(path.value, "//") ==> r == Some("https:" + path.value)
    ensures StrSet(path) && !IsWebUrl(path.value) && StartsWith(path.value, "/") && !StartsWith(path.value, "//") ==>
              r == Some("https://" + (TmdbImageHost + "/" + size + path.value))
  {
    if !StrSet(path) then None
    else
      var p := path.value;
      if IsWebUrl(p) then Some(p)
      else if StartsWith(p, "//") then
        SchemeRelativePrefixed(p);
        assert p[..1] == p[..2][..1];
        Some("https:" + p)
      else if !StartsWith(p, "/") then None
      else
        HttpsPrefixed(TmdbImageHost + "/" + size + p);
        Some("https://" + (TmdbImageHost + "/" + size + p))
  }

  /** A URL `toImageUrl` produced is returned unchanged by it, at any size. */
  lemma ToImageUrlIdempotent(path: Option<string>, size: string, size2: string)
    ensures ToImageUrl(path, size).Some? ==> ToImageUrl(ToImageUrl(path, size), size2) == ToImageUrl(path, size)
  {
  }

  /** A root-relative path ends the URL it is put under, after the size segment. */
  lemma RootPathUrl(p: string, size: string)
    requires StartsWith(p, "/") && !StartsWith(p, "//") && !IsWebUrl(p)
    ensures ToImageUrl(Some(p), size).Some?
    ensures EndsWith(ToImageUrl(Some(p), size).value, "/" + size + p)
    ensures ToImageUrl(Some(p), size) == Some("https://image.tmdb.org/t/p/" + size + p)
  {
    var u := "https://" + (TmdbImageHost + "/" + size + p);
    assert u == "https://" + TmdbImageHost + ("/" + size + p);
    assert "https://" + TmdbImageHost + "/" == "https://image.tmdb.org/t/p/";
    assert u == "https://image.tmdb.org/t/p/" + size + p;
  }

  // ---------------------------------------------------------------------------
  // Year

  /**
   * `parseYear`: strings shorter than four characters give nothing; otherwise the
   * first four characters are parsed and only a positive year is kept.
   */
  function ParseYear(value: Option<string>): (r: Option<int>)
    ensures value.None? || |value.value| < 4 ==> r.None?
    ensures r.Some? ==> r.value > 0
    ensures value.Some? && |value.value| >= 4 ==>
              r == (var y := JsParseInt(value.value[..4]); if y.Some? && y.value > 0 then y else None)
  {
    if !StrSet(value) || |value.value| < 4 then None
    else
      var year := JsParseInt(value.value[..4]);
      if year.Some? && year.value > 0 then year else None
  }

  /** An ISO date `YYYY-…` with a positive year gives that year. */
  lemma ParseYearOfDate(v: string)
    requires |v| >= 4 && IsDigits(v[..4]) && DigitsValue(v[..4]) > 0
    ensures ParseYear(Some(v)) == Some(DigitsValue(v[..4]) as int)
  {
    JsParseIntDigits(v[..4]);
  }

  // ---------------------------------------------------------------------------
  // Logo

  /** One entry of a TMDB image list. */
  datatype ImageAsset = ImageAsset(iso6391: Option<string>, fileType: Option<string>, filePath: Option<string>)

  /** The image lists of a TMDB images response; every list is optional. */
  datatype TmdbImages = TmdbImages(
    logos: Option<seq<ImageAsset>>,
    posters: Option<seq<ImageAsset>>,
    backdrops: Option<seq<ImageAsset>>)

  predicate IsEnglish(a: ImageAsset) {
    a.iso6391 == Some("en")
  }

  predicate IsSvg(a: ImageAsset) {
    a.fileType == Some(".svg") || a.fileType == Some("svg")
  }

  predicate IsPng(a: ImageAsset) {
    a.fileType == Some(".png") || a.fileType == Some("png")
  }

  predicate IsEnglishSvg(a: ImageAsset) {
    IsEnglish(a) && IsSvg(a)
  }

  predicate IsEnglishPng(a: ImageAsset) {
    IsEnglish(a) && IsPng(a)
  }

  /** An asset that was found and has a (truthy) file path. */
  predicate HasPath(a: Option<ImageAsset>) {
    a.Some? && StrSet(a.value.filePath)
  }

  function FirstOf(logos: seq<ImageAsset>): Option<ImageAsset> {
    if |logos| > 0 then Some(logos[0]) else None
  }

  /**
   * The asset whose path `selectLogo` resolves: the first English svg, the first English
   * png, the first English logo, the first svg, the first png, then the first logo;
   * each candidate counts only when it has a file path.
   */
  function LogoChoice(logos: seq<ImageAsset>): (r: Option<ImageAsset>)
    ensures r.Some? ==> r.value in logos && StrSet(r.value.filePath)
    ensures HasPath(Find(logos, IsEnglishSvg)) ==> r == Find(logos, IsEnglishSvg)
    ensures !HasPath(Find(logos, IsEnglishSvg)) && HasPath(Find(logos, IsEnglishPng)) ==>
              r == Find(logos, IsEnglishPng)
    ensures (!HasPath(Find(logos, IsEnglishSvg)) && !HasPath(Find(logos, IsEnglishPng))
             && HasPath(Find(logos, IsEnglish))) ==> r == Find(logos, IsEnglish)
    ensures (!HasPath(Find(logos, IsEnglishSvg)) && !HasPath(Find(logos, IsEnglishPng))
             && !HasPath(Find(logos, IsEnglish))) ==>
              r == (if HasPath(Find(logos, IsSvg)) then Find(logos, IsSvg)
                    else if HasPath(Find(logos, IsPng)) then Find(logos, IsPng)
                    else if HasPath(FirstOf(logos)) then FirstOf(logos)
                    else None)
  {
    var english := Filter(logos, IsEnglish);
    FindInFilter(logos, IsEnglish, IsSvg, IsEnglishSvg);
    FindInFilter(logos, IsEnglish, IsPng, IsEnglishPng);
    FilterHead(logos, IsEnglish);
    var englishSvg := Find(english, IsSvg);
    var englishPng := Find(english, IsPng);
    var firstEnglish := FirstOf(english);
    var anySvg := Find(logos, IsSvg);
    var anyPng := Find(logos, IsPng);
    if HasPath(englishSvg) then englishSvg
    else if HasPath(englishPng) then englishPng
    else if HasPath(firstEnglish) then firstEnglish
    else if HasPath(anySvg) then anySvg
    else if HasPath(anyPng) then anyPng
    else if HasPath(FirstOf(logos)) then FirstOf(logos)
    else None
  }

  function LogosOf(images: Option<TmdbImages>): seq<ImageAsset> {
    if images.Some? && images.value.logos.Some? then images.value.logos.value else []
  }

  /** `selectLogo`: the chosen asset's path resolved at the `original` size. */
  function SelectLogo(images: Option<TmdbImages>): (r: Option<string>)
    ensures r.Some? ==> IsWebUrl(r.value)
    ensures r.Some? ==> exists i :: 0 <= i < |LogosOf(images)| && ToImageUrl(LogosOf(images)[i].filePath, "original") == r
    ensures |LogosOf(images)| == 0 ==> r.None?
    ensures LogoChoice(LogosOf(images)).None? ==> r.None?
    ensures LogoChoice(LogosOf(images)).Some? ==> r == ToImageUrl(LogoChoice(LogosOf(images)).value.filePath, "original")
  {
    var choice := LogoChoice(LogosOf(images));
    if choice.Some? then ToImageUrl(choice.value.filePath, "original") else None
  }

  /**
   * `find` stops at the first English svg: when that one has no path, no English svg
   * is chosen at all, even one with a path further down the list.
   */
  lemma PathlessEnglishSvgHidesAll(logos: seq<ImageAsset>)
    requires Find(logos, IsEnglishSvg).Some? && !HasPath(Find(logos, IsEnglishSvg))
    ensures LogoChoice(logos).Some? ==> !IsEnglishSvg(LogoChoice(logos).value)
  {
    var r := LogoChoice(logos);
    if HasPath(Find(logos, IsEnglishPng)) {
      assert r == Find(logos, IsEnglishPng);
    } else if HasPath(Find(logos, IsEnglish)) {
      assert r == Find(logos, IsEnglish);
      if IsEnglishSvg(r.value) {
        FindNarrow(logos, IsEnglish, IsEnglishSvg);
      }
    } else if HasPath(Find(logos, IsSvg)) {
      assert r == Find(logos, IsSvg);
      if IsEnglishSvg(r.value) {
        FindNarrow(logos, IsSvg, IsEnglishSvg);
      }
    } else if HasPath(Find(logos, IsPng)) {
      assert r == Find(logos, IsPng);
    } else if HasPath(FirstOf(logos)) {
      assert r == Some(logos[0]);
    }
  }

  /** The URL of an asset at the `original` size. */
  function OriginalUrl(a: ImageAsset): Option<string> {
    ToImageUrl(a.filePath, "original")
  }

  /**
   * `mapImageAssets`: the resolvable asset URLs in list order; nothing when the list is
   * missing or empty or none of its paths resolves.
   */
  function MapImageAssets(assets: Option<seq<ImageAsset>>): (r: Option<seq<string>>)
    ensures r.Some? ==> assets.Some? && |r.value| > 0 && |r.value| <= |assets.value|
    ensures r.Some? ==> forall i :: 0 <= i < |r.value| ==> IsWebUrl(r.value[i])
    ensures r.None? <==> assets.None? || forall i :: 0 <= i < |assets.value| ==> OriginalUrl(assets.value[i]).None?
    ensures r.Some? ==> forall i :: 0 <= i < |assets.value| && OriginalUrl(assets.value[i]).Some? ==>
                          OriginalUrl(assets.value[i]).value in r.value
  {
    if assets.None? || |assets.value| == 0 then None
    else
      var mapped := FilterMap(assets.value, OriginalUrl);
      assert forall i :: 0 <= i < |mapped| ==> IsWebUrl(mapped[i]) by {
        forall i | 0 <= i < |mapped| ensures IsWebUrl(mapped[i]) {
          var j :| 0 <= j < |assets.value| && OriginalUrl(assets.value[j]) == Some(mapped[i]);
        }
      }
      if |mapped| > 0 then Some(mapped) else None
  }

  // ---------------------------------------------------------------------------
  // Trailer

  /** One entry of the `videos` list. */
  datatype Video = Video(site: string, videoType: string, key: Option<string>)

  predicate IsYoutube(v: Video) {
    Lower(v.site) == "youtube"
  }

  predicate IsYoutubeTrailer(v: Video) {
    IsYoutube(v) && Lower(v.videoType) == "trailer"
  }

  /**
   * `getTrailerKey`: the key of the first YouTube trailer when it has one, else the key
   * of the first YouTube video; site and type compare case-insensitively.
   */
  function TrailerKey(videos: seq<Video>): (r: Option<string>)
    ensures r.Some? ==> exists i :: 0 <= i < |videos| && IsYoutube(videos[i]) && videos[i].key == r
    ensures (forall i :: 0 <= i < |videos| ==> !IsYoutube(videos[i])) ==> r.None?
    ensures Find(videos, IsYoutubeTrailer).Some? && StrSet(Find(videos, IsYoutubeTrailer).value.key) ==>
              r == Find(videos, IsYoutubeTrailer).value.key
    ensures !(Find(videos, IsYoutubeTrailer).Some? && StrSet(Find(videos, IsYoutubeTrailer).value.key)) ==>
              r == (if Find(videos, IsYoutube).Some? then Find(videos, IsYoutube).value.key else None)
  {
    var trailer := Find(videos, IsYoutubeTrailer);
    if trailer.Some? && StrSet(trailer.value.key) then trailer.value.key
    else
      var fallback := Find(videos, IsYoutube);
      if fallback.Some? then fallback.value.key else None
  }

  /** A keyed YouTube trailer wins over any YouTube clip listed before it. */
  lemma TrailerBeatsEarlierClips(videos: seq<Video>, j: nat)
    requires j < |videos| && IsYoutubeTrailer(videos[j]) && StrSet(videos[j].key)
    requires forall k :: 0 <= k < j ==> !IsYoutubeTrailer(videos[k])
    ensures TrailerKey(videos) == videos[j].key
  {
    FindAt(videos, IsYoutubeTrailer, j);
  }

  /** A trailer without a key falls back to the first YouTube video, not to a later trailer. */
  lemma KeylessTrailerFallsBack(videos: seq<Video>, j: nat)
    requires j < |videos| && IsYoutubeTrailer(videos[j]) && !StrSet(videos[j].key)
    requires forall k :: 0 <= k < j ==> !IsYoutubeTrailer(videos[k])
    ensures TrailerKey(videos) == Find(videos, IsYoutube).value.key
  {
    FindAt(videos, IsYoutubeTrailer, j);
  }

  // ---------------------------------------------------------------------------
  // Certification

  datatype ReleaseDate = ReleaseDate(certification: Option<string>)

  /** One country of `release_dates.results`. */
  datatype ReleaseCountry = ReleaseCountry(iso31661: string, releaseDates: seq<ReleaseDate>)

  /** One country of `content_ratings.results`. */
  datatype ContentRating = ContentRating(iso31661: string, rating: Option<string>)

  predicate HasNonBlankCert(e: ReleaseDate) {
    StrSet(e.certification) && Trim(e.certification.value) != ""
  }

  predicate HasCert(e: ReleaseDate) {
    StrSet(e.certification)
  }

  /**
   * The movie `fromCountry`: the first country entry with the code, and in it the
   * first release with a non-blank certification, trimmed.
   */
  function MovieCertFrom(results: seq<ReleaseCountry>, code: string): (r: Option<string>)
    ensures r.Some? ==> IsTrimmedText(r.value)
    ensures r.Some? ==> exists i :: 0 <= i < |results| && results[i].iso31661 == code
    ensures r.Some? ==> exists e :: e in AllReleaseDates(results) && HasCert(e)
  {
    var country := Find(results, (c: ReleaseCountry) => c.iso31661 == code);
    if country.None? then None
    else
      var found := Find(country.value.releaseDates, HasNonBlankCert);
      if found.None? then None
      else
        assert found.value in AllReleaseDates(results) by {
          var i :| 0 <= i < |results| && results[i] == country.value;
        }
        Some(Trim(found.value.certification.value))
  }

  /** `flatMap` of the release lists. */
  function AllReleaseDates(results: seq<ReleaseCountry>): (r: seq<ReleaseDate>)
    ensures forall e :: e in r <==> exists i :: 0 <= i < |results| && e in results[i].releaseDates
  {
    if |results| == 0 then []
    else
      var rest := AllReleaseDates(results[1..]);
      assert forall i :: 1 <= i < |results| ==> results[i] == results[1..][i - 1];
      results[0].releaseDates + rest
  }

  /** The movie certification: US, then GB, then the first certification of any release. */
  function MovieCertification(results: seq<ReleaseCountry>): (r: Option<string>)
    ensures r.Some? ==> r.value != ""
    ensures MovieCertFrom(results, "US").Some? ==> r == MovieCertFrom(results, "US")
    ensures MovieCertFrom(results, "US").None? && MovieCertFrom(results, "GB").Some? ==>
              r == MovieCertFrom(results, "GB")
    ensures r.Some? <==> exists e :: e in AllReleaseDates(results) && HasCert(e)
    ensures MovieCertFrom(results, "US").None? && MovieCertFrom(results, "GB").None? ==>
              r == (if Find(AllReleaseDates(results), HasCert).Some? then Find(AllReleaseDates(results), HasCert).value.certification else None)
  {
    var us := MovieCertFrom(results, "US");
    var gb := MovieCertFrom(results, "GB");
    if us.Some? then us
    else if gb.Some? then gb
    else
      var any := Find(AllReleaseDates(results), HasCert);
      if any.Some? then any.value.certification else None
  }

  /** The series `fromCountry`: the first country entry with the code, its rating trimmed. */
  function SeriesCertFrom(ratings: seq<ContentRating>, code: string): (r: Option<string>)
    ensures r.Some? ==> IsTrimmedText(r.value)
    ensures r.Some? ==> exists i :: 0 <= i < |ratings| && ratings[i].iso31661 == code && StrSet(ratings[i].rating)
  {
    var country := Find(ratings, (c: ContentRating) => c.iso31661 == code);
    if country.Some? && country.value.rating.Some? && Trim(country.value.rating.value) != "" then
      Some(Trim(country.value.rating.value))
    else None
  }

  predicate HasRating(c: ContentRating) {
    StrSet(c.rating)
  }

  /** The series certification: US, then GB, then the first rating of any country. */
  function SeriesCertification(ratings: seq<ContentRating>): (r: Option<string>)
    ensures r.Some? ==> r.value != ""
    ensures SeriesCertFrom(ratings, "US").Some? ==> r == SeriesCertFrom(ratings, "US")
    ensures SeriesCertFrom(ratings, "US").None? && SeriesCertFrom(ratings, "GB").Some? ==>
              r == SeriesCertFrom(ratings, "GB")
    ensures r.Some? <==> exists i :: 0 <= i < |ratings| && HasRating(ratings[i])
    ensures SeriesCertFrom(ratings, "US").None? && SeriesCertFrom(ratings, "GB").None? ==>
              r == (if Find(ratings, HasRating).Some? then Find(ratings, HasRating).value.rating else None)
  {
    var us := SeriesCertFrom(ratings, "US");
    var gb := SeriesCertFrom(ratings, "GB");
    if us.Some? then us
    else if gb.Some? then gb
    else
      var any := Find(ratings, HasRating);
      if any.Some? then any.value.rating else None
  }

  /** A blank US rating does not stop the search: GB is consulted next. */
  lemma BlankUsRatingFallsToGb(us: string, gb: string, rest: seq<ContentRating>)
    requires Trim(us) == "" && IsTrimmedText(gb)
    ensures SeriesCertification([ContentRating("US", Some(us)), ContentRating("GB", Some(gb))] + rest) == Some(gb)
  {
    var ratings := [ContentRating("US", Some(us)), ContentRating("GB", Some(gb))] + rest;
    FindAt(ratings, (c: ContentRating) => c.iso31661 == "US", 0);
    FindAt(ratings, (c: ContentRating) => c.iso31661 == "GB", 1);
    TrimmedTextFixed(gb);
  }

  // ---------------------------------------------------------------------------
  // Cast

  datatype CastMember = CastMember(
    id: int, name: string, character: Option<string>, profilePath: Option<string>, order: Option<int>)

  datatype PersonCredit = PersonCredit(
    id: int, name: string, role: Option<string>, profile: Option<string>, order: Option<int>)

  /** One cast member as a credit: the role only when truthy, the profile at `w185`. */
  function Person(m: CastMember): (p: PersonCredit)
    ensures p.id == m.id && p.name == m.name && p.order == m.order
    ensures p.role.Some? ==> p.role.value != ""
    ensures p.profile.Some? ==> IsWebUrl(p.profile.value)
  {
    PersonCredit(m.id, m.name, if StrSet(m.character) then m.character else None,
                 ToImageUrl(m.profilePath, "w185"), m.order)
  }

  /** `getCast`: the first ten cast members as credits, in billing order; nothing for no cast. */
  function Cast(cast: seq<CastMember>): (r: Option<seq<PersonCredit>>)
    ensures r.None? <==> |cast| == 0
    ensures r.Some? ==> |r.value| == (if |cast| < 10 then |cast| else 10)
    ensures r.Some? ==> forall i :: 0 <= i < |r.value| ==> r.value[i] == Person(cast[i])
  {
    var top := if |cast| <= 10 then cast else cast[..10];
    var persons := seq(|top|, i requires 0 <= i < |top| => Person(top[i]));
    if |persons| > 0 then Some(persons) else None
  }

  // ---------------------------------------------------------------------------
  // Languages

  /** A language code kept by the filter: a string that is not blank. */
  function CodeOf(code: Option<string>): Option<string> {
    if code.Some? && Trim(code.value) != "" then code else None
  }

  /**
   * `getLanguageCodes`: the non-blank codes without duplicates, in order of first
   * occurrence; nothing when there is none.
   */
  function LanguageCodes(languages: seq<Option<string>>): (r: Option<seq<string>>)
    ensures r.None? <==> forall i :: 0 <= i < |languages| ==> CodeOf(languages[i]).None?
    ensures r.Some? ==> |r.value| > 0 && NoDuplicates(r.value)
    ensures r.Some? ==> forall c :: c in r.value <==> exists i :: 0 <= i < |languages| && CodeOf(languages[i]) == Some(c)
    ensures r.Some? ==> Some(r.value[0]) == FirstSome(CodeOf, languages)
  {
    var codes := FilterMap(languages, CodeOf);
    if |codes| == 0 then None
    else
      CodesDeduped(languages);
      Some(Deduped(codes))
  }

  /** The deduplicated codes: none twice, each a code of some entry, the first code first. */
  lemma CodesDeduped(languages: seq<Option<string>>)
    requires |FilterMap(languages, CodeOf)| > 0
    ensures var d := Deduped(FilterMap(languages, CodeOf));
            |d| > 0 && NoDuplicates(d)
            && (forall c :: c in d <==> exists i :: 0 <= i < |languages| && CodeOf(languages[i]) == Some(c))
            && Some(d[0]) == FirstSome(CodeOf, languages)
  {
    var codes := FilterMap(languages, CodeOf);
    CodesNotEmpty(languages);
    DedupedHead(codes);
    FilterMapHead(languages, CodeOf);
    DedupedSpec(codes);
    CodesMembers(languages);
  }

  lemma CodesMembers(languages: seq<Option<string>>)
    ensures forall c :: c in Deduped(FilterMap(languages, CodeOf)) <==>
                        exists i :: 0 <= i < |languages| && CodeOf(languages[i]) == Some(c)
  {
    var codes := FilterMap(languages, CodeOf);
    DedupedSpec(codes);
    CodesNotEmpty(languages);
    forall c
      ensures c in codes && c != "" <==> exists i :: 0 <= i < |languages| && CodeOf(languages[i]) == Some(c)
    {
      if exists i :: 0 <= i < |languages| && CodeOf(languages[i]) == Some(c) {
        var i :| 0 <= i < |languages| && CodeOf(languages[i]) == Some(c);
        assert c in codes;
        var k :| 0 <= k < |codes| && codes[k] == c;
      }
    }
  }

  lemma CodesNotEmpty(languages: seq<Option<string>>)
    ensures forall k :: 0 <= k < |FilterMap(languages, CodeOf)| ==> FilterMap(languages, CodeOf)[k] != ""
  {
    var codes := FilterMap(languages, CodeOf);
    forall k | 0 <= k < |codes| ensures codes[k] != "" {
      var j :| 0 <= j < |languages| && CodeOf(languages[j]) == Some(codes[k]);
    }
  }

  // ---------------------------------------------------------------------------
  // Details

  /**
   * The fields of a TMDB movie or show detail the rules read. `title` marks a movie
   * detail and `name` a show detail (the `'title' in detail` test); `imdbId` is the
   * movie's own field, `externalImdbId` the show's `external_ids.imdb_id`.
   */
  datatype TmdbDetail = TmdbDetail(
    id: int,
    title: Option<string>,
    name: Option<string>,
    imdbId: Option<string>,
    externalImdbId: Option<string>,
    releaseDate: Option<string>,
    firstAirDate: Option<string>,
    posterPath: Option<string>,
    backdropPath: Option<string>,
    videos: Option<seq<Video>>,
    releaseResults: Option<seq<ReleaseCountry>>,
    contentRatings: Option<seq<ContentRating>>,
    cast: Option<seq<CastMember>>,
    spokenLanguages: Option<seq<Option<string>>>,
    seasons: Option<seq<int>>)

  predicate IsMovieDetail(d: TmdbDetail) {
    d.title.Some?
  }

  predicate IsShowDetail(d: TmdbDetail) {
    d.name.Some?
  }

  /** The normalised details, restricted to the fields these rules fill. */
  datatype MediaDetails = MediaDetails(
    id: string,
    mediaType: MediaType,
    title: string,
    ids: ExternalIds,
    images: ImageSet,
    released: Option<string>,
    year: Option<int>,
    cast: Option<seq<PersonCredit>>,
    trailerKey: Option<string>,
    certification: Option<string>,
    languages: Option<seq<string>>,
    seasons: Option<seq<int>>)

  /** The raw imdb id: the movie's own field, else the show's external id. */
  function ImdbSource(d: TmdbDetail): Option<string> {
    if IsMovieDetail(d) then d.imdbId else d.externalImdbId
  }

  /** `getReleasedDate`. */
  function ReleasedDate(d: TmdbDetail): (r: Option<string>)
    ensures IsMovieDetail(d) ==> r == d.releaseDate
    ensures !IsMovieDetail(d) && IsShowDetail(d) ==> r == d.firstAirDate
    ensures !IsMovieDetail(d) && !IsShowDetail(d) ==> r.None?
  {
    if IsMovieDetail(d) then d.releaseDate
    else if IsShowDetail(d) then d.firstAirDate
    else None
  }

  /** `getCertification`: only a movie detail asked as a movie, or a show detail asked as a series. */
  function Certification(d: TmdbDetail, t: MediaType): (r: Option<string>)
    ensures r.Some? ==> r.value != ""
    ensures r.Some? ==> (t == Movie && IsMovieDetail(d)) || (t == Series && IsShowDetail(d))
  {
    if t == Movie && IsMovieDetail(d) then MovieCertification(d.releaseResults.GetOr([]))
    else if t == Series && IsShowDetail(d) then SeriesCertification(d.contentRatings.GetOr([]))
    else None
  }

  /** The tmdb fallback id text, which `trim` leaves alone. */
  lemma TypedFallbackTrimmed(kind: Kind, n: int)
    ensures IsTrimmedText(FormatParts(Tmdb, kind, IntStr(n)))
  {
    var digits := if n < 0 then NatStr(-n) else NatStr(n);
    var s := FormatParts(Tmdb, kind, IntStr(n));
    assert IntStr(n)[|IntStr(n)| - 1] == digits[|digits| - 1];
    assert s[|s| - 1] == IntStr(n)[|IntStr(n)| - 1];
    assert s[0] == 't';
  }

  /**
   * The id rule of `normalizeTmdbDetails`: the canonical id of `{tmdb, imdb}` with the
   * typed tmdb id as fallback, i.e. the typed imdb id when one is known and the typed
   * tmdb id otherwise.
   */
  function DetailId(tmdbId: int, imdb: Option<string>, t: MediaType): (r: string)
    requires imdb.Some? ==> IsImdbId(imdb.value)
    ensures r == if imdb.Some? then FormatParts(Imdb, MediaTypeToProviderKind(t), imdb.value)
                 else FormatParts(Tmdb, MediaTypeToProviderKind(t), IntStr(tmdbId))
  {
    var kind := MediaTypeToProviderKind(t);
    var ids := NoIds.(tmdb := Some(tmdbId), imdb := imdb);
    var typedFallback := FormatParts(Tmdb, kind, IntStr(tmdbId));
    TypedFallbackTrimmed(kind, tmdbId);
    TrimmedTextFixed(typedFallback);
    BuildCanonicalMediaId(ids, kind, Some(typedFallback)).GetOr(typedFallback)
  }

  /** `seasons` keeps the positive season numbers, and only for a show detail asked as a series. */
  function Seasons(d: TmdbDetail, t: MediaType): (r: Option<seq<int>>)
    ensures r.Some? ==> t == Series && IsShowDetail(d) && d.seasons.Some? && |r.value| > 0
    ensures r.Some? ==> forall i :: 0 <= i < |r.value| ==> r.value[i] > 0 && r.value[i] in d.seasons.value
    ensures t == Series && IsShowDetail(d) && d.seasons.Some? ==>
              forall i :: 0 <= i < |d.seasons.value| && d.seasons.value[i] > 0 ==> r.Some? && d.seasons.value[i] in r.value
  {
    if t == Series && IsShowDetail(d) && d.seasons.Some? then
      var kept := Filter(d.seasons.value, IsPositiveSeason);
      if |kept| > 0 then Some(kept) else None
    else None
  }

  predicate IsPositiveSeason(n: int) {
    n > 0
  }

  /** The artwork: poster at `w780`, backdrop at `w1280`, the selected logo and the image lists. */
  function DetailImages(posterPath: Option<string>, backdropPath: Option<string>,
                        images: Option<TmdbImages>): (r: ImageSet)
    ensures r.poster == ToImageUrl(posterPath, "w780") && r.backdrop == ToImageUrl(backdropPath, "w1280")
    ensures r.logo == SelectLogo(images) && r.fanart.None? && r.thumbnail.None?
  {
    ImageSet(
      ToImageUrl(posterPath, "w780"),
      ToImageUrl(backdropPath, "w1280"),
      SelectLogo(images),
      None,
      None,
      MapImageAssets(if images.Some? then images.value.posters else None),
      MapImageAssets(if images.Some? then images.value.backdrops else None))
  }

  function TitleOr(title: Option<string>): (r: string)
    ensures r != ""
  {
    if StrSet(title) then title.value else "Untitled"
  }

  /** `normalizeTmdbDetails`, restricted to the fields the rules above fill. */
  function NormalizeTmdbDetails(d: TmdbDetail, t: MediaType, images: Option<TmdbImages>): (r: MediaDetails)
    ensures r.mediaType == t && r.title != ""
    ensures r.ids == NoIds.(tmdb := Some(d.id), imdb := NormalizeImdbId(ImdbSource(d)))
    ensures r.id == if r.ids.imdb.Some? then FormatParts(Imdb, MediaTypeToProviderKind(t), r.ids.imdb.value)
                    else FormatParts(Tmdb, MediaTypeToProviderKind(t), IntStr(d.id))
    ensures r.year.Some? ==> r.released.Some? && r.year.value > 0
    ensures r.images.poster.Some? ==> IsWebUrl(r.images.poster.value)
    ensures r.images.backdrop.Some? ==> IsWebUrl(r.images.backdrop.value)
    ensures r.cast.Some? ==> |r.cast.value| <= 10
    ensures r.languages.Some? ==> NoDuplicates(r.languages.value)
    ensures r.seasons.Some? ==> t == Series && forall i :: 0 <= i < |r.seasons.value| ==> r.seasons.value[i] > 0
  {
    var imdb := NormalizeImdbId(ImdbSource(d));
    var ids := NoIds.(tmdb := Some(d.id), imdb := imdb);
    var released := ReleasedDate(d);
    var keptReleased := if StrSet(released) then released else None;
    var year := ParseYear(released);
    var imageSet := DetailImages(d.posterPath, d.backdropPath, images);
    var trailer := TrailerKey(d.videos.GetOr([]));
    MediaDetails(
      DetailId(d.id, imdb, t),
      t,
      TitleOr(if IsMovieDetail(d) then d.title else d.name),
      ids,
      imageSet,
      keptReleased,
      year,
      Cast(d.cast.GetOr([])),
      if StrSet(trailer) then trailer else None,
      Certification(d, t),
      LanguageCodes(d.spokenLanguages.GetOr([])),
      Seasons(d, t))
  }
}
