/**
 * Simkl image URLs (`src/simkl/images.ts`): a path from the API becomes an absolute URL
 * on the image origin or its proxy, sized by a variant and in a chosen format.
 */
module SimklImages {
  import opened Wrappers
  import opened Strings
  import opened UrlPatterns

  const SimklImageOrigin: string := "https://simkl.in"
  const SimklImageProxyOrigin: string := "https://wsrv.nl/?url=https://simkl.in"

  datatype Category = Posters | Fanart | Episodes | Avatars

  function CategoryName(c: Category): string {
    match c
    case Posters => "posters"
    case Fanart => "fanart"
    case Episodes => "episodes"
    case Avatars => "avatars"
  }

  datatype ImageFormat = Webp | Jpg

  function FormatName(f: ImageFormat): string {
    match f
    case Webp => "webp"
    case Jpg => "jpg"
  }

  datatype SimklImageUrlOptions = SimklImageUrlOptions(
    useProxy: bool,
    originBaseUrl: Option<string>,
    proxyBaseUrl: Option<string>,
    format: Option<ImageFormat>)

  const DefaultOptions := SimklImageUrlOptions(false, None, None, None)

  /** The variants tried, in order, by the poster and fanart URL lists. */
  const PosterVariants: seq<string> := ["cm", "c", "ca", "m", "s"]
  const FanartVariants: seq<string> := ["s48", "w", "mobile", "medium", "d"]

  // ---------------------------------------------------------------------------
  // path patterns

  /** `\.(?:jpg|jpeg|webp|png)$` with the `i` flag. */
  predicate HasFileExtension(path: string) {
    EndsWithNoCase(path, ".jpg") || EndsWithNoCase(path, ".jpeg") || EndsWithNoCase(path, ".webp") || EndsWithNoCase(path, ".png")
  }

  /** `^(?:posters|fanart|episodes|avatars)\/` with the `i` flag. */
  predicate IsCategoryPrefixed(path: string) {
    StartsWithNoCase(path, "posters/") || StartsWithNoCase(path, "fanart/")
    || StartsWithNoCase(path, "episodes/") || StartsWithNoCase(path, "avatars/")
  }

  // ---------------------------------------------------------------------------
  // base URL and path

  /** `ensureBaseUrl`: the trimmed base with one trailing `/` removed. */
  function EnsureBaseUrl(baseUrl: string): (r: string)
    ensures EndsWith(Trim(baseUrl), "/") ==> r + "/" == Trim(baseUrl)
    ensures !EndsWith(Trim(baseUrl), "/") ==> r == Trim(baseUrl)
  {
    var trimmed := Trim(baseUrl);
    if |trimmed| > 0 && trimmed[|trimmed| - 1] == '/' then trimmed[..|trimmed| - 1] else trimmed
  }

  /** A trimmed base with no trailing `/` is left alone by `ensureBaseUrl`. */
  lemma CleanBase(b: string)
    requires b != "" && !IsSpace(b[0]) && !IsSpace(b[|b| - 1]) && b[|b| - 1] != '/'
    ensures EnsureBaseUrl(b) == b
  {
    TrimNoop(b);
  }

  /** Both default bases are left alone by `ensureBaseUrl`. */
  lemma DefaultBasesClean()
    ensures EnsureBaseUrl(SimklImageOrigin) == SimklImageOrigin
    ensures EnsureBaseUrl(SimklImageProxyOrigin) == SimklImageProxyOrigin
  {
    CleanBase(SimklImageOrigin);
    CleanBase(SimklImageProxyOrigin);
  }

  /**
   * The base URL the options choose, through `ensureBaseUrl`; a default base is used as it
   * stands, which `DefaultBasesClean` shows is what `ensureBaseUrl` makes of it.
   */
  function BaseUrl(options: SimklImageUrlOptions): string {
    if options.useProxy then
      if options.proxyBaseUrl.Some? then EnsureBaseUrl(options.proxyBaseUrl.value) else SimklImageProxyOrigin
    else
      if options.originBaseUrl.Some? then EnsureBaseUrl(options.originBaseUrl.value) else SimklImageOrigin
  }

  /** `BaseUrl` is `ensureBaseUrl` of the chosen base or its default. */
  lemma BaseUrlChoice(options: SimklImageUrlOptions)
    ensures BaseUrl(options) == EnsureBaseUrl(
              if options.useProxy then options.proxyBaseUrl.GetOr(SimklImageProxyOrigin)
              else options.originBaseUrl.GetOr(SimklImageOrigin))
  {
    if options.useProxy && options.proxyBaseUrl.None? {
      DefaultBasesClean();
    } else if !options.useProxy && options.originBaseUrl.None? {
      DefaultBasesClean();
    }
  }


  /** Every backslash turned into `/`. */
  function Slashes(s: string): (r: string)
    ensures |r| == |s|
    ensures forall i :: 0 <= i < |s| ==> r[i] == if s[i] == '\\' then '/' else s[i]
  {
    seq(|s|, i requires 0 <= i < |s| => if s[i] == '\\' then '/' else s[i])
  }

  /**
   * `sanitizePath`: nothing for a blank path; otherwise the trimmed path with backslashes
   * turned into `/` and one leading `/` removed.
   */
  function SanitizePath(value: string): (r: Option<string>)
    ensures r.None? <==> Trim(value) == ""
    ensures r.Some? ==> '\\' !in r.value
    ensures r.Some? ==> var n := Slashes(Trim(value));
                        r.value == if n[0] == '/' then n[1..] else n
  {
    var trimmed := Trim(value);
    if trimmed == "" then None
    else
      var normalized := Slashes(trimmed);
      Some(if normalized[0] == '/' then normalized[1..] else normalized)
  }

  /** A trimmed path with no backslash and no leading `/` is already sanitised. */
  lemma SanitizeNoop(path: string)
    requires path != "" && Trim(path) == path && '\\' !in path && path[0] != '/'
    ensures SanitizePath(path) == Some(path)
  {
    assert forall i :: 0 <= i < |path| ==> path[i] != '\\';
    assert Slashes(path) == path;
  }

  // ---------------------------------------------------------------------------
  // buildSimklImageUrl

  /** A variant is used only when it is a non-empty string. */
  function VariantSuffix(variant: Option<string>): string {
    if variant.Some? && variant.value != "" then "_" + variant.value else ""
  }

  /**
   * What follows `<base>/` for a sanitised relative path: the path alone when it already
   * names a category, the category and the path when it is a file name, and otherwise the
   * category, the path, the variant and the format.
   */
  function RelativeTail(category: Category, cleaned: string, variant: Option<string>, format: ImageFormat): (t: string)
    ensures IsCategoryPrefixed(cleaned) ==> t == cleaned
    ensures !IsCategoryPrefixed(cleaned) ==> StartsWith(t, CategoryName(category) + "/" + cleaned)
    ensures !IsCategoryPrefixed(cleaned) && HasFileExtension(cleaned) ==> |t| == |CategoryName(category) + "/" + cleaned|
  {
    if IsCategoryPrefixed(cleaned) then cleaned
    else if HasFileExtension(cleaned) then
      PrefixOfAppend(CategoryName(category) + "/" + cleaned, "");
      assert CategoryName(category) + "/" + cleaned + "" == CategoryName(category) + "/" + cleaned;
      CategoryName(category) + "/" + cleaned
    else
      var head := CategoryName(category) + "/" + cleaned;
      PrefixOfAppend(head, VariantSuffix(variant) + "." + FormatName(format));
      assert head + VariantSuffix(variant) + "." + FormatName(format) == head + (VariantSuffix(variant) + "." + FormatName(format));
      head + VariantSuffix(variant) + "." + FormatName(format)
  }

  /**
   * `buildSimklImageUrl`: nothing for a blank path, else the URL of the trimmed path,
   * which is an http(s) URL or lies under the chosen base.
   */
  function BuildSimklImageUrl(category: Category, path: string, variant: Option<string>, options: SimklImageUrlOptions): (r: Option<string>)
    ensures Trim(path) == "" ==> r.None?
    ensures r.Some? ==> IsHttpUrl(r.value) || StartsWith(r.value, BaseUrl(options) + "/")
  {
    var input := Trim(path);
    if input == "" then None else UrlOf(category, input, variant, options)
  }

  /** Absolute, protocol-relative and host-like inputs stand alone; the rest go under the base URL. */
  function UrlOf(category: Category, input: string, variant: Option<string>, options: SimklImageUrlOptions): (r: Option<string>)
    ensures r.Some? ==> IsHttpUrl(r.value) || StartsWith(r.value, BaseUrl(options) + "/")
    ensures !IsHttpUrl(input) && !StartsWith(input, "//") && !HostWithPath(input) ==> r == UrlUnderBase(category, input, variant, options)
  {
    if IsHttpUrl(input) then Some(input)
    else if StartsWith(input, "//") then
      assert input[0] == '/' && input[1] == '/' by { assert input[..2] == "//"; }
      HttpsLead("https:" + input);
      Some("https:" + input)
    else if HostWithPath(input) then
      HttpsLead("https://" + input);
      Some("https://" + input)
    else UrlUnderBase(category, input, variant, options)
  }

  /** A rooted input is appended to the base as it is; any other is sanitised first. */
  function UrlUnderBase(category: Category, input: string, variant: Option<string>, options: SimklImageUrlOptions): (r: Option<string>)
    ensures r.Some? ==> StartsWith(r.value, BaseUrl(options) + "/")
  {
    var base := BaseUrl(options);
    if StartsWith(input, "/") then
      assert input == "/" + input[1..];
      assert base + input == (base + "/") + input[1..];
      PrefixOfAppend(base + "/", input[1..]);
      Some(base + input)
    else
      var cleaned := SanitizePath(input);
      if cleaned.None? || cleaned.value == "" then None
      else
        var tail := RelativeTail(category, cleaned.value, variant, options.format.GetOr(Webp));
        PrefixOfAppend(base + "/", tail);
        Some(base + "/" + tail)
  }

  /**
   * A URL is built for every path except a blank one and a lone backslash, whatever the
   * category, variant or options.
   */
  lemma ImageUrlDefined(category: Category, path: string, variant: Option<string>, options: SimklImageUrlOptions)
    ensures BuildSimklImageUrl(category, path, variant, options).None? <==> Trim(path) == "" || Trim(path) == "\\"
  {
    var input := Trim(path);
    if input != "" {
      TrimIdempotent(path);
      UrlOfDefined(category, input, variant, options);
    }
  }

  /** Of the trimmed, non-blank inputs, only a lone backslash gives no URL. */
  lemma UrlOfDefined(category: Category, input: string, variant: Option<string>, options: SimklImageUrlOptions)
    requires input != "" && Trim(input) == input
    ensures UrlOf(category, input, variant, options).None? <==> input == "\\"
  {
    if input == "\\" {
      BackslashGoesUnderBase();
    }
    UnderBaseDefined(category, input, variant, options);
  }

  /** A lone backslash is neither absolute, protocol-relative nor host-like. */
  lemma BackslashGoesUnderBase()
    ensures !IsHttpUrl("\\") && !StartsWith("\\", "//") && !HostWithPath("\\")
  {
    assert !IsHostChar('\\');
  }

  /** Under the base, only a lone backslash gives no URL: it sanitises to the empty path. */
  lemma UnderBaseDefined(category: Category, input: string, variant: Option<string>, options: SimklImageUrlOptions)
    requires input != "" && Trim(input) == input
    ensures UrlUnderBase(category, input, variant, options).None? <==> input == "\\"
  {
    if !StartsWith(input, "/") {
      var n := Slashes(input);
      if input == "\\" {
        assert n == "/";
      } else if n[0] == '/' {
        assert |input| >= 2;
      }
    }
  }


  /** Absolute URLs pass through; protocol-relative and host-like paths become `https` URLs. */
  lemma AbsolutePaths(category: Category, path: string, variant: Option<string>, options: SimklImageUrlOptions)
    ensures IsHttpUrl(Trim(path)) ==> BuildSimklImageUrl(category, path, variant, options) == Some(Trim(path))
    ensures !IsHttpUrl(Trim(path)) && StartsWith(Trim(path), "//") ==>
              BuildSimklImageUrl(category, path, variant, options) == Some("https:" + Trim(path))
    ensures !IsHttpUrl(Trim(path)) && !StartsWith(Trim(path), "//") && HostWithPath(Trim(path)) ==>
              BuildSimklImageUrl(category, path, variant, options) == Some("https://" + Trim(path))
  {
  }

  lemma PrefixOfAppend(a: string, b: string)
    ensures StartsWith(a + b, a)
  {
    assert (a + b)[..|a|] == a;
  }

  /** Every other URL lies under the chosen base URL. */
  lemma RelativePathsUnderBase(category: Category, path: string, variant: Option<string>, options: SimklImageUrlOptions)
    requires !IsHttpUrl(Trim(path)) && !StartsWith(Trim(path), "//") && !HostWithPath(Trim(path))
    requires BuildSimklImageUrl(category, path, variant, options).Some?
    ensures StartsWith(BuildSimklImageUrl(category, path, variant, options).value, BaseUrl(options) + "/")
  {
  }

  /** A path that is none of the absolute forms. */
  predicate NotAbsolute(input: string) {
    !IsHttpUrl(input) && !StartsWith(input, "//") && !HostWithPath(input)
  }

  /** A rooted path that is not absolute is appended to the base as it is. */
  lemma RootedPathUrl(category: Category, path: string, variant: Option<string>, options: SimklImageUrlOptions)
    requires NotAbsolute(Trim(path)) && StartsWith(Trim(path), "/")
    ensures BuildSimklImageUrl(category, path, variant, options) == Some(BaseUrl(options) + Trim(path))
  {
    assert BuildSimklImageUrl(category, path, variant, options) == UrlUnderBase(category, Trim(path), variant, options);
  }

  /** A relative path that already names its category is kept after `<base>/`. */
  lemma CategoryPathUrl(category: Category, path: string, variant: Option<string>, options: SimklImageUrlOptions, cleaned: string)
    requires NotAbsolute(Trim(path)) && !StartsWith(Trim(path), "/")
    requires SanitizePath(Trim(path)) == Some(cleaned) && cleaned != "" && IsCategoryPrefixed(cleaned)
    ensures BuildSimklImageUrl(category, path, variant, options) == Some(BaseUrl(options) + "/" + cleaned)
  {
    assert BuildSimklImageUrl(category, path, variant, options) == UrlUnderBase(category, Trim(path), variant, options);
  }

  /** A relative file name goes under its category, with no variant and no format appended. */
  lemma FileNameUrl(category: Category, path: string, variant: Option<string>, options: SimklImageUrlOptions, cleaned: string)
    requires NotAbsolute(Trim(path)) && !StartsWith(Trim(path), "/")
    requires SanitizePath(Trim(path)) == Some(cleaned) && cleaned != ""
    requires !IsCategoryPrefixed(cleaned) && HasFileExtension(cleaned)
    ensures BuildSimklImageUrl(category, path, variant, options)
            == Some(BaseUrl(options) + "/" + (CategoryName(category) + "/" + cleaned))
  {
    assert BuildSimklImageUrl(category, path, variant, options) == UrlUnderBase(category, Trim(path), variant, options);
  }

  /** An ASCII lower-case letter or digit. */
  predicate IsLowerAlnum(c: char) {
    'a' <= c <= 'z' || IsDigit(c)
  }

  /**
   * A bare image path as the API returns it: lower-case letters, digits, `/`, `_` and `-`,
   * starting with a letter or digit, with no extension and no category in front.
   */
  predicate IsBareImagePath(p: string) {
    p != "" && IsLowerAlnum(p[0])
    && (forall i :: 0 <= i < |p| ==> IsLowerAlnum(p[i]) || p[i] == '/' || p[i] == '_' || p[i] == '-')
    && !IsCategoryPrefixed(p)
  }

  lemma BareShape(p: string)
    requires IsBareImagePath(p)
    ensures Trim(p) == p && '\\' !in p
    ensures !IsHttpUrl(p) && !StartsWith(p, "//") && !StartsWith(p, "/") && !HostWithPath(p) && !HasFileExtension(p)
  {
    TrimNoop(p);
    BareNotHttp(p);
    BareNotHost(p);
    BareNoExtension(p);
  }

  lemma BareNotHttp(p: string)
    requires IsBareImagePath(p)
    ensures !IsHttpUrl(p)
  {
    if StartsWithNoCase(p, "http://") {
      StartsWithNoCaseAt(p, "http://", 4);
    }
    if StartsWithNoCase(p, "https://") {
      StartsWithNoCaseAt(p, "https://", 5);
    }
  }

  lemma BareNotHost(p: string)
    requires IsBareImagePath(p)
    ensures !HostWithPath(p)
  {
    var h := BeforeSlash(p);
    var t := TrailingLetters(h);
    if t + 2 <= |h| {
      assert h[|h| - t - 1] == p[|h| - t - 1];
    }
  }

  lemma BareNoExtension(p: string)
    requires IsBareImagePath(p)
    ensures !HasFileExtension(p)
  {
    if EndsWithNoCase(p, ".jpg") { EndsWithNoCaseStart(p, ".jpg"); }
    if EndsWithNoCase(p, ".jpeg") { EndsWithNoCaseStart(p, ".jpeg"); }
    if EndsWithNoCase(p, ".webp") { EndsWithNoCaseStart(p, ".webp"); }
    if EndsWithNoCase(p, ".png") { EndsWithNoCaseStart(p, ".png"); }
  }

  /**
   * A bare path gets the category, the variant and the format appended to the base URL;
   * the path reappears verbatim in the URL.
   */
  lemma BarePathUrl(category: Category, p: string, variant: Option<string>, options: SimklImageUrlOptions)
    requires IsBareImagePath(p)
    ensures BuildSimklImageUrl(category, p, variant, options)
            == Some(BaseUrl(options) + "/" + (CategoryName(category) + "/" + p + VariantSuffix(variant) + "." + FormatName(options.format.GetOr(Webp))))
  {
    BareShape(p);
    SanitizeNoop(p);
  }


  // ---------------------------------------------------------------------------
  // per-category builders

  /** `buildSimklPosterUrl`: posters, variant `ca` by default. */
  function BuildSimklPosterUrl(path: string, variant: Option<string>, options: SimklImageUrlOptions): (r: Option<string>)
    ensures r.None? <==> Trim(path) == "" || Trim(path) == "\\"
    ensures IsBareImagePath(path) ==>
              r == Some(BaseUrl(options) + "/" + ("posters" + "/" + path + VariantSuffix(Some(variant.GetOr("ca"))) + "."
                                                  + FormatName(options.format.GetOr(Webp))))
  {
    ImageUrlDefined(Posters, path, Some(variant.GetOr("ca")), options);
    if IsBareImagePath(path) then BarePathUrl(Posters, path, Some(variant.GetOr("ca")), options); BuildSimklImageUrl(Posters, path, Some(variant.GetOr("ca")), options)
    else BuildSimklImageUrl(Posters, path, Some(variant.GetOr("ca")), options)
  }

  /** `buildSimklFanartUrl`: fanart, variant `mobile` by default. */
  function BuildSimklFanartUrl(path: string, variant: Option<string>, options: SimklImageUrlOptions): (r: Option<string>)
    ensures r.None? <==> Trim(path) == "" || Trim(path) == "\\"
    ensures IsBareImagePath(path) ==>
              r == Some(BaseUrl(options) + "/" + ("fanart" + "/" + path + VariantSuffix(Some(variant.GetOr("mobile"))) + "."
                                                  + FormatName(options.format.GetOr(Webp))))
  {
    ImageUrlDefined(Fanart, path, Some(variant.GetOr("mobile")), options);
    if IsBareImagePath(path) then BarePathUrl(Fanart, path, Some(variant.GetOr("mobile")), options); BuildSimklImageUrl(Fanart, path, Some(variant.GetOr("mobile")), options)
    else BuildSimklImageUrl(Fanart, path, Some(variant.GetOr("mobile")), options)
  }

  /** `buildSimklEpisodeImageUrl`: episodes, variant `w` by default. */
  function BuildSimklEpisodeImageUrl(path: string, variant: Option<string>, options: SimklImageUrlOptions): (r: Option<string>)
    ensures r.None? <==> Trim(path) == "" || Trim(path) == "\\"
    ensures IsBareImagePath(path) ==>
              r == Some(BaseUrl(options) + "/" + ("episodes" + "/" + path + VariantSuffix(Some(variant.GetOr("w"))) + "."
                                                  + FormatName(options.format.GetOr(Webp))))
  {
    ImageUrlDefined(Episodes, path, Some(variant.GetOr("w")), options);
    if IsBareImagePath(path) then BarePathUrl(Episodes, path, Some(variant.GetOr("w")), options); BuildSimklImageUrl(Episodes, path, Some(variant.GetOr("w")), options)
    else BuildSimklImageUrl(Episodes, path, Some(variant.GetOr("w")), options)
  }

  /** `buildSimklAvatarUrl`: avatars, never with a variant. */
  function BuildSimklAvatarUrl(path: string, options: SimklImageUrlOptions): (r: Option<string>)
    ensures r.None? <==> Trim(path) == "" || Trim(path) == "\\"
  {
    ImageUrlDefined(Avatars, path, None, options);
    BuildSimklImageUrl(Avatars, path, None, options)
  }

  /** A poster of a bare path defaults to the `ca` variant. */
  lemma PosterDefault(p: string, options: SimklImageUrlOptions)
    requires IsBareImagePath(p)
    ensures BuildSimklPosterUrl(p, None, options)
            == Some(BaseUrl(options) + "/" + ("posters" + "/" + p + ("_" + "ca") + "." + FormatName(options.format.GetOr(Webp))))
  {
    BarePathUrl(Posters, p, Some("ca"), options);
  }

  /** A fanart of a bare path defaults to the `mobile` variant. */
  lemma FanartDefault(p: string, options: SimklImageUrlOptions)
    requires IsBareImagePath(p)
    ensures BuildSimklFanartUrl(p, None, options)
            == Some(BaseUrl(options) + "/" + ("fanart" + "/" + p + ("_" + "mobile") + "." + FormatName(options.format.GetOr(Webp))))
  {
    BarePathUrl(Fanart, p, Some("mobile"), options);
  }

  /** An episode image of a bare path defaults to the `w` variant. */
  lemma EpisodeDefault(p: string, options: SimklImageUrlOptions)
    requires IsBareImagePath(p)
    ensures BuildSimklEpisodeImageUrl(p, None, options)
            == Some(BaseUrl(options) + "/" + ("episodes" + "/" + p + ("_" + "w") + "." + FormatName(options.format.GetOr(Webp))))
  {
    BarePathUrl(Episodes, p, Some("w"), options);
  }

  /** An avatar of a bare path has no variant suffix. */
  lemma AvatarNoVariant(p: string, options: SimklImageUrlOptions)
    requires IsBareImagePath(p)
    ensures BuildSimklAvatarUrl(p, options)
            == Some(BaseUrl(options) + "/" + ("avatars" + "/" + p + "." + FormatName(options.format.GetOr(Webp))))
  {
    BarePathUrl(Avatars, p, None, options);
    assert "avatars" + "/" + p + "" == "avatars" + "/" + p;
  }

  lemma DefaultBase()
    ensures BaseUrl(DefaultOptions) == SimklImageOrigin
  {
  }


  // ---------------------------------------------------------------------------
  // URL lists

  /** The URLs built for the variants, in variant order, skipping those not built. */
  function UrlsFor(variants: seq<string>, build: string -> Option<string>): (r: seq<string>)
    ensures |r| <= |variants|
  {
    if |variants| == 0 then []
    else
      var rest := UrlsFor(variants[..|variants| - 1], build);
      var url := build(variants[|variants| - 1]);
      if url.Some? then rest + [url.value] else rest
  }

  /** When every variant gives a URL, the list is exactly those URLs, in variant order. */
  lemma {:induction false} UrlsForAll(variants: seq<string>, build: string -> Option<string>)
    requires forall i :: 0 <= i < |variants| ==> build(variants[i]).Some?
    ensures |UrlsFor(variants, build)| == |variants|
    ensures forall i :: 0 <= i < |variants| ==> UrlsFor(variants, build)[i] == build(variants[i]).value
  {
    if |variants| > 0 {
      UrlsForAll(variants[..|variants| - 1], build);
    }
  }

  /** When no variant gives a URL, the list is empty. */
  lemma {:induction false} UrlsForNone(variants: seq<string>, build: string -> Option<string>)
    requires forall i :: 0 <= i < |variants| ==> build(variants[i]).None?
    ensures UrlsFor(variants, build) == []
  {
    if |variants| > 0 {
      UrlsForNone(variants[..|variants| - 1], build);
    }
  }

  /** When either every variant gives a URL or none does, the list is all of them or empty. */
  lemma UrlsForAllOrNone(variants: seq<string>, build: string -> Option<string>, defined: bool)
    requires forall i :: 0 <= i < |variants| ==> (build(variants[i]).Some? <==> defined)
    ensures !defined ==> UrlsFor(variants, build) == []
    ensures defined ==> |UrlsFor(variants, build)| == |variants|
                        && forall i :: 0 <= i < |variants| ==> UrlsFor(variants, build)[i] == build(variants[i]).value
  {
    if defined {
      UrlsForAll(variants, build);
    } else {
      UrlsForNone(variants, build);
    }
  }

  /** The loop of both list builders: each variant in turn, its URL appended when one is built. */
  method CollectUrls(variants: seq<string>, build: string -> Option<string>) returns (urls: seq<string>)
    ensures urls == UrlsFor(variants, build)
  {
    urls := [];
    for i := 0 to |variants|
      invariant urls == UrlsFor(variants[..i], build)
    {
      assert variants[..i + 1][..i] == variants[..i];
      var url := build(variants[i]);
      if url.Some? {
        urls := urls + [url.value];
      }
    }
    assert variants[..|variants|] == variants;
  }

  /** `buildSimklPosterUrls`: the poster URL of each variant that gives one. */
  method BuildSimklPosterUrls(path: string, options: SimklImageUrlOptions) returns (urls: seq<string>)
    ensures urls == UrlsFor(PosterVariants, v => BuildSimklPosterUrl(path, Some(v), options))
  {
    urls := CollectUrls(PosterVariants, v => BuildSimklPosterUrl(path, Some(v), options));
  }

  /** `buildSimklFanartUrls`: the fanart URL of each variant that gives one. */
  method BuildSimklFanartUrls(path: string, options: SimklImageUrlOptions) returns (urls: seq<string>)
    ensures urls == UrlsFor(FanartVariants, v => BuildSimklFanartUrl(path, Some(v), options))
  {
    urls := CollectUrls(FanartVariants, v => BuildSimklFanartUrl(path, Some(v), options));
  }

  /**
   * The poster list holds five URLs, one per variant in the order `cm, c, ca, m, s`, for
   * every path a URL can be built for, and none otherwise.
   */
  lemma PosterUrlsSpec(path: string, options: SimklImageUrlOptions)
    ensures var urls := UrlsFor(PosterVariants, v => BuildSimklPosterUrl(path, Some(v), options));
            (Trim(path) == "" || Trim(path) == "\\" ==> urls == [])
            && (Trim(path) != "" && Trim(path) != "\\" ==>
                  |urls| == 5 && forall i :: 0 <= i < 5 ==> urls[i] == BuildSimklPosterUrl(path, Some(PosterVariants[i]), options).value)
  {
    var build := v => BuildSimklPosterUrl(path, Some(v), options);
    var defined := Trim(path) != "" && Trim(path) != "\\";
    forall i | 0 <= i < |PosterVariants|
      ensures build(PosterVariants[i]).Some? <==> defined
    {
      ImageUrlDefined(Posters, path, Some(PosterVariants[i]), options);
    }
    UrlsForAllOrNone(PosterVariants, build, defined);
  }

  /**
   * The fanart list holds five URLs, one per variant in the order `s48, w, mobile, medium, d`,
   * for every path a URL can be built for, and none otherwise.
   */
  lemma FanartUrlsSpec(path: string, options: SimklImageUrlOptions)
    ensures var urls := UrlsFor(FanartVariants, v => BuildSimklFanartUrl(path, Some(v), options));
            (Trim(path) == "" || Trim(path) == "\\" ==> urls == [])
            && (Trim(path) != "" && Trim(path) != "\\" ==>
                  |urls| == 5 && forall i :: 0 <= i < 5 ==> urls[i] == BuildSimklFanartUrl(path, Some(FanartVariants[i]), options).value)
  {
    var build := v => BuildSimklFanartUrl(path, Some(v), options);
    var defined := Trim(path) != "" && Trim(path) != "\\";
    forall i | 0 <= i < |FanartVariants|
      ensures build(FanartVariants[i]).Some? <==> defined
    {
      ImageUrlDefined(Fanart, path, Some(FanartVariants[i]), options);
    }
    UrlsForAllOrNone(FanartVariants, build, defined);
  }

  /** The poster path of the Simkl API example, `posters/74/74415673dcdc9cdd_ca.webp` once built. */
  const ExamplePosterPath: string := "74/74415673dcdc9cdd"

  lemma ExampleIsBare()
    ensures IsBareImagePath(ExamplePosterPath)
  {
    var p := ExamplePosterPath;
    assert forall i :: 0 <= i < |p| ==> IsLowerAlnum(p[i]) || p[i] == '/';
    DigitFirstUncategorised(p);
  }

  /** No category name starts with a digit. */
  lemma DigitFirstUncategorised(p: string)
    requires p != "" && IsDigit(p[0])
    ensures !IsCategoryPrefixed(p)
  {
  }

  /** The example path under the default options: origin, `posters`, the path, `_ca` and `.webp`. */
  lemma ExamplePosterUrl()
    ensures BuildSimklPosterUrl(ExamplePosterPath, None, DefaultOptions)
            == Some(SimklImageOrigin + "/" + ("posters" + "/" + ExamplePosterPath + ("_" + "ca") + "." + "webp"))
  {
    ExampleIsBare();
    PosterDefault(ExamplePosterPath, DefaultOptions);
  }
}
