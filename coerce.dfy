/**
 * Coercion of legacy and mixed id inputs into a typed provider reference
 * (`src/ids/coerce.ts`).
 */
module Coerce {
  import opened Wrappers
  import opened Strings
  import opened Media
  import opened ExternalId
  import opened StremioId
  import opened ProviderRefs
  import opened MediaId

  /** The shape every coerced reference has. */
  predicate ValidRef(r: ProviderRef) {
    r.WellFormed() && r.ProviderOf() != Tvdb
    && (r.season.Some? <==> r.episode.Some?)
    && (r.ImdbRef? ==> IsImdbId(r.imdb))
  }

  /** Season and episode of a suffix, attached only when both are present. */
  function AttachSuffix(r: ProviderRef, season: Option<PosInt>, episode: Option<PosInt>): (out: ProviderRef)
    requires r.season.None? && r.episode.None?
    ensures out.WithoutEpisode() == r
    ensures out.season.Some? <==> season.Some? && episode.Some?
    ensures season.Some? && episode.Some? ==> out.season == Some(season.value as int) && out.episode == Some(episode.value as int)
  {
    if season.Some? && episode.Some? then r.WithEpisode(Some(season.value), Some(episode.value)) else r
  }

  /** A loose reference made strict: a missing kind is the caller's kind. */
  function FromLoose(loose: LooseRef, kind: Kind): (r: ProviderRef)
    requires loose.provider != Tvdb && (loose.provider == Imdb <==> loose.id.ImdbId?)
    requires loose.id.ImdbId? ==> IsImdbId(loose.id.imdb)
    ensures ValidRef(r) && r.season.None? && r.episode.None?
    ensures r.ProviderOf() == loose.provider && r.kind == loose.kind.GetOr(kind)
  {
    match loose.id
    case ImdbId(imdb) => ImdbRef(loose.kind.GetOr(kind), imdb, None, None)
    case NumId(n) => NumericRef(loose.provider, loose.kind.GetOr(kind), n, None, None)
  }

  /** The strict, then the loose reading of the suffix-stripped text. */
  function CoerceText(text: string, kind: Kind): (r: Option<ProviderRef>)
    ensures r.Some? ==> ValidRef(r.value)
  {
    var suffix := ParseEpisodeIdSuffix(text);
    var strict := ParseProviderRefStrict(suffix.baseId);
    if strict.Some? then Some(AttachSuffix(strict.value, suffix.season, suffix.episode))
    else
      var loose := ParseProviderRefLoose(suffix.baseId);
      if loose.Some? then Some(AttachSuffix(FromLoose(loose.value, kind), suffix.season, suffix.episode))
      else None
  }

  /** The first of the parsed ids, with the parsed season and episode. */
  function CoerceParsed(input: IdInput, kind: Kind): (r: Option<ProviderRef>)
    ensures r.Some? ==> ValidRef(r.value)
  {
    RefOfParsed(ParseMediaIdInput(input, false), kind)
  }

  /** The first id of a parse, with its season and episode. */
  function RefOfParsed(parsed: ParsedMediaId, kind: Kind): (r: Option<ProviderRef>)
    requires ValidIds(parsed.ids)
    ensures r.Some? ==> ValidRef(r.value)
  {
    var first := PreferredRef(kind, parsed.ids);
    if first.None? then None
    else Some(AttachSuffix(first.value, parsed.season, parsed.episode))
  }

  /**
   * `coerceProviderRef`: a strict `provider:kind:id` base id wins, then a loose one, then
   * the first of the parsed ids; the suffix's season and episode are attached throughout.
   */
  function CoerceProviderRef(input: IdInput, kind: Kind): (r: Option<ProviderRef>)
    ensures r.Some? ==> ValidRef(r.value)
  {
    var fromText := if input.Text? then CoerceText(input.text, kind) else None;
    if fromText.Some? then fromText else CoerceParsed(input, kind)
  }

  /** `coerceProviderRefFromMediaType`: the caller's kind is movie for a movie and show for a series. */
  function CoerceProviderRefFromMediaType(input: IdInput, t: MediaType): (r: Option<ProviderRef>)
    ensures r.Some? ==> ValidRef(r.value)
    ensures input.Number? ==>
              r == if input.n > 0 then Some(NumericRef(Tmdb, MediaTypeToProviderKind(t), input.n, None, None)) else None
  {
    if input.Number? then NumberInput(input.n, MediaTypeToProviderKind(t)); CoerceProviderRef(input, MediaTypeToProviderKind(t))
    else CoerceProviderRef(input, MediaTypeToProviderKind(t))
  }

  /** A strict base id wins with its own kind, carrying the suffix when it has one. */
  lemma StrictWins(text: string, kind: Kind)
    requires ParseProviderRefStrict(ParseEpisodeIdSuffix(text).baseId).Some?
    ensures var suffix := ParseEpisodeIdSuffix(text);
            var strict := ParseProviderRefStrict(suffix.baseId).value;
            CoerceProviderRef(Text(text), kind) == Some(AttachSuffix(strict, suffix.season, suffix.episode))
            && CoerceProviderRef(Text(text), kind).value.kind == strict.kind
  {
  }

  /** A loose base id without a kind takes the caller's kind; an IMDb id stays text. */
  lemma LooseTakesKind(text: string, kind: Kind)
    requires ParseProviderRefStrict(ParseEpisodeIdSuffix(text).baseId).None?
    requires ParseProviderRefLoose(ParseEpisodeIdSuffix(text).baseId).Some?
    ensures var loose := ParseProviderRefLoose(ParseEpisodeIdSuffix(text).baseId).value;
            var coerced := CoerceProviderRef(Text(text), kind);
            coerced.Some? && var r := coerced.value;
            r.kind == loose.kind.GetOr(kind) && r.ProviderOf() == loose.provider
            && (r.ImdbRef? <==> loose.id.ImdbId?)
            && (r.ImdbRef? ==> r.imdb == loose.id.imdb)
            && (r.NumericRef? ==> r.id == loose.id.n)
  {
    var suffix := ParseEpisodeIdSuffix(text);
    var loose := ParseProviderRefLoose(suffix.baseId).value;
    var r := AttachSuffix(FromLoose(loose, kind), suffix.season, suffix.episode);
    assert CoerceText(text, kind) == Some(r);
    assert r.WithoutEpisode() == FromLoose(loose, kind);
  }

  /** With neither a strict nor a loose base id, the first parsed id under the caller's kind. */
  lemma FallbackFirstId(input: IdInput, kind: Kind)
    requires input.Text? ==> ParseProviderRefStrict(ParseEpisodeIdSuffix(input.text).baseId).None?
                             && ParseProviderRefLoose(ParseEpisodeIdSuffix(input.text).baseId).None?
    ensures var parsed := ParseMediaIdInput(input, false);
            var first := PreferredRef(kind, parsed.ids);
            CoerceProviderRef(input, kind)
            == if first.Some? then Some(AttachSuffix(first.value, parsed.season, parsed.episode)) else None
  {
  }

  /** A positive number is a tmdb id under the caller's kind; any other number has no reference. */
  lemma NumberInput(n: int, kind: Kind)
    ensures CoerceProviderRef(Number(n), kind)
            == if n > 0 then Some(NumericRef(Tmdb, kind, n, None, None)) else None
  {
    MediaId.NumberInput(n, false);
  }

  /** The media-type form uses the movie kind for a movie and the show kind for a series. */
  lemma FromMediaTypeNumber(n: PosInt, t: MediaType)
    ensures CoerceProviderRefFromMediaType(Number(n), t)
            == Some(NumericRef(Tmdb, if t == Movie then MovieKind else ShowKind, n, None, None))
  {
    NumberInput(n, MediaTypeToProviderKind(t));
  }

  /** A formatted reference has no episode suffix. */
  lemma FormattedHasNoSuffix(r: ProviderRef)
    requires r.WellFormed() && r.ProviderOf() != Tvdb
    requires r.ImdbRef? ==> IsImdbId(r.imdb)
    ensures ParseEpisodeIdSuffix(FormatProviderRef(r)) == EpisodeIdSuffix(FormatProviderRef(r), None, None)
  {
    RefIdToken(r);
    ProviderNameFixed(r.ProviderOf());
    KindNameFixed(r.kind);
    KindNotPositive(r.kind);
    ThreeTokensNoSuffix(ProviderName(r.ProviderOf()), KindName(r.kind), RefIdText(r));
  }

  /** `a:b:c` with clean pieces has no suffix when `b` is not a positive integer. */
  lemma ThreeTokensNoSuffix(a: string, b: string, c: string)
    requires a != "" && Trim(a) == a && ':' !in a
    requires ':' !in b && ToPositiveInteger(b).None?
    requires c != "" && Trim(c) == c && ':' !in c
    ensures var s := a + ":" + b + ":" + c;
            ParseEpisodeIdSuffix(s) == EpisodeIdSuffix(s, None, None)
  {
    var s := a + ":" + b + ":" + c;
    assert s[0] == a[0] && s[|s| - 1] == c[|c| - 1];
    TrimNoop(a);
    TrimNoop(c);
    TrimNoop(s);
    SplitThree(a, b, c);
    NoSuffixWithoutSeason(s);
  }

  /** No kind name is a positive integer. */
  lemma KindNotPositive(k: Kind)
    ensures ToPositiveInteger(KindName(k)).None?
  {
    var n := KindName(k);
    assert !IsDigit(n[0]);
  }

  /** Coercing a formatted reference gives it back, whatever the caller's kind. */
  lemma CoerceFormatted(r: ProviderRef, kind: Kind)
    requires r.WellFormed() && r.ProviderOf() != Tvdb
    requires r.ImdbRef? ==> IsImdbId(r.imdb)
    ensures CoerceProviderRef(Text(FormatProviderRef(r)), kind) == Some(r.WithoutEpisode())
  {
    FormattedHasNoSuffix(r);
    StrictRoundTrip(r);
  }

  /** Coercing a formatted reference with an episode suffix gives it back scoped to that episode. */
  lemma CoerceFormattedEpisode(r: ProviderRef, s: PosInt, e: PosInt, kind: Kind)
    requires r.WellFormed() && r.ProviderOf() != Tvdb
    requires r.ImdbRef? ==> IsImdbId(r.imdb)
    ensures Trim(FormatProviderRef(r)) != ""
    ensures CoerceProviderRef(Text(BuildEpisodeId(FormatProviderRef(r), s, e).value), kind)
            == Some(r.WithEpisode(Some(s), Some(e)))
  {
    var f := FormatProviderRef(r);
    RefIdToken(r);
    FormatTokens(r.ProviderOf(), r.kind, RefIdText(r));
    EpisodeIdRoundTrip(f, s, e);
    StrictRoundTrip(r);
  }
}
