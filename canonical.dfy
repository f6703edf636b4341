/**
 * Typed canonical media ids `provider:kind:id` built from an id set
 * (`src/ids/canonical.ts`).
 */
module Canonical {
  import opened Wrappers
  import opened Strings
  import opened Media
  import opened ProviderRefs

  /** `formatFromIds`: the imdb id is used as text, every other id as a number. */
  function FormatFromIds(p: Provider, k: Kind, id: string): string {
    FormatParts(p, k, id)
  }

  /**
   * `buildCanonicalMediaId`: the first of imdb, tmdb, trakt, tvdb and simkl as a typed
   * ref, else the trimmed fallback; never the empty string.
   */
  function BuildCanonicalMediaId(ids: ExternalIds, kind: Kind, fallback: Option<string>): (r: Option<string>)
    ensures r.Some? ==> r.value != ""
    ensures r.None? <==> !StrSet(ids.imdb) && !NumSet(ids.tmdb) && !NumSet(ids.trakt) && !NumSet(ids.tvdb)
                         && !NumSet(ids.simkl) && (fallback.None? || Trim(fallback.value) == "")
  {
    if StrSet(ids.imdb) then Some(FormatFromIds(Imdb, kind, ids.imdb.value))
    else if NumSet(ids.tmdb) then Some(FormatFromIds(Tmdb, kind, IntStr(ids.tmdb.value)))
    else if NumSet(ids.trakt) then Some(FormatFromIds(Trakt, kind, IntStr(ids.trakt.value)))
    else if NumSet(ids.tvdb) then Some(FormatFromIds(Tvdb, kind, IntStr(ids.tvdb.value)))
    else if NumSet(ids.simkl) then Some(FormatFromIds(Simkl, kind, IntStr(ids.simkl.value)))
    else if fallback.None? || fallback.value == "" then None
    else
      var trimmed := Trim(fallback.value);
      if trimmed != "" then Some(trimmed) else None
  }

  /** `buildCanonicalMediaIdFromMediaType`: movies become the movie kind, series the show kind. */
  function BuildCanonicalMediaIdFromMediaType(ids: ExternalIds, t: MediaType, fallback: Option<string>): (r: Option<string>)
    ensures r.None? <==> !HasAnyId(ids) && (fallback.None? || Trim(fallback.value) == "")
    ensures ValidIds(ids) && HasAnyId(ids) ==>
              r == Some(FormatProviderRef(CanonicalRef(MediaTypeToProviderKind(t), ids).value))
              && CanonicalRef(MediaTypeToProviderKind(t), ids).value.kind == MediaTypeToProviderKind(t)
  {
    var kind := MediaTypeToProviderKind(t);
    if ValidIds(ids) && HasAnyId(ids) then CanonicalMediaIdIsRef(ids, kind, fallback); BuildCanonicalMediaId(ids, kind, fallback)
    else BuildCanonicalMediaId(ids, kind, fallback)
  }

  predicate HasAnyId(ids: ExternalIds) {
    StrSet(ids.imdb) || NumSet(ids.tmdb) || NumSet(ids.trakt) || NumSet(ids.tvdb) || NumSet(ids.simkl)
  }

  /** The ref of highest precedence: imdb, tmdb, trakt, tvdb, then simkl. */
  function CanonicalRef(kind: Kind, ids: ExternalIds): (r: Option<ProviderRef>)
    requires ValidIds(ids)
    ensures r.Some? <==> HasAnyId(ids)
    ensures r.Some? ==> r.value.WellFormed() && r.value.kind == kind
    ensures r.Some? ==> r.value.season.None? && r.value.episode.None?
    ensures r.Some? && r.value.ImdbRef? ==> IsImdbId(r.value.imdb)
  {
    if StrSet(ids.imdb) then Some(ImdbRef(kind, ids.imdb.value, None, None))
    else if NumSet(ids.tmdb) then Some(NumericRef(Tmdb, kind, ids.tmdb.value, None, None))
    else if NumSet(ids.trakt) then Some(NumericRef(Trakt, kind, ids.trakt.value, None, None))
    else if NumSet(ids.tvdb) then Some(NumericRef(Tvdb, kind, ids.tvdb.value, None, None))
    else if NumSet(ids.simkl) then Some(NumericRef(Simkl, kind, ids.simkl.value, None, None))
    else None
  }

  /** With an id present the canonical id is exactly the formatted ref of highest precedence. */
  lemma CanonicalMediaIdIsRef(ids: ExternalIds, kind: Kind, fallback: Option<string>)
    requires ValidIds(ids) && HasAnyId(ids)
    ensures BuildCanonicalMediaId(ids, kind, fallback) == Some(FormatProviderRef(CanonicalRef(kind, ids).value))
  {
  }

  /** Without any id the canonical id is the trimmed fallback, if that is not blank. */
  lemma CanonicalMediaIdFallback(ids: ExternalIds, kind: Kind, fallback: Option<string>)
    requires !HasAnyId(ids)
    ensures BuildCanonicalMediaId(ids, kind, fallback)
            == (if fallback.Some? && Trim(fallback.value) != "" then Some(Trim(fallback.value)) else None)
  {
  }

  /**
   * Strict parsing reads a canonical media id back as its ref, except that tvdb refs are
   * never parsed back because tvdb is not a known provider name.
   */
  lemma CanonicalMediaIdRoundTrip(ids: ExternalIds, kind: Kind, fallback: Option<string>)
    requires ValidIds(ids) && HasAnyId(ids)
    ensures var r := CanonicalRef(kind, ids).value;
            ParseProviderRefStrict(BuildCanonicalMediaId(ids, kind, fallback).value)
            == if r.ProviderOf() == Tvdb then None else Some(r)
  {
    var r := CanonicalRef(kind, ids).value;
    CanonicalMediaIdIsRef(ids, kind, fallback);
    if r.ProviderOf() == Tvdb {
      RefIdToken(r);
      StrictRejectsTvdb(kind, RefIdText(r));
    } else {
      StrictRoundTrip(r);
      assert r.WithoutEpisode() == r;
    }
  }

  /** The media-type form uses the movie kind for a movie and the show kind for a series. */
  lemma CanonicalFromMediaTypeKind(ids: ExternalIds, t: MediaType, fallback: Option<string>)
    requires ValidIds(ids) && HasAnyId(ids)
    ensures BuildCanonicalMediaIdFromMediaType(ids, t, fallback)
            == Some(FormatProviderRef(CanonicalRef(if t == Movie then MovieKind else ShowKind, ids).value))
  {
    CanonicalMediaIdIsRef(ids, MediaTypeToProviderKind(t), fallback);
  }
}
