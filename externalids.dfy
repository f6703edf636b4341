/**
 * Recognition of provider-prefixed and bare ids, the multi-source merge and the
 * canonical Stremio-style id of an id set (`src/ids/externalIds.ts`).
 */
module ExternalId {
  import opened Wrappers
  import opened Strings
  import opened Media

  /** A JavaScript `string | number` id input; numbers are whole or not finite. */
  datatype IdInput = Text(text: string) | Number(n: int) | NonFinite(special: NonFiniteNumber)

  datatype NonFiniteNumber = NaN | PositiveInfinity | NegativeInfinity

  /** `String(n)` for a JavaScript number. */
  function NumberStr(input: IdInput): (s: string)
    requires !input.Text?
    ensures s != ""
  {
    match input
    case Number(n) => IntStr(n)
    case NonFinite(NaN) => "NaN"
    case NonFinite(PositiveInfinity) => "Infinity"
    case NonFinite(NegativeInfinity) => "-Infinity"
  }

  /** `toPositiveInteger`: an all-digit string whose value is positive. */
  function ToPositiveInteger(value: string): (r: Option<PosInt>)
    ensures r.Some? <==> IsDigits(value) && DigitsValue(value) > 0
    ensures r.Some? ==> r.value == DigitsValue(value)
  {
    if IsDigits(value) && DigitsValue(value) > 0 then Some(DigitsValue(value)) else None
  }

  /** Printing a positive integer and reading it back with `toPositiveInteger` is the identity. */
  lemma ToPositiveIntegerNatStr(n: PosInt)
    ensures ToPositiveInteger(NatStr(n)) == Some(n)
  {
    NatStrValue(n);
  }

  /** A string of zeros is not a positive integer. */
  lemma ToPositiveIntegerZero(value: string)
    requires forall i :: 0 <= i < |value| ==> value[i] == '0'
    ensures ToPositiveInteger(value) == None
  {
    ZerosValue(value);
  }

  lemma {:induction false} ZerosValue(value: string)
    requires forall i :: 0 <= i < |value| ==> value[i] == '0'
    ensures DigitsValue(value) == 0
  {
    if |value| > 0 {
      ZerosValue(value[..|value| - 1]);
    }
  }

  /** The media type a lower-cased, trimmed name stands for. */
  function MediaTypeOfName(name: string): (r: Option<MediaType>)
    ensures r == Some(Movie) <==> name in {"movie", "film"}
    ensures r == Some(Series) <==> name in {"show", "tv", "series"}
  {
    if name == "movie" || name == "film" then Some(Movie)
    else if name == "show" || name == "tv" || name == "series" then Some(Series)
    else None
  }

  /** `normalizeMediaType`: movie/film and show/tv/series, after trimming and lower-casing. */
  function NormalizeMediaType(t: Option<string>): (r: Option<MediaType>)
    ensures r == Some(Movie) <==> t.Some? && Lower(Trim(t.value)) in {"movie", "film"}
    ensures r == Some(Series) <==> t.Some? && Lower(Trim(t.value)) in {"show", "tv", "series"}
  {
    if t.None? || t.value == "" then
      assert t.Some? ==> |Lower(Trim(t.value))| == 0;
      None
    else MediaTypeOfName(Lower(Trim(t.value)))
  }

  /** Lower-cased input set maps the same: the media type is case-insensitive. */
  lemma NormalizeMediaTypeIgnoresCase(s: string)
    ensures NormalizeMediaType(Some(Lower(s))) == NormalizeMediaType(Some(s))
  {
    TrimLower(s);
    LowerIdempotent(Trim(s));
    assert |Lower(s)| == |s|;
    assert Lower(Trim(Lower(s))) == Lower(Trim(s));
  }

  /** Surrounding whitespace does not change the media type. */
  lemma NormalizeMediaTypeIgnoresSpace(s: string)
    ensures NormalizeMediaType(Some(Trim(s))) == NormalizeMediaType(Some(s))
  {
    TrimIdempotent(s);
  }

  /** `normalizeImdbId`: a lower-case `tt<digits>` id, accepted bare or behind `imdb:`. */
  function NormalizeImdbId(value: Option<string>): (r: Option<string>)
    ensures r.Some? ==> IsImdbId(r.value)
  {
    if value.None? || value.value == "" then None
    else NormalizeImdbText(Lower(Trim(value.value)))
  }

  /** The tests `normalizeImdbId` applies on the trimmed, lower-cased text. */
  function NormalizeImdbText(normalized: string): (r: Option<string>)
    ensures r.Some? ==> IsImdbId(r.value)
  {
    if IsImdbId(normalized) then Some(normalized)
    else if StartsWith(normalized, "imdb:") then
      var candidate := Trim(normalized[5..]);
      if IsImdbId(candidate) then Some(candidate) else None
    else if StartsWith(normalized, "tt") && IsDigits(normalized[2..]) then Some(normalized)
    else None
  }

  /** A canonical IMDb id is its own trimmed, lower-cased form. */
  lemma ImdbIdFixed(c: string)
    requires IsImdbId(c)
    ensures Trim(c) == c && Lower(c) == c
  {
    assert c[|c| - 1] == c[2..][|c| - 3];
    TrimNoop(c);
    forall i | 0 <= i < |c| ensures !('A' <= c[i] <= 'Z') {
      if i >= 2 {
        assert c[i] == c[2..][i - 2];
      }
    }
    LowerNoUpper(c);
  }

  /** Both the bare id and the `imdb:`-prefixed id are accepted. */
  lemma NormalizeImdbIdAccepts(c: string)
    requires IsImdbId(c)
    ensures NormalizeImdbId(Some(c)) == Some(c)
    ensures NormalizeImdbId(Some("imdb:" + c)) == Some(c)
  {
    NormalizeImdbIdBare(c);
    NormalizeImdbIdPrefixed(c);
  }

  lemma NormalizeImdbIdBare(c: string)
    requires IsImdbId(c)
    ensures NormalizeImdbId(Some(c)) == Some(c)
  {
    ImdbIdFixed(c);
  }

  lemma NormalizeImdbIdPrefixed(c: string)
    requires IsImdbId(c)
    ensures NormalizeImdbId(Some("imdb:" + c)) == Some(c)
  {
    ImdbIdFixed(c);
    var p := "imdb:" + c;
    assert p[|p| - 1] == c[|c| - 1];
    TrimNoop(p);
    LowerAppend("imdb:", c);
    assert Lower(Trim(p)) == p;
    assert p[5..] == c;
    assert !IsImdbId(p) by { assert p[1] == 'm'; }
  }

  /** Applying `normalizeImdbId` to its own output changes nothing. */
  lemma NormalizeImdbIdIdempotent(value: Option<string>)
    ensures NormalizeImdbId(value).Some? ==> NormalizeImdbId(NormalizeImdbId(value)) == NormalizeImdbId(value)
  {
    if NormalizeImdbId(value).Some? {
      NormalizeImdbIdBare(NormalizeImdbId(value).value);
    }
  }

  /** Case does not matter to `normalizeImdbId`. */
  lemma NormalizeImdbIdIgnoresCase(s: string)
    ensures NormalizeImdbId(Some(Lower(s))) == NormalizeImdbId(Some(s))
  {
    TrimLower(s);
    LowerIdempotent(Trim(s));
    assert |Lower(s)| == |s|;
    assert Lower(Trim(Lower(s))) == Lower(Trim(s));
  }

  /** Surrounding whitespace does not matter to `normalizeImdbId`. */
  lemma NormalizeImdbIdIgnoresSpace(s: string)
    ensures NormalizeImdbId(Some(Trim(s))) == NormalizeImdbId(Some(s))
  {
    TrimIdempotent(s);
  }

  /** At most one of the fields recognised by `parseExternalId` is set. */
  predicate AtMostOneId(ids: ExternalIds) {
    (ids.trakt.Some? ==> ids.tmdb.None? && ids.imdb.None?) && (ids.tmdb.Some? ==> ids.imdb.None?)
    && ids.tvdb.None? && ids.simkl.None? && ids.slug.None?
  }

  /** The id after a `tmdb:`/`trakt:` prefix: the first `:`-token, positive and all digits. */
  function PrefixedToken(lowered: string, prefixLength: nat): Option<PosInt>
    requires prefixLength <= |lowered|
  {
    ToPositiveInteger(Split(lowered[prefixLength..])[0])
  }

  /** `parseExternalId` on a trimmed, lower-cased, non-empty string. */
  function ParseLowered(lowered: string): (ids: ExternalIds)
    ensures ValidIds(ids) && AtMostOneId(ids)
  {
    if StartsWith(lowered, "tmdb:") then
      match PrefixedToken(lowered, 5)
      case Some(t) => NoIds.(tmdb := Some(t))
      case None => NoIds
    else if StartsWith(lowered, "trakt:") then
      match PrefixedToken(lowered, 6)
      case Some(t) => NoIds.(trakt := Some(t))
      case None => NoIds
    else
      match NormalizeImdbId(Some(lowered))
      case Some(imdb) => NoIds.(imdb := Some(imdb))
      case None =>
        if IsDigits(lowered) then
          match ToPositiveInteger(lowered)
          case Some(t) => NoIds.(tmdb := Some(t))
          case None => NoIds
        else NoIds
  }

  /** `parseExternalId`: recognises `tmdb:N`, `trakt:N`, IMDb ids and bare positive numbers. */
  function ParseExternalId(input: IdInput): (ids: ExternalIds)
    ensures ValidIds(ids) && AtMostOneId(ids)
    ensures input.NonFinite? || (input.Number? && input.n <= 0) ==> ids == NoIds
    ensures input.Number? && input.n > 0 ==> ids == NoIds.(tmdb := Some(input.n))
    ensures input.Text? && Trim(input.text) == "" ==> ids == NoIds
  {
    match input
    case NonFinite(_) => NoIds
    case Number(n) => if n > 0 then NoIds.(tmdb := Some(n)) else NoIds
    case Text(s) =>
      var value := Trim(s);
      if value == "" then NoIds else ParseLowered(Lower(value))
  }

  /** A string that is already trimmed and lower-case is parsed as it stands. */
  lemma ParseFixed(s: string)
    requires s != "" && Trim(s) == s && Lower(s) == s
    ensures ParseExternalId(Text(s)) == ParseLowered(s)
  {
  }

  /** Surrounding whitespace does not matter to `parseExternalId`. */
  lemma ParseIgnoresSpace(s: string)
    ensures ParseExternalId(Text(Trim(s))) == ParseExternalId(Text(s))
  {
    TrimIdempotent(s);
  }

  /** A canonical IMDb id parses to exactly that id. */
  lemma ParseImdb(c: string)
    requires IsImdbId(c)
    ensures ParseExternalId(Text(c)) == NoIds.(imdb := Some(c))
  {
    ImdbIdFixed(c);
    ParseFixed(c);
    ParseLoweredImdb(c);
  }

  lemma ParseLoweredImdb(c: string)
    requires IsImdbId(c)
    ensures ParseLowered(c) == NoIds.(imdb := Some(c))
  {
    NormalizeImdbIdBare(c);
    DiffersAt(c, "tmdb:", 1);
    DiffersAt(c, "trakt:", 1);
  }

  /** As written, a bare positive number string is attributed to tmdb. */
  lemma ParseBareDigits(n: PosInt)
    ensures ParseExternalId(Text(NatStr(n))) == NoIds.(tmdb := Some(n))
  {
    var s := NatStr(n);
    assert IsDigit(s[0]) && IsDigit(s[|s| - 1]);
    TrimNoop(s);
    LowerNoUpper(s);
    ParseFixed(s);
    DiffersAt(s, "tmdb:", 0);
    DiffersAt(s, "trakt:", 0);
    DiffersAt(s, "imdb:", 0);
    DiffersAt(s, "tt", 0);
    assert NormalizeImdbId(Some(s)).None?;
    ToPositiveIntegerNatStr(n);
  }

  /** The token after a prefix ends at the next `:`; anything after it is ignored. */
  lemma PrefixedTokenOf(p: string, n: PosInt, tail: string)
    ensures PrefixedToken(p + NatStr(n) + tail, |p|) == Some(n)
    requires tail == "" || tail[0] == ':'
  {
    var s := p + NatStr(n) + tail;
    assert s[|p|..] == NatStr(n) + tail;
    if tail == "" {
      assert NatStr(n) + tail == NatStr(n);
    } else {
      assert tail == ":" + tail[1..];
      assert NatStr(n) + tail == NatStr(n) + ":" + tail[1..];
      SplitAppend(NatStr(n), tail[1..]);
    }
    ToPositiveIntegerNatStr(n);
  }

  lemma LowerPrefixed(p: string, n: nat, tail: string)
    requires Lower(p) == p
    ensures Lower(p + NatStr(n) + tail) == p + NatStr(n) + Lower(tail)
  {
    LowerAppend(p + NatStr(n), tail);
    LowerAppend(p, NatStr(n));
    LowerNoUpper(NatStr(n));
  }

  /** `tmdb:N`, optionally followed by more `:`-tokens, parses to tmdb `N`. */
  lemma ParseTmdbPrefix(n: PosInt, tail: string)
    requires tail == "" || (tail[0] == ':' && !IsSpace(tail[|tail| - 1]))
    ensures ParseExternalId(Text("tmdb:" + NatStr(n) + tail)) == NoIds.(tmdb := Some(n))
  {
    var s := "tmdb:" + NatStr(n) + tail;
    var d := NatStr(n);
    assert s[|s| - 1] == if tail == "" then d[|d| - 1] else tail[|tail| - 1];
    TrimNoop(s);
    LowerPrefixed("tmdb:", n, tail);
    var l := "tmdb:" + d + Lower(tail);
    assert ParseExternalId(Text(s)) == ParseLowered(l);
    assert Lower(tail) == "" || Lower(tail)[0] == ':';
    ParseLoweredTmdb(n, Lower(tail));
  }

  lemma ParseLoweredTmdb(n: PosInt, tail: string)
    requires tail == "" || tail[0] == ':'
    ensures ParseLowered("tmdb:" + NatStr(n) + tail) == NoIds.(tmdb := Some(n))
  {
    var l := "tmdb:" + NatStr(n) + tail;
    PrefixedTokenOf("tmdb:", n, tail);
    assert StartsWith(l, "tmdb:");
  }

  /** `trakt:N`, optionally followed by more `:`-tokens, parses to trakt `N`. */
  lemma ParseTraktPrefix(n: PosInt, tail: string)
    requires tail == "" || (tail[0] == ':' && !IsSpace(tail[|tail| - 1]))
    ensures ParseExternalId(Text("trakt:" + NatStr(n) + tail)) == NoIds.(trakt := Some(n))
  {
    var s := "trakt:" + NatStr(n) + tail;
    var d := NatStr(n);
    assert s[|s| - 1] == if tail == "" then d[|d| - 1] else tail[|tail| - 1];
    TrimNoop(s);
    LowerPrefixed("trakt:", n, tail);
    var l := "trakt:" + d + Lower(tail);
    assert ParseExternalId(Text(s)) == ParseLowered(l);
    ParseLoweredTrakt(n, Lower(tail));
  }

  lemma ParseLoweredTrakt(n: PosInt, tail: string)
    requires tail == "" || tail[0] == ':'
    ensures ParseLowered("trakt:" + NatStr(n) + tail) == NoIds.(trakt := Some(n))
  {
    var l := "trakt:" + NatStr(n) + tail;
    PrefixedTokenOf("trakt:", n, tail);
    assert StartsWith(l, "trakt:");
    DiffersAt(l, "tmdb:", 1);
  }

  /** One pass of the merge loop: each field still missing is copied from `ids` when set there. */
  function MergeStep(m: ExternalIds, ids: ExternalIds): ExternalIds {
    m.(trakt := if !NumSet(m.trakt) && NumSet(ids.trakt) then ids.trakt else m.trakt,
       tmdb := if !NumSet(m.tmdb) && NumSet(ids.tmdb) then ids.tmdb else m.tmdb,
       tvdb := if !NumSet(m.tvdb) && NumSet(ids.tvdb) then ids.tvdb else m.tvdb,
       imdb := if !StrSet(m.imdb) && StrSet(ids.imdb) then ids.imdb else m.imdb,
       slug := if !StrSet(m.slug) && StrSet(ids.slug) then ids.slug else m.slug)
  }

  /** The result of `mergeExternalIds(...sources)`. */
  function Merge(sources: seq<ExternalIds>): (r: ExternalIds)
    ensures r.simkl.None?
    ensures (forall i :: 0 <= i < |sources| ==> ValidIds(sources[i])) ==> ValidIds(r)
  {
    if |sources| == 0 then NoIds
    else MergeStep(Merge(sources[..|sources| - 1]), sources[|sources| - 1])
  }

  /** `mergeExternalIds`: a loop over the sources that fills each field at most once. */
  method MergeExternalIds(sources: seq<ExternalIds>) returns (merged: ExternalIds)
    ensures merged == Merge(sources)
  {
    merged := NoIds;
    for i := 0 to |sources|
      invariant merged == Merge(sources[..i])
    {
      var ids := sources[i];
      if !NumSet(merged.trakt) && NumSet(ids.trakt) {
        merged := merged.(trakt := ids.trakt);
      }
      if !NumSet(merged.tmdb) && NumSet(ids.tmdb) {
        merged := merged.(tmdb := ids.tmdb);
      }
      if !NumSet(merged.tvdb) && NumSet(ids.tvdb) {
        merged := merged.(tvdb := ids.tvdb);
      }
      if !StrSet(merged.imdb) && StrSet(ids.imdb) {
        merged := merged.(imdb := ids.imdb);
      }
      if !StrSet(merged.slug) && StrSet(ids.slug) {
        merged := merged.(slug := ids.slug);
      }
      assert sources[..i + 1][..i] == sources[..i];
    }
    assert sources[..|sources|] == sources;
  }

  /** A field no source sets stays absent in the merge. */
  lemma {:induction false} MergeAbsent(sources: seq<ExternalIds>, f: Field)
    requires forall j :: 0 <= j < |sources| ==> !HasField(sources[j], f)
    ensures SameField(Merge(sources), NoIds, f)
  {
    if |sources| > 0 {
      MergeAbsent(sources[..|sources| - 1], f);
    }
  }

  /** The merge holds the value of the first source that sets a field; later ones never overwrite it. */
  lemma {:induction false} MergeFirstWins(sources: seq<ExternalIds>, f: Field, i: nat)
    requires i < |sources| && HasField(sources[i], f)
    requires forall j :: 0 <= j < i ==> !HasField(sources[j], f)
    ensures SameField(Merge(sources), sources[i], f)
  {
    var init := sources[..|sources| - 1];
    if i < |sources| - 1 {
      MergeFirstWins(init, f, i);
    } else {
      MergeAbsent(init, f);
    }
  }

  /** The merge of a single id set drops only `simkl`. */
  lemma MergeSingle(ids: ExternalIds)
    requires !NumSet(ids.trakt) ==> ids.trakt.None?
    requires !NumSet(ids.tmdb) ==> ids.tmdb.None?
    requires !NumSet(ids.tvdb) ==> ids.tvdb.None?
    requires !StrSet(ids.imdb) ==> ids.imdb.None?
    requires !StrSet(ids.slug) ==> ids.slug.None?
    ensures Merge([ids]) == ids.(simkl := None)
  {
    assert [ids][..0] == [];
  }

  /** `buildCanonicalId`: imdb, then `tmdb:N`, then `trakt:N`, then the trimmed fallback. */
  function BuildCanonicalId(ids: ExternalIds, fallback: Option<string>): (r: Option<string>)
    ensures r.Some? ==> r.value != ""
    ensures r.None? <==> !StrSet(ids.imdb) && !NumSet(ids.tmdb) && !NumSet(ids.trakt)
                         && (fallback.None? || Trim(fallback.value) == "")
    ensures StrSet(ids.imdb) ==> r == ids.imdb
    ensures r.Some? && !StrSet(ids.imdb) && !NumSet(ids.tmdb) && !NumSet(ids.trakt) ==> r == Some(Trim(fallback.value))
  {
    if StrSet(ids.imdb) then ids.imdb
    else if NumSet(ids.tmdb) then Some("tmdb:" + IntStr(ids.tmdb.value))
    else if NumSet(ids.trakt) then Some("trakt:" + IntStr(ids.trakt.value))
    else if fallback.None? || fallback.value == "" then None
    else
      var normalized := Trim(fallback.value);
      if normalized != "" then Some(normalized) else None
  }

  /** The fallback the normalisers hand to `buildCanonicalId`: the title, joined with a differing show title. */
  function FallbackId(title: string, showTitle: Option<string>): string {
    if showTitle.Some? && title != showTitle.value then title + ":" + showTitle.value else title
  }

  /** Wherever a show title is known, the item title is that title, so the fallback is the title. */
  lemma FallbackIsTitle(title: string, showTitle: Option<string>)
    requires showTitle.Some? ==> title == showTitle.value
    ensures FallbackId(title, showTitle) == title
  {
  }

  /** A canonical id with the episode appended: `<id>:<season>:<episode>`. */
  function EpisodeKey(base: string, info: EpisodeInfo): string {
    base + ":" + IntStr(info.season) + ":" + IntStr(info.episode)
  }

  /** Once an id is known the fallback plays no part. */
  lemma CanonicalIdIgnoresFallback(ids: ExternalIds, fallback: Option<string>)
    requires StrSet(ids.imdb) || NumSet(ids.tmdb) || NumSet(ids.trakt)
    ensures BuildCanonicalId(ids, fallback) == BuildCanonicalId(ids, None)
  {
  }

  /** The single id of highest precedence: imdb, then tmdb, then trakt. */
  function Preferred(ids: ExternalIds): ExternalIds {
    if StrSet(ids.imdb) then NoIds.(imdb := ids.imdb)
    else if NumSet(ids.tmdb) then NoIds.(tmdb := ids.tmdb)
    else if NumSet(ids.trakt) then NoIds.(trakt := ids.trakt)
    else NoIds
  }

  /** Parsing the canonical id gives back the id of highest precedence and nothing else. */
  lemma CanonicalIdRoundTrip(ids: ExternalIds)
    requires ValidIds(ids)
    requires BuildCanonicalId(ids, None).Some?
    ensures ParseExternalId(Text(BuildCanonicalId(ids, None).value)) == Preferred(ids)
  {
    if StrSet(ids.imdb) {
      ParseImdb(ids.imdb.value);
    } else if NumSet(ids.tmdb) {
      ParseTmdbPrefix(ids.tmdb.value, "");
      assert "tmdb:" + NatStr(ids.tmdb.value) + "" == "tmdb:" + NatStr(ids.tmdb.value);
    } else {
      ParseTraktPrefix(ids.trakt.value, "");
      assert "trakt:" + NatStr(ids.trakt.value) + "" == "trakt:" + NatStr(ids.trakt.value);
    }
  }
}
