/**
 * The best-effort parse of a media id input into its base id, id set, canonical id,
 * episode and loose provider reading, and the map key derived from it
 * (`src/ids/mediaId.ts`).
 */
module MediaId {
  import opened Wrappers
  import opened Strings
  import opened Media
  import opened ExternalId
  import opened StremioId
  import opened ProviderRefs

  /** `ParsedMediaIdInput`: the optional fields are `None` when the source leaves them unset. */
  datatype ParsedMediaId = ParsedMediaId(
    raw: IdInput,
    baseId: string,
    ids: ExternalIds,
    canonicalId: Option<string>,
    season: Option<PosInt>,
    episode: Option<PosInt>,
    provider: Option<Provider>,
    kind: Option<Kind>)

  /** `parseMediaIdInput` with the `looseImdb` option. */
  function ParseMediaIdInput(input: IdInput, looseImdb: bool): (r: ParsedMediaId)
    ensures r.raw == input
    ensures ValidIds(r.ids)
    ensures r.season.Some? <==> r.episode.Some?
    ensures r.canonicalId.Some? ==> r.canonicalId.value != ""
    ensures r.canonicalId.None? <==> input.Text? && Trim(input.text) == ""
    ensures !input.Text? ==> r.season.None? && r.provider.None? && r.kind.None?
    ensures input.Text? ==> Trim(r.baseId) == r.baseId
  {
    match input
    case Number(_) | NonFinite(_) =>
      var ids := ParseExternalId(input);
      var baseId := NumberStr(input);
      ParsedMediaId(input, baseId, ids, NumericCanonicalId(ids, baseId), None, None, None, None)
    case Text(text) =>
      var trimmed := Trim(text);
      var parsedSuffix := ParseEpisodeIdSuffix(trimmed);
      var baseId := Trim(parsedSuffix.baseId);
      TrimIdempotent(parsedSuffix.baseId);
      var ids := CombinedIds(baseId, looseImdb);
      CombinedIdsValid(baseId, looseImdb);
      BlankBase(text);
      BlankCanonical(baseId, looseImdb);
      var looseProviderRef := ParseProviderRefLoose(baseId);
      var canonicalBaseId := BuildCanonicalId(ids, Some(baseId));
      var canonicalId :=
        if canonicalBaseId.None? then None
        else if parsedSuffix.season.Some? && parsedSuffix.episode.Some? then
          Some(canonicalBaseId.value + ":" + NatStr(parsedSuffix.season.value) + ":" + NatStr(parsedSuffix.episode.value))
        else canonicalBaseId;
      ParsedMediaId(input, baseId, ids, canonicalId, parsedSuffix.season, parsedSuffix.episode,
                    if looseProviderRef.Some? then Some(looseProviderRef.value.provider) else None,
                    if looseProviderRef.Some? then looseProviderRef.value.kind else None)
  }

  /** The canonical id of a numeric input: that of its ids with `tmdb:N` as fallback, else the base id. */
  function NumericCanonicalId(ids: ExternalIds, baseId: string): (r: Option<string>)
    requires baseId != ""
    ensures r.Some? && r.value != ""
  {
    var fallback := if NumSet(ids.tmdb) then Some("tmdb:" + IntStr(ids.tmdb.value)) else None;
    var canonical := BuildCanonicalId(ids, fallback);
    if canonical.Some? then canonical else Some(baseId)
  }

  /** A blank text input has an empty base id; any other has a non-blank one. */
  lemma BlankBase(text: string)
    ensures Trim(ParseEpisodeIdSuffix(Trim(text)).baseId) == "" <==> Trim(text) == ""
  {
    var trimmed := Trim(text);
    TrimIdempotent(text);
    if trimmed == "" {
      assert ParseEpisodeIdSuffix(trimmed).baseId == "";
    } else {
      BaseIdNotBlank(trimmed);
    }
  }

  /** The canonical base id is missing exactly for an empty base id. */
  lemma BlankCanonical(baseId: string, looseImdb: bool)
    requires Trim(baseId) == baseId
    ensures BuildCanonicalId(CombinedIds(baseId, looseImdb), Some(baseId)).None? <==> baseId == ""
  {
    if baseId == "" {
      CombinedIdsValue(baseId, looseImdb);
      assert NormalizeImdbIdLoose(Some(baseId)).None?;
      assert CombinedIds(baseId, looseImdb) == NoIds;
    }
  }

  /** The merged strict and loose ids are valid. */
  lemma CombinedIdsValid(baseId: string, looseImdb: bool)
    ensures ValidIds(CombinedIds(baseId, looseImdb))
  {
    CombinedIdsValue(baseId, looseImdb);
  }

  /** `normalizeIdForKeyWithOptions`: the canonical id when there is one, else the base id. */
  function NormalizeIdForKeyWithOptions(id: IdInput, looseImdb: bool): (key: string)
    ensures key == "" <==> id.Text? && Trim(id.text) == ""
  {
    var parsed := ParseMediaIdInput(id, looseImdb);
    if parsed.canonicalId.Some? && parsed.canonicalId.value != "" then parsed.canonicalId.value else parsed.baseId
  }

  /** `normalizeIdForKey`: the key under the default options. */
  function NormalizeIdForKey(id: IdInput): (key: string)
    ensures key == "" <==> id.Text? && Trim(id.text) == ""
  {
    NormalizeIdForKeyWithOptions(id, false)
  }

  /**
   * For every input but a non-finite number the canonical id is the normalised Stremio id:
   * the two parses agree on base id, ids and suffix.
   */
  lemma CanonicalIsStremioId(input: IdInput, looseImdb: bool)
    requires !input.NonFinite?
    ensures ParseMediaIdInput(input, looseImdb).canonicalId == NormalizeStremioId(input, looseImdb)
  {
  }

  /** A non-finite number keeps its `String()` form as base id and canonical id. */
  lemma NonFiniteInput(special: NonFiniteNumber, looseImdb: bool)
    ensures var r := ParseMediaIdInput(NonFinite(special), looseImdb);
            r.ids == NoIds && r.canonicalId == Some(r.baseId) && r.baseId in {"NaN", "Infinity", "-Infinity"}
  {
  }

  /** A number: positive ones are tmdb ids, others keep their decimal text. */
  lemma NumberInput(n: int, looseImdb: bool)
    ensures var r := ParseMediaIdInput(Number(n), looseImdb);
            r.baseId == IntStr(n)
            && r.ids == (if n > 0 then NoIds.(tmdb := Some(n)) else NoIds)
            && r.canonicalId == Some(if n > 0 then "tmdb:" + NatStr(n) else IntStr(n))
  {
  }

  /**
   * A non-blank text parses into the trimmed, suffix-stripped base id, the ids of that base,
   * the parsed season and episode, and the canonical base id followed by the `:s:e` suffix
   * when one was parsed.
   */
  lemma TextInput(text: string, looseImdb: bool)
    requires Trim(text) != ""
    ensures CanonicalBase(ParseEpisodeIdSuffix(Trim(text)).baseId, looseImdb).Some?
    ensures var s := ParseEpisodeIdSuffix(Trim(text));
            var r := ParseMediaIdInput(Text(text), looseImdb);
            r.baseId == Trim(s.baseId) && r.ids == CombinedIds(Trim(s.baseId), looseImdb)
            && r.season == s.season && r.episode == s.episode
    ensures var s := ParseEpisodeIdSuffix(Trim(text));
            var c := CanonicalBase(s.baseId, looseImdb);
            c.Some? && s.season.Some? && s.episode.Some? ==>
              ParseMediaIdInput(Text(text), looseImdb).canonicalId == Some(c.value + ":" + NatStr(s.season.value) + ":" + NatStr(s.episode.value))
    ensures var s := ParseEpisodeIdSuffix(Trim(text));
            !(s.season.Some? && s.episode.Some?) ==>
              ParseMediaIdInput(Text(text), looseImdb).canonicalId == CanonicalBase(s.baseId, looseImdb)
    ensures ParseMediaIdInput(Text(text), looseImdb).canonicalId == NormalizeStremioId(Text(text), looseImdb)
  {
    var s := ParseEpisodeIdSuffix(Trim(text));
    TrimIdempotent(text);
    BaseIdNotBlank(Trim(text));
    TrimIdempotent(s.baseId);
    BlankCanonical(Trim(s.baseId), looseImdb);
    CanonicalIsStremioId(Text(text), looseImdb);
  }

  /** A built episode id parses back into its trimmed base, its numbers and the canonical base with the suffix. */
  lemma EpisodeInput(b: string, s: PosInt, e: PosInt, looseImdb: bool)
    requires Trim(b) != ""
    ensures var r := ParseMediaIdInput(Text(BuildEpisodeId(b, s, e).value), looseImdb);
            r.baseId == Trim(b) && r.season == Some(s) && r.episode == Some(e)
            && r.ids == CombinedIds(Trim(b), looseImdb)
            && r.canonicalId == Some(CanonicalBase(b, looseImdb).value + ":" + NatStr(s) + ":" + NatStr(e))
  {
    var x := BuildEpisodeId(b, s, e).value;
    EpisodeIdRoundTrip(b, s, e);
    EpisodeIdTrimmed(b, s, e);
    TrimIdempotent(b);
    NormalizeStremioEpisode(b, s, e, looseImdb);
    CanonicalIsStremioId(Text(x), looseImdb);
  }

  /** The ids and canonical id of a text input do not depend on the loose provider reading. */
  lemma ProviderDoesNotInfluenceIds(text: string, looseImdb: bool)
    ensures var r := ParseMediaIdInput(Text(text), looseImdb);
            r.ids == CombinedIds(r.baseId, looseImdb)
            && r.canonicalId == NormalizeStremioId(Text(text), looseImdb)
  {
    CanonicalIsStremioId(Text(text), looseImdb);
  }

  /** A typed `provider:kind:id` base id sets the provider and kind from that ref. */
  lemma TypedRefProviderKind(input: string, looseImdb: bool)
    requires Trim(input) == input && ParseEpisodeIdSuffix(input).season.None?
    requires ParseProviderRefStrict(input).Some?
    ensures var r := ParseMediaIdInput(Text(input), looseImdb);
            var ref := ParseProviderRefStrict(input).value;
            r.provider == Some(ref.ProviderOf()) && r.kind == Some(ref.kind)
  {
    StrictImpliesLoose(input);
    TrimIdempotent(input);
  }

  /** Surrounding whitespace does not change the key. */
  lemma KeyIgnoresSpace(text: string, looseImdb: bool)
    ensures NormalizeIdForKeyWithOptions(Text(Trim(text)), looseImdb) == NormalizeIdForKeyWithOptions(Text(text), looseImdb)
  {
    TrimIdempotent(text);
  }
}
