/**
 * Stremio-style content ids: the `:<season>:<episode>` suffix, the loose IMDb
 * reading and the normalised id of any input (`src/stremio/id.ts`).
 */
module StremioId {
  import opened Wrappers
  import opened Strings
  import opened Media
  import opened ExternalId

  datatype EpisodeIdSuffix = EpisodeIdSuffix(baseId: string, season: Option<PosInt>, episode: Option<PosInt>)

  /**
   * The `:`-tokens end in a season and an episode: at least three tokens, the last two
   * positive integers, and a non-empty text in front of them.
   */
  predicate SuffixTokens(parts: seq<string>) {
    |parts| >= 3
    && ToPositiveInteger(parts[|parts| - 2]).Some? && ToPositiveInteger(parts[|parts| - 1]).Some?
    && Join(parts[..|parts| - 2]) != ""
  }

  /** The suffix such tokens spell: the joined front as the base, the last two as season and episode. */
  function SuffixOf(parts: seq<string>): EpisodeIdSuffix
    requires |parts| >= 3
  {
    EpisodeIdSuffix(Join(parts[..|parts| - 2]), ToPositiveInteger(parts[|parts| - 2]), ToPositiveInteger(parts[|parts| - 1]))
  }

  /**
   * `parseEpisodeIdSuffix`: only the last two `:`-tokens can form the suffix, and only
   * when both are positive integers and something is left in front of them.
   */
  function ParseEpisodeIdSuffix(id: string): (r: EpisodeIdSuffix)
    ensures r.season.Some? <==> r.episode.Some?
    ensures r.season.None? ==> r.baseId == (if Trim(id) == "" then id else Trim(id))
    ensures r.season.Some? ==> r.baseId != "" && StartsWith(Trim(id), r.baseId + ":")
    ensures |Split(Trim(id))| < 3 ==> r.season.None?
    ensures Trim(id) == "" ==> r == EpisodeIdSuffix(id, None, None)
    ensures Trim(id) != "" ==> (r.season.Some? <==> SuffixTokens(Split(Trim(id))))
    ensures r.season.Some? ==> SuffixOf(Split(Trim(id))) == r
  {
    var raw := Trim(id);
    if raw == "" then EpisodeIdSuffix(id, None, None) else SuffixOfText(raw)
  }

  /** The suffix of a non-blank trimmed id, read from its `:`-tokens. */
  function SuffixOfText(raw: string): (r: EpisodeIdSuffix)
    ensures r.season.Some? <==> r.episode.Some?
    ensures r.season.Some? <==> SuffixTokens(Split(raw))
    ensures r.season.None? ==> r.baseId == raw
    ensures r.season.Some? ==> SuffixOf(Split(raw)) == r && r.baseId != "" && StartsWith(raw, r.baseId + ":")
  {
    var parts := Split(raw);
    if SuffixTokens(parts) then SuffixBase(raw); SuffixOf(parts) else EpisodeIdSuffix(raw, None, None)
  }

  /** The text in front of the last two tokens is followed by `:` in the id. */
  lemma SuffixBase(raw: string)
    requires |Split(raw)| >= 3
    ensures StartsWith(raw, Join(Split(raw)[..|Split(raw)| - 2]) + ":")
  {
    var parts := Split(raw);
    var front := parts[..|parts| - 2];
    JoinSplit(raw);
    assert parts == front + parts[|parts| - 2..];
    JoinAppend(front, parts[|parts| - 2..]);
    assert raw == Join(front) + ":" + Join(parts[|parts| - 2..]);
    assert raw[..|Join(front) + ":"|] == Join(front) + ":";
  }

  /** A trimmed id whose second-to-last token is not a positive integer has no suffix. */
  lemma NoSuffixWithoutSeason(id: string)
    requires id != "" && Trim(id) == id
    requires |Split(id)| >= 3 ==> ToPositiveInteger(Split(id)[|Split(id)| - 2]).None?
    ensures ParseEpisodeIdSuffix(id) == EpisodeIdSuffix(id, None, None)
  {
  }

  /** `buildEpisodeId`: `<trimmed base>:<s>:<e>`, or nothing for a blank base or a non-positive number. */
  function BuildEpisodeId(baseId: string, season: int, episode: int): (r: Option<string>)
    ensures r.None? <==> Trim(baseId) == "" || season <= 0 || episode <= 0
  {
    var trimmed := Trim(baseId);
    if trimmed == "" then None
    else if season <= 0 || episode <= 0 then None
    else Some(trimmed + ":" + NatStr(season) + ":" + NatStr(episode))
  }

  /** Splitting a built episode id gives the base's pieces followed by the two numbers. */
  lemma SplitEpisodeId(t: string, s: PosInt, e: PosInt)
    ensures Split(t + ":" + NatStr(s) + ":" + NatStr(e)) == Split(t) + [NatStr(s), NatStr(e)]
  {
    var ss := NatStr(s);
    var es := NatStr(e);
    assert t + ":" + ss + ":" + es == t + ":" + (ss + ":" + es);
    SplitAppend(t, ss + ":" + es);
    SplitAppend(ss, es);
    DigitsNoColon(ss);
    DigitsNoColon(es);
  }

  /** Parsing a built episode id gives back the trimmed base, the season and the episode. */
  lemma EpisodeIdRoundTrip(b: string, s: PosInt, e: PosInt)
    requires Trim(b) != ""
    ensures ParseEpisodeIdSuffix(BuildEpisodeId(b, s, e).value) == EpisodeIdSuffix(Trim(b), Some(s), Some(e))
  {
    var t := Trim(b);
    var x := BuildEpisodeId(b, s, e).value;
    var es := NatStr(e);
    assert x == t + ":" + NatStr(s) + ":" + es;
    assert x[0] == t[0];
    assert x[|x| - 1] == es[|es| - 1];
    TrimNoop(x);
    SplitEpisodeId(t, s, e);
    var parts := Split(x);
    assert parts[..|parts| - 2] == Split(t);
    assert parts[|parts| - 2] == NatStr(s) && parts[|parts| - 1] == es;
    JoinSplit(t);
    ToPositiveIntegerNatStr(s);
    ToPositiveIntegerNatStr(e);
    assert Trim(x) == x && x != "" && |parts| >= 3;
  }

  /** The pattern `^tt\d+$` with the `i` flag. */
  predicate ImdbPatternAnyCase(s: string) {
    |s| >= 3 && (s[0] == 't' || s[0] == 'T') && (s[1] == 't' || s[1] == 'T') && IsDigits(s[2..])
  }

  lemma ImdbPatternLower(s: string)
    requires ImdbPatternAnyCase(s)
    ensures IsImdbId(Lower(s))
  {
    var l := Lower(s);
    forall i | 0 <= i < |l| - 2 ensures IsDigit(l[2..][i]) {
      assert l[2..][i] == LowerChar(s[2..][i]);
    }
  }

  /** The token the loose reading inspects: the first `:`-token, trimmed, after an optional `imdb:` in any case. */
  function LooseImdbToken(trimmed: string): string {
    var noPrefix := if StartsWith(Lower(trimmed), "imdb:") then trimmed[5..] else trimmed;
    Trim(Split(noPrefix)[0])
  }

  /**
   * `normalizeImdbIdLoose`: drops an optional `imdb:` prefix and reads the first
   * `:`-token as `tt<digits>` in any case, or as bare digits that gain a `tt`.
   */
  function NormalizeImdbIdLoose(value: Option<string>): (r: Option<string>)
    ensures r.Some? ==> IsImdbId(r.value)
    ensures r.Some? <==> value.Some? && Trim(value.value) != ""
                         && (ImdbPatternAnyCase(LooseImdbToken(Trim(value.value))) || IsDigits(LooseImdbToken(Trim(value.value))))
    ensures r.Some? && ImdbPatternAnyCase(LooseImdbToken(Trim(value.value))) ==> r.value == Lower(LooseImdbToken(Trim(value.value)))
    ensures r.Some? && !ImdbPatternAnyCase(LooseImdbToken(Trim(value.value))) ==> r.value == "tt" + LooseImdbToken(Trim(value.value))
  {
    if value.None? || value.value == "" then None
    else
      var trimmed := Trim(value.value);
      if trimmed == "" then None
      else
        var token := LooseImdbToken(trimmed);
        if token == "" then None
        else if ImdbPatternAnyCase(token) then
          ImdbPatternLower(token);
          Some(Lower(token))
        else if IsDigits(token) then
          assert ("tt" + token)[2..] == token;
          Some("tt" + token)
        else None
  }

  /** A digit string gains the `tt` prefix. */
  lemma LooseImdbDigits(d: string)
    requires IsDigits(d)
    ensures NormalizeImdbIdLoose(Some(d)) == Some("tt" + d)
  {
    assert IsDigit(d[0]) && IsDigit(d[|d| - 1]);
    TrimNoop(d);
    DigitsNoColon(d);
    assert Lower(d)[0] == d[0];
    DiffersAt(Lower(d), "imdb:", 0);
    assert !ImdbPatternAnyCase(d);
  }

  /** A canonical IMDb id is kept as it is. */
  lemma LooseImdbCanonical(c: string)
    requires IsImdbId(c)
    ensures NormalizeImdbIdLoose(Some(c)) == Some(c)
  {
    CanonicalLooseToken(c);
  }

  /** A canonical IMDb id is trimmed, has no `imdb:` prefix, is its own first token and matches the pattern. */
  lemma CanonicalLooseToken(c: string)
    requires IsImdbId(c)
    ensures c != "" && Trim(c) == c && Lower(c) == c
    ensures !StartsWith(Lower(c), "imdb:") && Trim(Split(c)[0]) == c && ImdbPatternAnyCase(c)
  {
    ImdbIdFixed(c);
    DigitsNoColon(c[2..]);
    assert c == c[..2] + c[2..];
    assert ':' !in c;
    assert Split(c) == [c];
    DiffersAt(c, "imdb:", 1);
  }

  /** The ids of a base id under the loose-IMDb option: the strict ids, merged with the loose IMDb id. */
  function CombinedIds(baseId: string, looseImdb: bool): ExternalIds {
    var strictIds := ParseExternalId(Text(baseId));
    var loose := if looseImdb && !StrSet(strictIds.imdb) then NormalizeImdbIdLoose(Some(baseId)) else None;
    Merge([strictIds, if StrSet(loose) then NoIds.(imdb := loose) else NoIds])
  }

  /** The loose path only adds an IMDb id, only when enabled, and only when strict parsing found none. */
  lemma CombinedIdsValue(baseId: string, looseImdb: bool)
    ensures var strictIds := ParseExternalId(Text(baseId));
            CombinedIds(baseId, looseImdb)
            == if looseImdb && strictIds.imdb.None? then strictIds.(imdb := NormalizeImdbIdLoose(Some(baseId)))
               else strictIds
  {
    var strictIds := ParseExternalId(Text(baseId));
    var loose := if looseImdb && !StrSet(strictIds.imdb) then NormalizeImdbIdLoose(Some(baseId)) else None;
    var second := if StrSet(loose) then NoIds.(imdb := loose) else NoIds;
    var sources := [strictIds, second];
    assert sources[..1] == [strictIds];
    assert [strictIds][..0] == [];
    assert Merge([strictIds]) == strictIds;
  }

  /** `normalizeStremioId`: the canonical id of the input, with the episode suffix kept. */
  function NormalizeStremioId(input: IdInput, looseImdb: bool): (r: Option<string>)
    ensures input.Text? ==> (r.None? <==> Trim(input.text) == "")
    ensures input.NonFinite? ==> r.None?
    ensures input.Number? ==> r == Some(if input.n > 0 then "tmdb:" + NatStr(input.n) else IntStr(input.n))
    ensures r.Some? ==> r.value != ""
  {
    match input
    case NonFinite(_) => None
    case Number(n) =>
      var ids := ParseExternalId(input);
      var base := BuildCanonicalId(ids, None);
      if base.Some? then base else Some(NumberStr(input))
    case Text(text) =>
      var trimmed := Trim(text);
      if trimmed == "" then None
      else
        var suffix := ParseEpisodeIdSuffix(trimmed);
        TrimIdempotent(text);
        var baseId := Trim(suffix.baseId);
        BaseIdNotBlank(trimmed);
        var canonicalBase := BuildCanonicalId(CombinedIds(baseId, looseImdb), Some(baseId));
        if canonicalBase.None? then None
        else if suffix.season.Some? && suffix.episode.Some? then
          Some(canonicalBase.value + ":" + NatStr(suffix.season.value) + ":" + NatStr(suffix.episode.value))
        else canonicalBase
  }

  /** The base id of a trimmed, non-blank id is not blank. */
  lemma BaseIdNotBlank(trimmed: string)
    requires trimmed != "" && Trim(trimmed) == trimmed
    ensures Trim(ParseEpisodeIdSuffix(trimmed).baseId) != ""
  {
    var b := ParseEpisodeIdSuffix(trimmed).baseId;
    assert b != "";
    assert b[0] == trimmed[0] by {
      if ParseEpisodeIdSuffix(trimmed).season.Some? {
        assert (b + ":")[..|b + ":"|][0] == trimmed[0];
      }
    }
    TrimEmptyIff(b);
  }

  /** The canonical base id of a base id under the loose-IMDb option. */
  function CanonicalBase(baseId: string, looseImdb: bool): Option<string> {
    BuildCanonicalId(CombinedIds(Trim(baseId), looseImdb), Some(Trim(baseId)))
  }

  /**
   * A non-blank text normalises to the canonical base id of its suffix-stripped base,
   * followed by the `:s:e` suffix when one was parsed.
   */
  lemma NormalizeStremioText(text: string, looseImdb: bool)
    requires Trim(text) != ""
    ensures var s := ParseEpisodeIdSuffix(Trim(text));
            CanonicalBase(s.baseId, looseImdb).Some?
            && NormalizeStremioId(Text(text), looseImdb)
               == if s.season.Some? && s.episode.Some?
                  then Some(CanonicalBase(s.baseId, looseImdb).value + ":" + NatStr(s.season.value) + ":" + NatStr(s.episode.value))
                  else CanonicalBase(s.baseId, looseImdb)
  {
    var s := ParseEpisodeIdSuffix(Trim(text));
    TrimIdempotent(text);
    BaseIdNotBlank(Trim(text));
    assert BuildCanonicalId(CombinedIds(Trim(s.baseId), looseImdb), Some(Trim(s.baseId))).Some?;
  }

  /** An episode id normalises to the canonical base id with the same `:s:e` suffix. */
  lemma NormalizeStremioEpisode(b: string, s: PosInt, e: PosInt, looseImdb: bool)
    requires Trim(b) != ""
    ensures CanonicalBase(b, looseImdb).Some?
    ensures NormalizeStremioId(Text(BuildEpisodeId(b, s, e).value), looseImdb)
            == Some(CanonicalBase(b, looseImdb).value + ":" + NatStr(s) + ":" + NatStr(e))
  {
    var x := BuildEpisodeId(b, s, e).value;
    EpisodeIdRoundTrip(b, s, e);
    EpisodeIdTrimmed(b, s, e);
    TrimIdempotent(b);
    assert Trim(x) == x;
    assert ParseEpisodeIdSuffix(x).baseId == Trim(b);
  }

  /** A built episode id has no surrounding space. */
  lemma EpisodeIdTrimmed(b: string, s: PosInt, e: PosInt)
    requires Trim(b) != ""
    ensures Trim(BuildEpisodeId(b, s, e).value) == BuildEpisodeId(b, s, e).value
  {
    var x := BuildEpisodeId(b, s, e).value;
    var t := Trim(b);
    var es := NatStr(e);
    assert x[0] == t[0];
    assert x[|x| - 1] == es[|es| - 1];
    TrimNoop(x);
  }
}
