/**
 * Formatting a media id for a Stremio addon's `idPrefixes`: the candidate forms of the
 * id in a fixed order, deduplicated, and the first that an addon prefix accepts
 * (`src/ids/idPrefixes.ts`).
 */
module IdPrefixes {
  import opened Wrappers
  import opened Strings
  import opened Media
  import opened ExternalId
  import opened StremioId
  import opened ProviderRefs
  import opened Canonical
  import opened MediaId

  /** `appendEpisodeSuffix`: `:s:e` only when both numbers are present. */
  function AppendEpisodeSuffix(id: string, season: Option<PosInt>, episode: Option<PosInt>): (r: string)
    ensures StartsWith(r, id)
    ensures r == id <==> !(season.Some? && episode.Some?)
  {
    if season.Some? && episode.Some? then id + ":" + NatStr(season.value) + ":" + NatStr(episode.value) else id
  }

  /** A suffixed trimmed id parses back into the id and the two numbers. */
  lemma AppendEpisodeSuffixRoundTrip(id: string, s: PosInt, e: PosInt)
    requires id != "" && Trim(id) == id
    ensures ParseEpisodeIdSuffix(AppendEpisodeSuffix(id, Some(s), Some(e))) == EpisodeIdSuffix(id, Some(s), Some(e))
  {
    EpisodeIdRoundTrip(id, s, e);
  }

  // ---------------------------------------------------------------------------
  // dedupe

  predicate NoDuplicates(xs: seq<string>) {
    forall i, j :: 0 <= i < j < |xs| ==> xs[i] != xs[j]
  }

  /** What `dedupe` returns: the non-empty values in order of first occurrence. */
  function Deduped(values: seq<string>): (r: seq<string>)
    ensures |r| <= |values|
  {
    if |values| == 0 then []
    else
      var d := Deduped(values[..|values| - 1]);
      var last := values[|values| - 1];
      if last == "" || last in d then d else d + [last]
  }

  /** The output holds every non-empty value exactly once, and nothing else. */
  lemma {:induction false} DedupedSpec(values: seq<string>)
    ensures NoDuplicates(Deduped(values))
    ensures forall x :: x in Deduped(values) <==> x in values && x != ""
  {
    if |values| > 0 {
      var init := values[..|values| - 1];
      DedupedSpec(init);
      assert values == init + [values[|values| - 1]];
    }
  }

  /** A non-empty first value stays first. */
  lemma {:induction false} DedupedHead(values: seq<string>)
    requires |values| > 0 && values[0] != ""
    ensures |Deduped(values)| > 0 && Deduped(values)[0] == values[0]
  {
    if |values| > 1 {
      var init := values[..|values| - 1];
      assert init[0] == values[0];
      DedupedHead(init);
    }
  }

  /** `dedupe`: one pass with a `seen` set. */
  method Dedupe(values: seq<string>) returns (out: seq<string>)
    ensures out == Deduped(values)
  {
    var seen: set<string> := {};
    out := [];
    for i := 0 to |values|
      invariant out == Deduped(values[..i])
      invariant seen == set x | x in out
    {
      var value := values[i];
      assert values[..i + 1][..i] == values[..i];
      if value == "" {
        continue;
      }
      if value in seen {
        continue;
      }
      seen := seen + {value};
      out := out + [value];
    }
    assert values[..|values|] == values;
  }

  // ---------------------------------------------------------------------------
  // prefix matching

  predicate MatchesAny(value: string, prefixes: seq<string>) {
    exists p :: p in prefixes && StartsWith(value, p)
  }

  /** `matchesAnyPrefix`: an early return at the first prefix the value starts with. */
  method MatchesAnyPrefix(value: string, idPrefixes: seq<string>) returns (b: bool)
    ensures b == MatchesAny(value, idPrefixes)
  {
    for i := 0 to |idPrefixes|
      invariant forall k :: 0 <= k < i ==> !StartsWith(value, idPrefixes[k])
    {
      if StartsWith(value, idPrefixes[i]) {
        return true;
      }
    }
    return false;
  }

  /** The first value that some prefix accepts. */
  function FirstMatching(xs: seq<string>, prefixes: seq<string>): (r: Option<string>)
    ensures r.None? <==> forall i :: 0 <= i < |xs| ==> !MatchesAny(xs[i], prefixes)
    ensures r.Some? ==> r.value in xs && MatchesAny(r.value, prefixes)
    ensures r.Some? ==> exists i :: 0 <= i < |xs| && xs[i] == r.value && forall k :: 0 <= k < i ==> !MatchesAny(xs[k], prefixes)
  {
    if |xs| == 0 then None
    else if MatchesAny(xs[0], prefixes) then Some(xs[0])
    else
      var rest := FirstMatching(xs[1..], prefixes);
      assert forall i :: 1 <= i < |xs| ==> xs[i] == xs[1..][i - 1];
      rest
  }

  lemma {:induction false} FirstMatchingAppend(xs: seq<string>, y: string, prefixes: seq<string>)
    ensures FirstMatching(xs + [y], prefixes)
            == if FirstMatching(xs, prefixes).Some? then FirstMatching(xs, prefixes)
               else if MatchesAny(y, prefixes) then Some(y) else None
  {
    if |xs| > 0 {
      FirstMatchingAppend(xs[1..], y, prefixes);
      assert (xs + [y])[1..] == xs[1..] + [y];
    }
  }

  /** Deduplicating non-empty candidates does not change which one is accepted first. */
  lemma {:induction false} DedupedFirstMatching(values: seq<string>, prefixes: seq<string>)
    requires forall i :: 0 <= i < |values| ==> values[i] != ""
    ensures FirstMatching(Deduped(values), prefixes) == FirstMatching(values, prefixes)
  {
    if |values| > 0 {
      var init := values[..|values| - 1];
      var last := values[|values| - 1];
      var d := Deduped(init);
      assert values == init + [last];
      DedupedFirstMatching(init, prefixes);
      FirstMatchingAppend(init, last, prefixes);
      if last in d {
        DedupedSpec(init);
      } else {
        FirstMatchingAppend(d, last, prefixes);
      }
    }
  }

  // ---------------------------------------------------------------------------
  // inferNumericProvider

  /** The provider a single prefix names, by its lower-cased start. */
  function NumericProviderOf(prefix: string): (r: Option<Provider>)
    ensures r.Some? ==> r.value != Imdb && StartsWith(Lower(prefix), ProviderName(r.value))
  {
    var lower := Lower(prefix);
    if StartsWith(lower, "tmdb") then Some(Tmdb)
    else if StartsWith(lower, "trakt") then Some(Trakt)
    else if StartsWith(lower, "tvdb") then Some(Tvdb)
    else if StartsWith(lower, "simkl") then Some(Simkl)
    else None
  }

  /** The providers the prefixes name. */
  function ProvidersOf(prefixes: seq<string>): (r: set<Provider>)
    ensures Imdb !in r
  {
    if |prefixes| == 0 then {}
    else
      var p := NumericProviderOf(prefixes[|prefixes| - 1]);
      ProvidersOf(prefixes[..|prefixes| - 1]) + (if p.Some? then {p.value} else {})
  }

  /** A provider is named exactly when some prefix names it. */
  lemma {:induction false} ProvidersOfSpec(prefixes: seq<string>, p: Provider)
    ensures p in ProvidersOf(prefixes) <==> exists i :: 0 <= i < |prefixes| && NumericProviderOf(prefixes[i]) == Some(p)
  {
    if |prefixes| > 0 {
      var init := prefixes[..|prefixes| - 1];
      ProvidersOfSpec(init, p);
      assert forall i :: 0 <= i < |init| ==> init[i] == prefixes[i];
    }
  }

  /** A one-element set has one of the five singleton forms. */
  lemma SingletonProviders(s: set<Provider>)
    requires |s| == 1
    ensures s == {Tmdb} || s == {Trakt} || s == {Tvdb} || s == {Simkl} || s == {Imdb}
  {
    var x :| x in s;
    assert |s - {x}| == 0;
    assert s == {x};
    match x
    case Tmdb =>
    case Trakt =>
    case Tvdb =>
    case Simkl =>
    case Imdb =>
  }

  /** The only element of a one-element set. */
  function SingleProvider(s: set<Provider>): (r: Option<Provider>)
    ensures r.Some? ==> s == {r.value}
    ensures r.None? ==> |s| != 1
  {
    if |s| == 1 then SingletonProviders(s); Some(TheProvider(s)) else None
  }

  function TheProvider(s: set<Provider>): (r: Provider)
    requires s == {Tmdb} || s == {Trakt} || s == {Tvdb} || s == {Simkl} || s == {Imdb}
    ensures s == {r}
  {
    if s == {Tmdb} then Tmdb
    else if s == {Trakt} then Trakt
    else if s == {Tvdb} then Tvdb
    else if s == {Simkl} then Simkl
    else Imdb
  }

  /** What `inferNumericProvider` returns: the provider when the prefixes name exactly one. */
  function InferredProvider(idPrefixes: Option<seq<string>>): (r: Option<Provider>)
    ensures r.Some? ==> idPrefixes.Some? && ProvidersOf(idPrefixes.value) == {r.value} && r.value != Imdb
    ensures r.None? ==> idPrefixes.None? || |ProvidersOf(idPrefixes.value)| != 1
  {
    if idPrefixes.None? || |idPrefixes.value| == 0 then None
    else SingleProvider(ProvidersOf(idPrefixes.value))
  }

  /** `inferNumericProvider`: collects the named providers in a set, one prefix at a time. */
  method InferNumericProvider(idPrefixes: Option<seq<string>>) returns (r: Option<Provider>)
    ensures r == InferredProvider(idPrefixes)
  {
    if idPrefixes.None? || |idPrefixes.value| == 0 {
      return None;
    }
    var prefixes := idPrefixes.value;
    var providers: set<Provider> := {};
    for i := 0 to |prefixes|
      invariant providers == ProvidersOf(prefixes[..i])
    {
      assert prefixes[..i + 1][..i] == prefixes[..i];
      var lower := Lower(prefixes[i]);
      if StartsWith(lower, "tmdb") {
        providers := providers + {Tmdb};
      } else if StartsWith(lower, "trakt") {
        providers := providers + {Trakt};
      } else if StartsWith(lower, "tvdb") {
        providers := providers + {Tvdb};
      } else if StartsWith(lower, "simkl") {
        providers := providers + {Simkl};
      }
    }
    assert prefixes[..|prefixes|] == prefixes;
    r := SingleProvider(providers);
  }

  // ---------------------------------------------------------------------------
  // formatIdForIdPrefixes

  /** The bare, `provider:` and typed forms of one numeric id. */
  function NumberCandidates(p: Provider, kind: Kind, n: Option<int>, season: Option<PosInt>, episode: Option<PosInt>): seq<string> {
    if n.None? then []
    else
      [AppendEpisodeSuffix(ProviderName(p) + ":" + IntStr(n.value), season, episode),
       AppendEpisodeSuffix(FormatFromIds(p, kind, IntStr(n.value)), season, episode)]
  }

  /** The bare, `imdb:` and typed forms of the IMDb id. */
  function ImdbCandidates(imdb: Option<string>, kind: Kind, season: Option<PosInt>, episode: Option<PosInt>): seq<string> {
    if !StrSet(imdb) then []
    else
      [AppendEpisodeSuffix(imdb.value, season, episode),
       AppendEpisodeSuffix("imdb:" + imdb.value, season, episode),
       AppendEpisodeSuffix(FormatFromIds(Imdb, kind, imdb.value), season, episode)]
  }

  /**
   * The candidates in their fixed order: the IMDb forms, then tmdb, trakt, tvdb and simkl,
   * each short then typed, and last the base id itself.
   */
  function Candidates(ids: ExternalIds, kind: Kind, baseId: string, season: Option<PosInt>, episode: Option<PosInt>): (r: seq<string>)
    ensures |r| >= 1 && r[|r| - 1] == AppendEpisodeSuffix(baseId, season, episode)
  {
    ImdbCandidates(ids.imdb, kind, season, episode)
    + NumberCandidates(Tmdb, kind, ids.tmdb, season, episode)
    + NumberCandidates(Trakt, kind, ids.trakt, season, episode)
    + NumberCandidates(Tvdb, kind, ids.tvdb, season, episode)
    + NumberCandidates(Simkl, kind, ids.simkl, season, episode)
    + [AppendEpisodeSuffix(baseId, season, episode)]
  }

  /** The IMDb forms come first, else the tmdb ones. */
  lemma CandidatesHead(ids: ExternalIds, kind: Kind, baseId: string, season: Option<PosInt>, episode: Option<PosInt>)
    ensures var c := Candidates(ids, kind, baseId, season, episode);
            (StrSet(ids.imdb) ==> c[..3] == ImdbCandidates(ids.imdb, kind, season, episode))
            && (!StrSet(ids.imdb) && ids.tmdb.Some? ==> c[..2] == NumberCandidates(Tmdb, kind, ids.tmdb, season, episode))
  {
  }

  /** Every candidate of a non-empty base id is non-empty. */
  lemma CandidatesNotEmpty(ids: ExternalIds, kind: Kind, baseId: string, season: Option<PosInt>, episode: Option<PosInt>)
    requires baseId != ""
    ensures var c := Candidates(ids, kind, baseId, season, episode);
            forall i :: 0 <= i < |c| ==> c[i] != ""
  {
    var a := ImdbCandidates(ids.imdb, kind, season, episode);
    var b := NumberCandidates(Tmdb, kind, ids.tmdb, season, episode);
    var c := NumberCandidates(Trakt, kind, ids.trakt, season, episode);
    var d := NumberCandidates(Tvdb, kind, ids.tvdb, season, episode);
    var e := NumberCandidates(Simkl, kind, ids.simkl, season, episode);
    var f := [AppendEpisodeSuffix(baseId, season, episode)];
    assert forall i :: 0 <= i < |a| ==> a[i] != "";
    NumberCandidatesNotEmpty(Tmdb, kind, ids.tmdb, season, episode);
    NumberCandidatesNotEmpty(Trakt, kind, ids.trakt, season, episode);
    NumberCandidatesNotEmpty(Tvdb, kind, ids.tvdb, season, episode);
    NumberCandidatesNotEmpty(Simkl, kind, ids.simkl, season, episode);
    AllNotEmpty(a, b, c, d, e, f);
  }

  lemma NumberCandidatesNotEmpty(p: Provider, kind: Kind, n: Option<int>, season: Option<PosInt>, episode: Option<PosInt>)
    ensures var c := NumberCandidates(p, kind, n, season, episode);
            forall i :: 0 <= i < |c| ==> c[i] != ""
  {
  }

  lemma AllNotEmpty(a: seq<string>, b: seq<string>, c: seq<string>, d: seq<string>, e: seq<string>, f: seq<string>)
    requires forall i :: 0 <= i < |a| ==> a[i] != ""
    requires forall i :: 0 <= i < |b| ==> b[i] != ""
    requires forall i :: 0 <= i < |c| ==> c[i] != ""
    requires forall i :: 0 <= i < |d| ==> d[i] != ""
    requires forall i :: 0 <= i < |e| ==> e[i] != ""
    requires forall i :: 0 <= i < |f| ==> f[i] != ""
    ensures var all := a + b + c + d + e + f;
            forall i :: 0 <= i < |all| ==> all[i] != ""
  {
    var all := a + b + c + d + e + f;
    forall i | 0 <= i < |all|
      ensures all[i] != ""
    {
      if i < |a| { assert all[i] == a[i]; }
      else if i < |a + b| { assert all[i] == b[i - |a|]; }
      else if i < |a + b + c| { assert all[i] == c[i - |a + b|]; }
      else if i < |a + b + c + d| { assert all[i] == d[i - |a + b + c|]; }
      else if i < |a + b + c + d + e| { assert all[i] == e[i - |a + b + c + d|]; }
      else { assert all[i] == f[i - |a + b + c + d + e|]; }
    }
  }

  /** The text `formatIdForIdPrefixes` works on: the trimmed string or `String(n)`. */
  function RawText(input: IdInput): string {
    if input.Text? then Trim(input.text) else NumberStr(input)
  }

  /** What `formatIdForIdPrefixes` returns. */
  function IdForPrefixes(input: IdInput, mediaType: MediaType, idPrefixes: Option<seq<string>>): (r: Option<string>)
    ensures RawText(input) == "" ==> r.None?
  {
    var raw := RawText(input);
    if raw == "" then None
    else
      var suffix := ParseEpisodeIdSuffix(raw);
      var baseId := Trim(suffix.baseId);
      if IsDigits(baseId) then NumericPathId(baseId, suffix.season, suffix.episode, idPrefixes)
      else CandidatePathId(PathCandidates(raw, mediaType), idPrefixes)
  }

  /** The candidates pushed for a raw text: from the ids it parses to and its trimmed base id. */
  function PathCandidates(raw: string, mediaType: MediaType): seq<string> {
    var suffix := ParseEpisodeIdSuffix(raw);
    Candidates(ParseMediaIdInput(Text(raw), false).ids, MediaTypeToProviderKind(mediaType),
               Trim(suffix.baseId), suffix.season, suffix.episode)
  }

  /** A bare numeric base id under the provider the prefixes name, if they name exactly one. */
  function NumericPathId(baseId: string, season: Option<PosInt>, episode: Option<PosInt>, idPrefixes: Option<seq<string>>): Option<string> {
    var provider := InferredProvider(idPrefixes);
    if provider.None? then None
    else Some(AppendEpisodeSuffix(ProviderName(provider.value) + ":" + baseId, season, episode))
  }

  /** The first deduplicated candidate a prefix accepts, or the first at all without prefixes. */
  function CandidatePathId(candidates: seq<string>, idPrefixes: Option<seq<string>>): Option<string> {
    var unique := Deduped(candidates);
    if idPrefixes.Some? && |idPrefixes.value| > 0 then FirstMatching(unique, idPrefixes.value)
    else if |unique| > 0 then Some(unique[0])
    else None
  }

  /**
   * `formatIdForIdPrefixes`: pushes the candidates one by one, deduplicates them and scans
   * them for the first one an addon prefix accepts.
   */
  method FormatIdForIdPrefixes(input: IdInput, mediaType: MediaType, idPrefixes: Option<seq<string>>)
    returns (r: Option<string>)
    ensures r == IdForPrefixes(input, mediaType, idPrefixes)
  {
    var raw := if input.Text? then Trim(input.text) else NumberStr(input);
    if raw == "" {
      return None;
    }
    var suffix := ParseEpisodeIdSuffix(raw);
    var baseId := Trim(suffix.baseId);
    var season, episode := suffix.season, suffix.episode;

    if IsDigits(baseId) {
      var provider := InferNumericProvider(idPrefixes);
      if provider.None? {
        return None;
      }
      return Some(AppendEpisodeSuffix(ProviderName(provider.value) + ":" + baseId, season, episode));
    }

    var parsed := ParseMediaIdInput(Text(raw), false);
    var ids := parsed.ids;
    var kind := MediaTypeToProviderKind(mediaType);

    var candidates := PushCandidates(ids, kind, baseId, season, episode);
    var unique := Dedupe(candidates);

    if idPrefixes.Some? && |idPrefixes.value| > 0 {
      r := FirstWithPrefix(unique, idPrefixes.value);
      return;
    }

    if |unique| > 0 {
      return Some(unique[0]);
    }
    return None;
  }

  /** The candidate pushes of `formatIdForIdPrefixes`, in their order. */
  method PushCandidates(ids: ExternalIds, kind: Kind, baseId: string, season: Option<PosInt>, episode: Option<PosInt>)
    returns (candidates: seq<string>)
    ensures candidates == Candidates(ids, kind, baseId, season, episode)
  {
    candidates := [];
    if StrSet(ids.imdb) {
      candidates := candidates + [AppendEpisodeSuffix(ids.imdb.value, season, episode)];
      candidates := candidates + [AppendEpisodeSuffix("imdb:" + ids.imdb.value, season, episode)];
      candidates := candidates + [AppendEpisodeSuffix(FormatFromIds(Imdb, kind, ids.imdb.value), season, episode)];
    }
    assert candidates == ImdbCandidates(ids.imdb, kind, season, episode);
    candidates := PushNumber(candidates, Tmdb, kind, ids.tmdb, season, episode);
    candidates := PushNumber(candidates, Trakt, kind, ids.trakt, season, episode);
    candidates := PushNumber(candidates, Tvdb, kind, ids.tvdb, season, episode);
    candidates := PushNumber(candidates, Simkl, kind, ids.simkl, season, episode);
    candidates := candidates + [AppendEpisodeSuffix(baseId, season, episode)];
  }

  /** The two pushes for one numeric id, when it is present. */
  method PushNumber(candidates: seq<string>, p: Provider, kind: Kind, n: Option<int>, season: Option<PosInt>, episode: Option<PosInt>)
    returns (out: seq<string>)
    ensures out == candidates + NumberCandidates(p, kind, n, season, episode)
  {
    out := candidates;
    if n.Some? {
      out := out + [AppendEpisodeSuffix(ProviderName(p) + ":" + IntStr(n.value), season, episode)];
      out := out + [AppendEpisodeSuffix(FormatFromIds(p, kind, IntStr(n.value)), season, episode)];
    }
  }

  /** The scan of the deduplicated candidates, returning at the first accepted one. */
  method FirstWithPrefix(unique: seq<string>, idPrefixes: seq<string>) returns (r: Option<string>)
    ensures r == FirstMatching(unique, idPrefixes)
  {
    for i := 0 to |unique|
      invariant FirstMatching(unique[i..], idPrefixes) == FirstMatching(unique, idPrefixes)
    {
      assert unique[i..][1..] == unique[i + 1..];
      var matches := MatchesAnyPrefix(unique[i], idPrefixes);
      if matches {
        return Some(unique[i]);
      }
    }
    return None;
  }

  /** A bare numeric base id is formatted only under the one provider the prefixes name. */
  lemma BareDigitsBase(input: IdInput, mediaType: MediaType, idPrefixes: Option<seq<string>>)
    requires RawText(input) != ""
    requires IsDigits(Trim(ParseEpisodeIdSuffix(RawText(input)).baseId))
    ensures var suffix := ParseEpisodeIdSuffix(RawText(input));
            var r := IdForPrefixes(input, mediaType, idPrefixes);
            (r.Some? <==> idPrefixes.Some? && |ProvidersOf(idPrefixes.value)| == 1)
            && (r.Some? ==> forall p :: p in ProvidersOf(idPrefixes.value) ==>
                  r.value == AppendEpisodeSuffix(ProviderName(p) + ":" + Trim(suffix.baseId), suffix.season, suffix.episode))
  {
    var suffix := ParseEpisodeIdSuffix(RawText(input));
    var baseId := Trim(suffix.baseId);
    assert IdForPrefixes(input, mediaType, idPrefixes) == NumericPathId(baseId, suffix.season, suffix.episode, idPrefixes);
    NumericPathSpec(baseId, suffix.season, suffix.episode, idPrefixes);
  }

  /** The numeric path gives a result exactly when the prefixes name one provider, and it is under that one. */
  lemma NumericPathSpec(baseId: string, season: Option<PosInt>, episode: Option<PosInt>, idPrefixes: Option<seq<string>>)
    ensures var r := NumericPathId(baseId, season, episode, idPrefixes);
            (r.Some? <==> idPrefixes.Some? && |ProvidersOf(idPrefixes.value)| == 1)
            && (r.Some? ==> forall p :: p in ProvidersOf(idPrefixes.value) ==>
                  r.value == AppendEpisodeSuffix(ProviderName(p) + ":" + baseId, season, episode))
  {
    var provider := InferredProvider(idPrefixes);
    if idPrefixes.Some? && |ProvidersOf(idPrefixes.value)| == 1 {
      assert provider.Some?;
      assert ProvidersOf(idPrefixes.value) == {provider.value};
    }
  }

  /** With prefixes given, a result outside the numeric path is accepted by one of them, and none of the candidates means no result. */
  lemma PrefixedResult(input: IdInput, mediaType: MediaType, prefixes: seq<string>)
    requires |prefixes| > 0
    requires RawText(input) != ""
    requires !IsDigits(Trim(ParseEpisodeIdSuffix(RawText(input)).baseId))
    ensures IdForPrefixes(input, mediaType, Some(prefixes)) == FirstMatching(PathCandidates(RawText(input), mediaType), prefixes)
  {
    var candidates := PathCandidates(RawText(input), mediaType);
    CandidatePathTaken(input, mediaType, Some(prefixes));
    CandidatePathPrefixed(candidates, prefixes);
  }

  /** Outside the numeric path the result is read from the pushed candidates, which are none of them empty. */
  lemma CandidatePathTaken(input: IdInput, mediaType: MediaType, idPrefixes: Option<seq<string>>)
    requires RawText(input) != ""
    requires !IsDigits(Trim(ParseEpisodeIdSuffix(RawText(input)).baseId))
    ensures IdForPrefixes(input, mediaType, idPrefixes) == CandidatePathId(PathCandidates(RawText(input), mediaType), idPrefixes)
    ensures var c := PathCandidates(RawText(input), mediaType);
            |c| > 0 && forall i :: 0 <= i < |c| ==> c[i] != ""
  {
    var raw := RawText(input);
    var suffix := ParseEpisodeIdSuffix(raw);
    RawBaseNotBlank(input);
    CandidatesNotEmpty(ParseMediaIdInput(Text(raw), false).ids, MediaTypeToProviderKind(mediaType),
                       Trim(suffix.baseId), suffix.season, suffix.episode);
  }

  lemma CandidatePathPrefixed(candidates: seq<string>, prefixes: seq<string>)
    requires |prefixes| > 0
    requires forall i :: 0 <= i < |candidates| ==> candidates[i] != ""
    ensures CandidatePathId(candidates, Some(prefixes)) == FirstMatching(candidates, prefixes)
  {
    DedupedFirstMatching(candidates, prefixes);
  }

  /** Without prefixes the first candidate is the result. */
  lemma UnprefixedResult(input: IdInput, mediaType: MediaType, idPrefixes: Option<seq<string>>)
    requires idPrefixes.None? || |idPrefixes.value| == 0
    requires RawText(input) != ""
    requires !IsDigits(Trim(ParseEpisodeIdSuffix(RawText(input)).baseId))
    ensures IdForPrefixes(input, mediaType, idPrefixes) == Some(PathCandidates(RawText(input), mediaType)[0])
  {
    var candidates := PathCandidates(RawText(input), mediaType);
    CandidatePathTaken(input, mediaType, idPrefixes);
    assert candidates[0] != "";
    CandidatePathUnprefixed(candidates, idPrefixes);
  }

  lemma CandidatePathUnprefixed(candidates: seq<string>, idPrefixes: Option<seq<string>>)
    requires idPrefixes.None? || |idPrefixes.value| == 0
    requires |candidates| > 0 && candidates[0] != ""
    ensures CandidatePathId(candidates, idPrefixes) == Some(candidates[0])
  {
    DedupedHead(candidates);
  }

  /** The base id of a non-blank raw text is not blank. */
  lemma RawBaseNotBlank(input: IdInput)
    requires RawText(input) != ""
    ensures Trim(ParseEpisodeIdSuffix(RawText(input)).baseId) != ""
  {
    var raw := RawText(input);
    if input.Text? {
      TrimIdempotent(input.text);
    } else {
      NumberStrTrimmed(input);
    }
    BaseIdNotBlank(raw);
  }

  /** `String(n)` has no surrounding space. */
  lemma NumberStrTrimmed(input: IdInput)
    requires !input.Text?
    ensures Trim(NumberStr(input)) == NumberStr(input)
  {
    var s := NumberStr(input);
    if input.Number? {
      var d := NatStr(if input.n < 0 then -input.n else input.n);
      assert IsDigit(d[0]) && IsDigit(d[|d| - 1]);
      assert s[|s| - 1] == d[|d| - 1];
    }
    TrimNoop(s);
  }

  /** The numeric path may return an id that starts with none of the prefixes. */
  lemma NumericPathIgnoresPrefixShape()
    ensures IdForPrefixes(Text("550"), Movie, Some(["TMDB:"])) == Some("tmdb:550")
    ensures !MatchesAny("tmdb:550", ["TMDB:"])
  {
    BareNumberText("550");
    UpperTmdbPrefix();
    assert ProviderName(Tmdb) + ":" + "550" == "tmdb:550";
    assert !StartsWith("tmdb:550", "TMDB:") by { DiffersAt("tmdb:550", "TMDB:", 0); }
  }

  lemma BareNumberText(d: string)
    requires IsDigits(d)
    ensures RawText(Text(d)) == d && ParseEpisodeIdSuffix(d) == EpisodeIdSuffix(d, None, None) && Trim(d) == d
  {
    DigitsNoColon(d);
    assert IsDigit(d[0]) && IsDigit(d[|d| - 1]);
    TrimNoop(d);
    NoSuffixWithoutSeason(d);
  }

  lemma UpperTmdbPrefix()
    ensures InferredProvider(Some(["TMDB:"])) == Some(Tmdb)
  {
    var ps := ["TMDB:"];
    assert Lower("TMDB:") == "tmdb:";
    assert StartsWith("tmdb:", "tmdb");
    assert NumericProviderOf(ps[0]) == Some(Tmdb);
    assert ps[..0] == [];
    assert ProvidersOf(ps) == {Tmdb};
  }
}
