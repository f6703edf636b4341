/**
 * `resolveSimklId` (`src/simkl/resolve.ts`): the decisions taken before the Simkl
 * `/search/id` request, the query it sends, and how the answer is read. The request
 * itself is the parameter `respond`, from the query sent to the response received.
 */
module SimklResolve {
  import opened Wrappers
  import opened Strings
  import opened Media
  import opened Json
  import opened ExternalId
  import opened ProviderRefs
  import opened MediaId
  import opened SimklNormalize
  import opened SimklResolvers
  import opened Seqs

  /** The result record; `simklId: null` is `None`. */
  datatype SimklIdResult = SimklIdResult(
    simklId: Option<int>,
    slug: Option<string>,
    imdbId: Option<string>,
    tmdbId: Option<int>,
    tvdbId: Option<int>)

  const NoSimklId := SimklIdResult(None, None, None, None, None)

  /** The thrown `SimklResolveError`s: no client id, or a failed request with its status. */
  datatype ResolveError = MissingClientId | SearchFailed(status: int)

  /** The search parameters: one id, and for tmdb the search type. */
  datatype SearchQuery = ByImdb(imdb: string) | ByTmdb(tmdb: int, searchType: string) | ByTvdb(tvdb: int)

  /** What the request returns: `res.ok`, `res.status` and the decoded body. */
  datatype SearchResponse = SearchResponse(ok: bool, status: int, body: Json)

  /** The truthy ids copied into the result, with `simkl` as the Simkl id. */
  function ResultFrom(ids: ExternalIds): SimklIdResult {
    SimklIdResult(ids.simkl,
                  if StrSet(ids.slug) then ids.slug else None,
                  if StrSet(ids.imdb) then ids.imdb else None,
                  if NumSet(ids.tmdb) then ids.tmdb else None,
                  if NumSet(ids.tvdb) then ids.tvdb else None)
  }

  // ---------------------------------------------------------------------------
  // the query

  /**
   * The query plan: imdb first, then tmdb with the search type, then tvdb; no query
   * without any of them.
   */
  function QueryPlan(ids: ExternalIds, expectedKind: Kind): (r: Option<SearchQuery>)
    ensures r.None? <==> !StrSet(ids.imdb) && !NumSet(ids.tmdb) && !NumSet(ids.tvdb)
    ensures r.Some? && r.value.ByImdb? ==> ids.imdb == Some(r.value.imdb)
    ensures r.Some? && r.value.ByTmdb? ==>
              !StrSet(ids.imdb) && ids.tmdb == Some(r.value.tmdb)
              && r.value.searchType == (if expectedKind == MovieKind then "movie" else "show")
    ensures r.Some? && r.value.ByTvdb? ==> !StrSet(ids.imdb) && !NumSet(ids.tmdb) && ids.tvdb == Some(r.value.tvdb)
  {
    if StrSet(ids.imdb) then Some(ByImdb(ids.imdb.value))
    else if NumSet(ids.tmdb) then Some(ByTmdb(ids.tmdb.value, if expectedKind == MovieKind then "movie" else "show"))
    else if NumSet(ids.tvdb) then Some(ByTvdb(ids.tvdb.value))
    else None
  }

  /** The parsed kind is set and is not the kind of the requested media type. */
  predicate KindMismatch(parsed: ParsedMediaId, t: MediaType) {
    parsed.kind.Some? && parsed.kind.value != MediaTypeToProviderKind(t)
  }

  /** An explicit provider Simkl cannot be searched by. */
  predicate ForeignProvider(parsed: ParsedMediaId) {
    parsed.provider.Some? && parsed.provider.value !in {Simkl, Imdb, Tmdb, Tvdb}
  }

  /** The request `resolveSimklId` sends for a parsed input; `None` when it sends none. */
  function RequestOf(parsed: ParsedMediaId, t: MediaType): (r: Option<SearchQuery>)
    ensures r.Some? ==> !KindMismatch(parsed, t) && !ForeignProvider(parsed) && !NumSet(parsed.ids.simkl)
    ensures r.Some? ==> r == QueryPlan(parsed.ids, MediaTypeToProviderKind(t))
  {
    if KindMismatch(parsed, t) || ForeignProvider(parsed) || NumSet(parsed.ids.simkl) then None
    else QueryPlan(parsed.ids, MediaTypeToProviderKind(t))
  }

  // ---------------------------------------------------------------------------
  // the candidates

  /** What one response item adds to `candidates`: its ids, when it is of the kind and has a Simkl id. */
  function SearchCandidate(item: Json, kind: Kind): (r: Option<ExternalIds>)
    ensures r.Some? <==> MatchesKind(kind, NormalizeItemType(Get(item, "type")))
                         && NumSet(ExtractIds(Get(item, "ids")).simkl)
    ensures r.Some? ==> r.value == ExtractIds(Get(item, "ids"))
  {
    var ids := ExtractIds(Get(item, "ids"));
    if MatchesKind(kind, NormalizeItemType(Get(item, "type"))) && NumSet(ids.simkl) then Some(ids) else None
  }

  function MovieSearchCandidate(item: Json): Option<ExternalIds> {
    SearchCandidate(item, MovieKind)
  }

  function ShowSearchCandidate(item: Json): Option<ExternalIds> {
    SearchCandidate(item, ShowKind)
  }

  /** The candidate reading for one expected kind, as a function value. */
  function SearchCandidateOf(kind: Kind): (f: Json -> Option<ExternalIds>)
    ensures forall item :: f(item) == SearchCandidate(item, kind)
  {
    if kind == MovieKind then MovieSearchCandidate else ShowSearchCandidate
  }

  /** `candidates` after the loop: the ids of the matching items with a Simkl id, in order. */
  function Candidates(data: seq<Json>, kind: Kind): (r: seq<ExternalIds>)
    ensures |r| <= |data|
    ensures forall k :: 0 <= k < |r| ==> ValidIds(r[k]) && NumSet(r[k].simkl)
    ensures |r| == 0 <==> forall j :: 0 <= j < |data| ==> SearchCandidate(data[j], kind).None?
  {
    var r := FilterMap(data, SearchCandidateOf(kind));
    assert forall k :: 0 <= k < |r| ==> ValidIds(r[k]) && NumSet(r[k].simkl) by {
      forall k | 0 <= k < |r| ensures ValidIds(r[k]) && NumSet(r[k].simkl) {
        var j :| 0 <= j < |data| && SearchCandidateOf(kind)(data[j]) == Some(r[k]);
      }
    }
    r
  }

  /** The first candidate comes from the first item that adds one. */
  lemma CandidatesHead(data: seq<Json>, kind: Kind, k: nat)
    requires k < |data| && SearchCandidate(data[k], kind).Some?
    requires forall j :: 0 <= j < k ==> SearchCandidate(data[j], kind).None?
    ensures |Candidates(data, kind)| > 0 && Candidates(data, kind)[0] == SearchCandidate(data[k], kind).value
  {
    FilterMapHead(data, SearchCandidateOf(kind));
    FirstSomeAt(SearchCandidateOf(kind), data, k);
  }

  /**
   * The loop that fills `candidates`: each item of `data` in turn, skipped unless it is of
   * the kind and has a Simkl id, and its ids appended otherwise.
   */
  method CollectCandidates(data: seq<Json>, kind: Kind) returns (candidates: seq<ExternalIds>)
    requires kind != EpisodeKind
    ensures candidates == Candidates(data, kind)
  {
    candidates := CollectSome(data, SearchCandidateOf(kind));
  }

  /** The answer read from the response to the query. */
  function ReadResponse(res: SearchResponse, kind: Kind): (r: Result<SimklIdResult, ResolveError>)
    ensures r.Err? <==> !res.ok
    ensures r.Err? ==> r.error == SearchFailed(res.status)
    ensures res.ok && !res.body.JArr? ==> r == Ok(NoSimklId)
    ensures r.Ok? && r.value.simklId.Some? ==>
              res.body.JArr? && |Candidates(res.body.items, kind)| > 0
              && r.value == ResultFrom(Candidates(res.body.items, kind)[0])
    ensures res.ok && res.body.JArr? && |Candidates(res.body.items, kind)| > 0 ==> r.Ok? && r.value.simklId.Some?
    ensures r.Ok? && r.value.simklId.Some? ==> r.value.simklId.value > 0
  {
    if !res.ok then Err(SearchFailed(res.status))
    else if !res.body.JArr? then Ok(NoSimklId)
    else
      var candidates := Candidates(res.body.items, kind);
      if |candidates| == 0 || !NumSet(candidates[0].simkl) then Ok(NoSimklId)
      else Ok(ResultFrom(candidates[0]))
  }

  /** The first item of the kind with a Simkl id decides the answer, with its other ids. */
  lemma FirstMatchingItemWins(res: SearchResponse, kind: Kind, k: nat)
    requires res.ok && res.body.JArr? && k < |res.body.items|
    requires SearchCandidate(res.body.items[k], kind).Some?
    requires forall j :: 0 <= j < k ==> SearchCandidate(res.body.items[j], kind).None?
    ensures ReadResponse(res, kind) == Ok(ResultFrom(ExtractIds(Get(res.body.items[k], "ids"))))
  {
    CandidatesHead(res.body.items, kind, k);
  }

  // ---------------------------------------------------------------------------
  // the decision

  /** `resolveSimklId` after the client id check, on the parsed input. */
  function Decide(parsed: ParsedMediaId, t: MediaType, respond: SearchQuery -> SearchResponse)
    : (r: Result<SimklIdResult, ResolveError>)
    requires ValidIds(parsed.ids)
    ensures KindMismatch(parsed, t) ==> r == Ok(NoSimklId)
    ensures !KindMismatch(parsed, t) && ForeignProvider(parsed) ==> r == Ok(NoSimklId)
    ensures !KindMismatch(parsed, t) && !ForeignProvider(parsed) && NumSet(parsed.ids.simkl) ==>
              r == Ok(ResultFrom(parsed.ids))
    ensures RequestOf(parsed, t).None? ==> r.Ok? && (r.value == NoSimklId || r.value == ResultFrom(parsed.ids))
    ensures RequestOf(parsed, t).Some? ==> r == ReadResponse(respond(RequestOf(parsed, t).value), MediaTypeToProviderKind(t))
    ensures r.Ok? && r.value.simklId.Some? ==> r.value.simklId.value > 0
  {
    var expectedKind := MediaTypeToProviderKind(t);
    if parsed.kind.Some? && parsed.kind.value != expectedKind then Ok(NoSimklId)
    else if parsed.provider.Some? && parsed.provider.value != Simkl && parsed.provider.value != Imdb
            && parsed.provider.value != Tmdb && parsed.provider.value != Tvdb then Ok(NoSimklId)
    else if NumSet(parsed.ids.simkl) then Ok(ResultFrom(parsed.ids))
    else
      var query := QueryPlan(parsed.ids, expectedKind);
      if query.None? then Ok(NoSimklId)
      else ReadResponse(respond(query.value), expectedKind)
  }

  /** Without a request the answer does not depend on what a request would return. */
  lemma NoRequestNoDependence(parsed: ParsedMediaId, t: MediaType, f: SearchQuery -> SearchResponse,
                              g: SearchQuery -> SearchResponse)
    requires ValidIds(parsed.ids)
    requires RequestOf(parsed, t).None? || f(RequestOf(parsed, t).value) == g(RequestOf(parsed, t).value)
    ensures Decide(parsed, t, f) == Decide(parsed, t, g)
  {
  }

  /** `parseMediaIdInput` never fills `ids.simkl`, so the known-Simkl branch is never taken. */
  lemma ParsedSimklNeverKnown(input: IdInput)
    ensures ParseMediaIdInput(input, false).ids.simkl.None?
  {
  }

  /**
   * `resolveSimklId(input, type, {clientId})`: a blank client id is an error; otherwise
   * the input is parsed strictly (bare numbers are not Simkl ids) and decided.
   */
  function ResolveSimklId(input: IdInput, t: MediaType, clientId: string, respond: SearchQuery -> SearchResponse)
    : (r: Result<SimklIdResult, ResolveError>)
    ensures Trim(clientId) == "" ==> r == Err(MissingClientId)
    ensures r.Ok? && r.value.simklId.Some? ==> r.value.simklId.value > 0
    ensures r.Err? && r.error.SearchFailed? ==> Trim(clientId) != ""
    ensures Trim(clientId) != "" ==> r == Decide(ParseMediaIdInput(input, false), t, respond)
  {
    if Trim(clientId) == "" then Err(MissingClientId)
    else Decide(ParseMediaIdInput(input, false), t, respond)
  }
}
