/**
 * The Simkl `/search/id` resolvers of the router (`src/simkl/resolvers.ts`): how a
 * search result item is typed and read, which item is picked as the candidate, and
 * how each resolver maps its input ref to the target ref. The fetched list arrives as
 * an input value.
 */
module SimklResolvers {
  import opened Wrappers
  import opened Strings
  import opened Media
  import opened Json
  import opened ExternalId
  import opened ProviderRefs
  import opened SimklNormalize
  import opened Seqs

  // ---------------------------------------------------------------------------
  // item type

  /** The item type a lower-cased, trimmed name stands for: `show` is `tv`. */
  function ItemTypeOfName(name: string): (r: Option<SimklType>)
    ensures r != Some(SimklEpisode)
    ensures r.Some? <==> name in {"movie", "tv", "anime", "show"}
    ensures r.Some? ==> SimklTypeName(r.value) == if name == "show" then "tv" else name
  {
    if name == "movie" then Some(SimklMovie)
    else if name == "tv" then Some(SimklTv)
    else if name == "anime" then Some(SimklAnime)
    else if name == "show" then Some(SimklTv)
    else None
  }

  /**
   * `normalizeItemType`: `movie`, `tv` and `anime` are themselves and `show` is `tv`,
   * after trimming and lower-casing; anything else, and every non-string, is nothing.
   */
  function NormalizeItemType(value: Option<Json>): (r: Option<SimklType>)
    ensures r != Some(SimklEpisode)
    ensures r.Some? <==> AsString(value).Some? && Lower(Trim(AsString(value).value)) in {"movie", "tv", "anime", "show"}
    ensures r.Some? ==>
      SimklTypeName(r.value) == (var lowered := Lower(Trim(AsString(value).value));
                                 if lowered == "show" then "tv" else lowered)
  {
    var s := AsString(value);
    if s.None? then None else ItemTypeOfName(Lower(Trim(s.value)))
  }

  /** The item type is read case-insensitively. */
  lemma ItemTypeIgnoresCase(s: string)
    ensures NormalizeItemType(Some(JStr(Lower(s)))) == NormalizeItemType(Some(JStr(s)))
  {
    TrimLower(s);
    LowerIdempotent(Trim(s));
    assert Lower(Trim(Lower(s))) == Lower(Trim(s));
    assert NormalizeItemType(Some(JStr(Lower(s)))) == ItemTypeOfName(Lower(Trim(Lower(s))));
    assert NormalizeItemType(Some(JStr(s))) == ItemTypeOfName(Lower(Trim(s)));
  }

  /** The expected kind accepts: `movie` for a movie, `tv` or `anime` for a show. */
  predicate MatchesKind(kind: Kind, t: Option<SimklType>) {
    if kind == MovieKind then t == Some(SimklMovie) else t == Some(SimklTv) || t == Some(SimklAnime)
  }

  // ---------------------------------------------------------------------------
  // ids

  /**
   * `idsFromSearchItemIds`: simkl (`simkl ?? simkl_id`), tmdb and tvdb as positive numbers
   * or numeric strings, and the normalised imdb id; a non-record gives no ids. This is
   * the id reading of the Simkl normaliser without the slug.
   */
  function SearchItemIds(value: Option<Json>): (ids: ExternalIds)
    ensures ids == ExtractIds(value).(slug := None)
    ensures ValidIds(ids) && ids.trakt.None? && ids.slug.None?
  {
    var record := AsRecord(value);
    if record.None? then NoIds
    else
      var raw := record.value;
      ExternalIds(None, PositiveId(Get(raw, "tmdb")), PositiveId(Get(raw, "tvdb")), SimklIdOf(raw),
                  NormalizeImdbId(AsString(Get(raw, "imdb"))), None)
  }

  /** `ids.simkl || ids.imdb || ids.tmdb || ids.tvdb`. */
  predicate HasSearchId(ids: ExternalIds) {
    NumSet(ids.simkl) || StrSet(ids.imdb) || NumSet(ids.tmdb) || NumSet(ids.tvdb)
  }

  // ---------------------------------------------------------------------------
  // candidate

  /** The ids one list item offers as the candidate: a record of the expected kind with some id. */
  function ItemCandidate(item: Json, kind: Kind): (r: Option<ExternalIds>)
    ensures r.Some? <==> IsRecord(item) && MatchesKind(kind, NormalizeItemType(Get(item, "type")))
                         && HasSearchId(SearchItemIds(Get(item, "ids")))
    ensures r.Some? ==> r.value == SearchItemIds(Get(item, "ids"))
  {
    if !IsRecord(item) then None
    else if !MatchesKind(kind, NormalizeItemType(Get(item, "type"))) then None
    else
      var ids := SearchItemIds(Get(item, "ids"));
      if HasSearchId(ids) then Some(ids) else None
  }

  function MovieCandidate(item: Json): Option<ExternalIds> {
    ItemCandidate(item, MovieKind)
  }

  function ShowCandidate(item: Json): Option<ExternalIds> {
    ItemCandidate(item, ShowKind)
  }

  /** The candidate reading for one expected kind, as a function value. */
  function CandidateOf(kind: Kind): (f: Json -> Option<ExternalIds>)
    ensures forall item :: f(item) == ItemCandidate(item, kind)
  {
    if kind == MovieKind then MovieCandidate else ShowCandidate
  }

  /** The candidate `pickCandidate` returns: that of the first item offering one. */
  function FirstCandidate(list: seq<Json>, kind: Kind): (r: Option<ExternalIds>)
    ensures r.None? <==> forall i :: 0 <= i < |list| ==> ItemCandidate(list[i], kind).None?
    ensures r.Some? ==> exists i :: 0 <= i < |list| && ItemCandidate(list[i], kind) == r
    ensures r.Some? ==> ValidIds(r.value) && HasSearchId(r.value)
  {
    FirstSome(CandidateOf(kind), list)
  }

  /** The candidate of the first item that offers one is the one picked. */
  lemma FirstCandidateAt(list: seq<Json>, kind: Kind, k: nat)
    requires k < |list| && ItemCandidate(list[k], kind).Some?
    requires forall j :: 0 <= j < k ==> ItemCandidate(list[j], kind).None?
    ensures FirstCandidate(list, kind) == ItemCandidate(list[k], kind)
  {
    FirstSomeAt(CandidateOf(kind), list, k);
  }

  /** `pickCandidate`: the scan over the list, returning at the first item that offers ids. */
  method PickCandidate(list: seq<Json>, kind: Kind) returns (r: Option<ExternalIds>)
    requires kind != EpisodeKind
    ensures r == FirstCandidate(list, kind)
  {
    for i := 0 to |list|
      invariant FirstCandidate(list[i..], kind) == FirstCandidate(list, kind)
    {
      assert list[i..][0] == list[i] && list[i..][1..] == list[i + 1..];
      var item := list[i];
      if !IsRecord(item) {
        continue;
      }
      var itemType := NormalizeItemType(Get(item, "type"));
      var matches := if kind == MovieKind then itemType == Some(SimklMovie)
                     else itemType == Some(SimklTv) || itemType == Some(SimklAnime);
      if !matches {
        continue;
      }
      var ids := SearchItemIds(Get(item, "ids"));
      if NumSet(ids.simkl) || StrSet(ids.imdb) || NumSet(ids.tmdb) || NumSet(ids.tvdb) {
        return Some(ids);
      }
    }
    assert list[|list|..] == [];
    return None;
  }

  // ---------------------------------------------------------------------------
  // resolvers

  /** The six shipped `create…Resolver` edges, each with its `from` and `to`. */
  datatype SearchResolver = ImdbToSimkl | TmdbToSimkl | TvdbToSimkl | SimklToImdb | SimklToTmdb | SimklToTvdb
  {
    function From(): Provider {
      match this
      case ImdbToSimkl => Imdb
      case TmdbToSimkl => Tmdb
      case TvdbToSimkl => Tvdb
      case _ => Simkl
    }

    function To(): Provider {
      match this
      case SimklToImdb => Imdb
      case SimklToTmdb => Tmdb
      case SimklToTvdb => Tvdb
      case _ => Simkl
    }
  }

  /** The numeric field of a candidate a resolver reads for a numeric target. */
  function NumField(to: Provider, c: ExternalIds): Option<int> {
    match to
    case Simkl => c.simkl
    case Tmdb => c.tmdb
    case Tvdb => c.tvdb
    case _ => None
  }

  /** The target ref built from the candidate's field, when that field is set. */
  function TargetRef(to: Provider, kind: Kind, c: ExternalIds): (r: Option<ProviderRef>)
    requires ValidIds(c)
    ensures r.Some? ==> r.value.ProviderOf() == to && r.value.kind == kind && r.value.WellFormed()
    ensures r.Some? ==> r.value.season.None? && r.value.episode.None?
    ensures to == Imdb ==> (r.Some? <==> StrSet(c.imdb)) && (r.Some? ==> r.value == ImdbRef(kind, c.imdb.value, None, None))
    ensures to != Imdb ==> (r.Some? <==> to != Trakt && NumSet(NumField(to, c)))
    ensures to != Imdb && r.Some? ==> r.value.NumericRef? && NumField(to, c) == Some(r.value.id)
  {
    if to == Imdb then
      if StrSet(c.imdb) then Some(ImdbRef(kind, c.imdb.value, None, None)) else None
    else
      var n := NumField(to, c);
      if to != Trakt && NumSet(n) then Some(NumericRef(to, kind, n.value, None, None)) else None
  }

  /**
   * A resolver's `resolve`, with `list` the array `fetchSearchId` returned (`None` when
   * it returned null): refs of another provider and episode refs give nothing; otherwise
   * the candidate is picked for the input's kind and its target field becomes the ref.
   */
  function Resolve(res: SearchResolver, input: ProviderRef, list: Option<seq<Json>>): (r: Option<ProviderRef>)
    ensures input.ProviderOf() != res.From() || input.kind == EpisodeKind || list.None? ==> r.None?
    ensures r.Some? ==> r.value.ProviderOf() == res.To() && r.value.kind == input.kind && r.value.WellFormed()
    ensures r.Some? ==> r.value.season.None? && r.value.episode.None?
    ensures r.Some? ==> FirstCandidate(list.value, input.kind).Some?
                        && r == TargetRef(res.To(), input.kind, FirstCandidate(list.value, input.kind).value)
    ensures (input.ProviderOf() == res.From() && input.kind != EpisodeKind && list.Some?
             && FirstCandidate(list.value, input.kind).Some?
             && TargetRef(res.To(), input.kind, FirstCandidate(list.value, input.kind).value).Some?) ==> r.Some?
  {
    if input.ProviderOf() != res.From() then None
    else if input.kind != MovieKind && input.kind != ShowKind then None
    else if list.None? then None
    else
      var candidate := FirstCandidate(list.value, input.kind);
      if candidate.None? then None
      else TargetRef(res.To(), input.kind, candidate.value)
  }

  /**
   * Only the first matching item is consulted: when it lacks the target field the
   * result is nothing, even if a later item of the same kind has that field.
   */
  lemma FirstMatchDecides(res: SearchResolver, input: ProviderRef, list: seq<Json>, k: nat, later: nat)
    requires input.ProviderOf() == res.From() && input.kind != EpisodeKind
    requires k < later < |list| && ItemCandidate(list[k], input.kind).Some?
    requires forall j :: 0 <= j < k ==> ItemCandidate(list[j], input.kind).None?
    requires TargetRef(res.To(), input.kind, ItemCandidate(list[k], input.kind).value).None?
    requires ItemCandidate(list[later], input.kind).Some?
    requires TargetRef(res.To(), input.kind, ItemCandidate(list[later], input.kind).value).Some?
    ensures Resolve(res, input, Some(list)).None?
  {
    FirstCandidateAt(list, input.kind, k);
  }

  /** Every resolver returns a ref of its declared target provider, as the router requires. */
  lemma ResolversKeepDeclaredTarget(res: SearchResolver, input: ProviderRef, list: Option<seq<Json>>)
    ensures Resolve(res, input, list).Some? ==> Resolve(res, input, list).value.ProviderOf() == res.To()
    ensures res.From() != res.To()
  {
  }
}
