/**
 * Typed provider references `provider:kind:id`: the strict and loose parsers, the
 * formatter and the refs built from id sets (`src/ids/providerRef.ts`).
 */
module ProviderRefs {
  import opened Wrappers
  import opened Strings
  import opened Media
  import opened ExternalId
  import opened StremioId

  datatype Provider = Tmdb | Trakt | Tvdb | Simkl | Imdb

  datatype Kind = MovieKind | ShowKind | EpisodeKind

  /**
   * A provider reference: IMDb refs carry a string id, every other provider a
   * positive number. Both may be scoped to one episode.
   */
  datatype ProviderRef =
    | ImdbRef(kind: Kind, imdb: string, season: Option<int>, episode: Option<int>)
    | NumericRef(provider: Provider, kind: Kind, id: PosInt, season: Option<int>, episode: Option<int>)
  {
    function ProviderOf(): Provider {
      if ImdbRef? then Imdb else provider
    }

    /** The numeric variant is never used for IMDb. */
    predicate WellFormed() {
      NumericRef? ==> provider != Imdb
    }

    function WithoutEpisode(): ProviderRef {
      this.(season := None, episode := None)
    }

    function WithEpisode(s: Option<int>, e: Option<int>): ProviderRef {
      this.(season := s, episode := e)
    }
  }

  /** The id of a loose reference: a string or a number. */
  datatype RefId = ImdbId(imdb: string) | NumId(n: PosInt)

  /** `ProviderRefLoose`: the kind is optional. */
  datatype LooseRef = LooseRef(provider: Provider, kind: Option<Kind>, id: RefId)

  function ProviderName(p: Provider): string {
    match p
    case Tmdb => "tmdb"
    case Trakt => "trakt"
    case Tvdb => "tvdb"
    case Simkl => "simkl"
    case Imdb => "imdb"
  }

  function KindName(k: Kind): string {
    match k
    case MovieKind => "movie"
    case ShowKind => "show"
    case EpisodeKind => "episode"
  }

  /** Membership in the `PROVIDERS` set: tmdb, trakt, simkl and imdb, but not tvdb. */
  function ParseProviderName(lowered: string): (r: Option<Provider>)
    ensures r.Some? ==> r.value != Tvdb && ProviderName(r.value) == lowered
  {
    if lowered == "tmdb" then Some(Tmdb)
    else if lowered == "trakt" then Some(Trakt)
    else if lowered == "simkl" then Some(Simkl)
    else if lowered == "imdb" then Some(Imdb)
    else None
  }

  /** `normalizeKind`: movie, show (also tv and series) and episode, ignoring case and surrounding space. */
  function NormalizeKind(value: string): (r: Option<Kind>)
    ensures r.Some? ==> Lower(Trim(value)) == KindName(r.value)
                        || (r.value == ShowKind && Lower(Trim(value)) in {"tv", "series"})
  {
    if value == "" then None
    else
      var lowered := Lower(Trim(value));
      if lowered == "movie" then Some(MovieKind)
      else if lowered == "show" || lowered == "tv" || lowered == "series" then Some(ShowKind)
      else if lowered == "episode" then Some(EpisodeKind)
      else None
  }

  /** `mediaTypeToProviderKind`: never the episode kind. */
  function MediaTypeToProviderKind(t: MediaType): (k: Kind)
    ensures k != EpisodeKind
    ensures k == MovieKind <==> t == Movie
  {
    if t == Movie then MovieKind else ShowKind
  }

  /** The `provider:kind:id` template. */
  function FormatParts(p: Provider, k: Kind, id: string): string {
    ProviderName(p) + ":" + KindName(k) + ":" + id
  }

  function RefIdText(r: ProviderRef): string {
    if r.ImdbRef? then r.imdb else NatStr(r.id)
  }

  /**
   * `formatProviderRef`: season and episode are not part of the text. The text of a ref
   * with a canonical id is trimmed and splits into the provider, kind and id tokens.
   */
  function FormatProviderRef(r: ProviderRef): (s: string)
    ensures (r.ImdbRef? ==> IsImdbId(r.imdb)) ==>
              Trim(s) == s && Tokens(s) == [ProviderName(r.ProviderOf()), KindName(r.kind), RefIdText(r)]
  {
    if r.ImdbRef? && !IsImdbId(r.imdb) then FormatParts(r.ProviderOf(), r.kind, RefIdText(r))
    else
      RefIdToken(r);
      FormatTokens(r.ProviderOf(), r.kind, RefIdText(r));
      FormatParts(r.ProviderOf(), r.kind, RefIdText(r))
  }

  /** The non-empty trimmed `:`-tokens of an input. */
  function Tokens(raw: string): seq<string> {
    CleanTokens(Split(raw))
  }

  /**
   * What strict parsing accepts of the tokens: three of them, a provider name in
   * `PROVIDERS` (in any case), a kind, and an id valid for that provider.
   */
  predicate StrictAccepts(parts: seq<string>) {
    |parts| == 3
    && ParseProviderName(Lower(parts[0])).Some? && NormalizeKind(parts[1]).Some?
    && (if ParseProviderName(Lower(parts[0])).value == Imdb then NormalizeImdbId(Some(parts[2])).Some?
        else ToPositiveInteger(parts[2]).Some?)
  }

  /** Strict parsing once the tokens are known. */
  function ParseStrictTokens(parts: seq<string>): (r: Option<ProviderRef>)
    ensures r.Some? ==> r.value.WellFormed() && r.value.ProviderOf() != Tvdb
    ensures r.Some? ==> r.value.season.None? && r.value.episode.None?
    ensures r.Some? && r.value.ImdbRef? ==> IsImdbId(r.value.imdb)
    ensures r.Some? <==> StrictAccepts(parts)
    ensures r.Some? ==> Some(r.value.ProviderOf()) == ParseProviderName(Lower(parts[0]))
                        && Some(r.value.kind) == NormalizeKind(parts[1])
    ensures r.Some? && r.value.ImdbRef? ==> Some(r.value.imdb) == NormalizeImdbId(Some(parts[2]))
    ensures r.Some? && r.value.NumericRef? ==> Some(r.value.id) == ToPositiveInteger(parts[2])
  {
    if |parts| != 3 then None
    else
      var provider := ParseProviderName(Lower(parts[0]));
      var kind := NormalizeKind(parts[1]);
      var idPart := parts[2];
      if provider.None? || kind.None? then None
      else if provider.value == Imdb then
        match NormalizeImdbId(Some(idPart))
        case Some(imdb) => Some(ImdbRef(kind.value, imdb, None, None))
        case None => None
      else
        match ToPositiveInteger(idPart)
        case None => None
        case Some(n) =>
          if provider.value == Tmdb || provider.value == Trakt || provider.value == Simkl then
            Some(NumericRef(provider.value, kind.value, n, None, None))
          else None
  }

  /** `parseProviderRefStrict`: exactly three non-empty tokens, a known provider, a kind and a valid id. */
  function ParseProviderRefStrict(input: string): (r: Option<ProviderRef>)
    ensures r.Some? ==> r.value.WellFormed() && r.value.ProviderOf() != Tvdb
    ensures r.Some? ==> r.value.season.None? && r.value.episode.None?
    ensures r.Some? && r.value.ImdbRef? ==> IsImdbId(r.value.imdb)
    ensures r.Some? ==> |Tokens(Trim(input))| == 3
  {
    var raw := Trim(input);
    if raw == "" then None else ParseStrictTokens(Tokens(raw))
  }

  /**
   * A text is accepted exactly when its trimmed, non-empty `:`-tokens are accepted, and
   * then the ref is the one those tokens spell.
   */
  lemma StrictAcceptsText(input: string)
    ensures ParseProviderRefStrict(input) == ParseStrictTokens(Tokens(Trim(input)))
    ensures ParseProviderRefStrict(input).Some? <==> StrictAccepts(Tokens(Trim(input)))
  {
    var raw := Trim(input);
    if raw == "" {
      StrictOfBlank(raw);
    }
  }

  /** Nothing is read from a blank text's tokens. */
  lemma StrictOfBlank(raw: string)
    requires raw == ""
    ensures ParseStrictTokens(Tokens(raw)) == None
  {
    TokensOfEmpty();
  }

  /** An empty text has no tokens. */
  lemma TokensOfEmpty()
    ensures Tokens("") == []
  {
    assert Split("") == [""];
    assert Trim("") == "";
  }

  /** The literal names are already trimmed and lower-case and contain no `:`. */
  lemma NameFixed(s: string)
    requires s in {"tmdb", "trakt", "tvdb", "simkl", "imdb", "movie", "show", "episode"}
    ensures Trim(s) == s && Lower(s) == s && ':' !in s && s != ""
  {
    assert IsLowerWord(s);
    LowerWordFixed(s);
  }

  lemma ProviderNameFixed(p: Provider)
    ensures Trim(ProviderName(p)) == ProviderName(p) && Lower(ProviderName(p)) == ProviderName(p)
    ensures ':' !in ProviderName(p) && ProviderName(p) != ""
  {
    NameFixed(ProviderName(p));
  }

  lemma KindNameFixed(k: Kind)
    ensures Trim(KindName(k)) == KindName(k) && Lower(KindName(k)) == KindName(k)
    ensures ':' !in KindName(k) && KindName(k) != ""
  {
    NameFixed(KindName(k));
  }

  /** The tokens of `a:b:c` for clean pieces without `:`. */
  lemma TokensOfThree(a: string, b: string, c: string)
    requires a != "" && Trim(a) == a && ':' !in a
    requires b != "" && Trim(b) == b && ':' !in b
    requires c != "" && Trim(c) == c && ':' !in c
    ensures Tokens(a + ":" + b + ":" + c) == [a, b, c]
  {
    SplitThree(a, b, c);
    CleanTokensCons(c, []);
    CleanTokensCons(b, [c]);
    CleanTokensCons(a, [b, c]);
    assert [a] + [b, c] == [a, b, c] && [b] + [c] == [b, c] && [c] + CleanTokens([]) == [c];
  }

  /** Two clean pieces joined by `:` are trimmed already. */
  lemma JoinTrimmed(a: string, b: string)
    requires a != "" && !IsSpace(a[0]) && b != "" && !IsSpace(b[|b| - 1])
    ensures a + ":" + b != "" && Trim(a + ":" + b) == a + ":" + b
  {
    var s := a + ":" + b;
    assert s[0] == a[0] && s[|s| - 1] == b[|b| - 1];
    TrimNoop(s);
  }

  /** The tokens of `a:b` for clean pieces without `:`. */
  lemma TokensOfTwo(a: string, b: string)
    requires a != "" && Trim(a) == a && ':' !in a
    requires b != "" && Trim(b) == b && ':' !in b
    ensures Tokens(a + ":" + b) == [a, b]
  {
    SplitCons(a, b);
    assert Split(b) == [b];
    CleanTokensCons(b, []);
    CleanTokensCons(a, [b]);
    assert [a] + [b] == [a, b] && [b] + CleanTokens([]) == [b];
  }

  /** A digit string is a clean token. */
  lemma DigitsToken(d: string)
    requires IsDigits(d)
    ensures d != "" && Trim(d) == d && ':' !in d && Lower(d) == d
  {
    assert IsDigit(d[0]) && IsDigit(d[|d| - 1]);
    TrimNoop(d);
    DigitsNoColon(d);
    LowerNoUpper(d);
  }

  /** A canonical IMDb id is a clean token. */
  lemma ImdbToken(c: string)
    requires IsImdbId(c)
    ensures c != "" && Trim(c) == c && ':' !in c && Lower(c) == c
  {
    ImdbIdFixed(c);
    DigitsNoColon(c[2..]);
    forall i | 0 <= i < |c| ensures c[i] != ':' {
      if i >= 2 {
        assert c[i] == c[2..][i - 2];
      }
    }
  }

  /** A formatted ref is already trimmed and splits into its three pieces. */
  lemma FormatTokens(p: Provider, k: Kind, id: string)
    requires id != "" && Trim(id) == id && ':' !in id
    ensures Trim(FormatParts(p, k, id)) == FormatParts(p, k, id)
    ensures Tokens(FormatParts(p, k, id)) == [ProviderName(p), KindName(k), id]
  {
    var s := FormatParts(p, k, id);
    ProviderNameFixed(p);
    KindNameFixed(k);
    assert s[0] == ProviderName(p)[0];
    assert s[|s| - 1] == id[|id| - 1];
    TrimNoop(s);
    TrimNoop(id);
    TokensOfThree(ProviderName(p), KindName(k), id);
  }

  /** Every provider name but tvdb is recognised. */
  lemma ProviderNameRoundTrip(p: Provider)
    requires p != Tvdb
    ensures ParseProviderName(Lower(ProviderName(p))) == Some(p)
  {
    ProviderNameFixed(p);
  }

  /** Every kind name is recognised, whatever its case. */
  lemma KindNameRoundTrip(k: Kind)
    ensures NormalizeKind(KindName(k)) == Some(k)
  {
    KindNameFixed(k);
  }

  /** The tokens of a formatted ref are read back as the ref. */
  lemma StrictTokensOf(r: ProviderRef)
    requires r.WellFormed() && r.ProviderOf() != Tvdb
    requires r.ImdbRef? ==> IsImdbId(r.imdb)
    ensures ParseStrictTokens([ProviderName(r.ProviderOf()), KindName(r.kind), RefIdText(r)]) == Some(r.WithoutEpisode())
  {
    ProviderNameRoundTrip(r.ProviderOf());
    KindNameRoundTrip(r.kind);
    if r.ImdbRef? {
      NormalizeImdbIdBare(r.imdb);
    } else {
      ToPositiveIntegerNatStr(r.id);
    }
  }

  lemma RefIdToken(r: ProviderRef)
    requires r.ImdbRef? ==> IsImdbId(r.imdb)
    ensures RefIdText(r) != "" && Trim(RefIdText(r)) == RefIdText(r) && ':' !in RefIdText(r)
  {
    if r.ImdbRef? {
      ImdbToken(r.imdb);
    } else {
      DigitsToken(NatStr(r.id));
    }
  }

  /** A ref read back from its text: the provider, kind and id survive, the episode scope does not. */
  lemma StrictRoundTrip(r: ProviderRef)
    requires r.WellFormed() && r.ProviderOf() != Tvdb
    requires r.ImdbRef? ==> IsImdbId(r.imdb)
    ensures ParseProviderRefStrict(FormatProviderRef(r)) == Some(r.WithoutEpisode())
  {
    RefIdToken(r);
    FormatTokens(r.ProviderOf(), r.kind, RefIdText(r));
    StrictTokensOf(r);
  }

  /** A trimmed non-empty text is read through its tokens. */
  lemma StrictOfTrimmed(s: string)
    requires s != "" && Trim(s) == s
    ensures ParseProviderRefStrict(s) == ParseStrictTokens(Tokens(s))
  {
  }

  /** Tvdb refs format fine but never parse back: tvdb is not a known provider name. */
  lemma StrictRejectsTvdb(k: Kind, id: string)
    requires id != "" && Trim(id) == id && ':' !in id
    ensures ParseProviderRefStrict(FormatParts(Tvdb, k, id)).None?
  {
    var s := FormatParts(Tvdb, k, id);
    FormatTokens(Tvdb, k, id);
    assert |s| > 0;
    StrictOfTrimmed(s);
    TvdbNotParsed(KindName(k), id);
  }

  lemma TvdbNotParsed(k: string, id: string)
    ensures ParseStrictTokens(["tvdb", k, id]).None?
  {
    var parts := ["tvdb", k, id];
    assert parts[0] == ProviderName(Tvdb);
    ProviderNameFixed(Tvdb);
    assert ParseProviderName(Lower(parts[0])).None?;
  }

  /** Loose parsing once the tokens are known. */
  function ParseLooseTokens(parts: seq<string>): (r: Option<LooseRef>)
    ensures r.Some? ==> r.value.provider != Tvdb
    ensures r.Some? ==> (r.value.provider == Imdb <==> r.value.id.ImdbId?)
    ensures r.Some? && r.value.id.ImdbId? ==> IsImdbId(r.value.id.imdb)
  {
    if |parts| < 2 then None
    else LooseFields(parts[0], parts[1], if |parts| >= 3 then Some(parts[2]) else None)
  }

  /** The loose reading of the first two tokens and the third, when there is one. */
  function LooseFields(first: string, second: string, third: Option<string>): (r: Option<LooseRef>)
    ensures r.Some? ==> r.value.provider != Tvdb
    ensures r.Some? ==> (r.value.provider == Imdb <==> r.value.id.ImdbId?)
    ensures r.Some? && r.value.id.ImdbId? ==> IsImdbId(r.value.id.imdb)
  {
    var provider := ParseProviderName(Lower(first));
    if provider.None? then None
    else
      var maybeKind := NormalizeKind(second);
      if maybeKind.Some? && third.Some? then
        if provider.value == Imdb then
          match NormalizeImdbId(third)
          case Some(imdb) => Some(LooseRef(Imdb, maybeKind, ImdbId(imdb)))
          case None => None
        else
          match ToPositiveInteger(third.value)
          case Some(n) => Some(LooseRef(provider.value, maybeKind, NumId(n)))
          case None => None
      else if provider.value == Imdb then
        match NormalizeImdbId(Some(second))
        case Some(imdb) => Some(LooseRef(Imdb, None, ImdbId(imdb)))
        case None => None
      else
        match ToPositiveInteger(second)
        case Some(n) => Some(LooseRef(provider.value, None, NumId(n)))
        case None => None
  }

  /** When the second token is not a kind, the third is not read. */
  lemma LooseFieldsNoKind(first: string, second: string, third: Option<string>)
    requires NormalizeKind(second).None?
    ensures LooseFields(first, second, third) == LooseFields(first, second, None)
  {
  }

  /** `parseProviderRefLoose`: `provider:kind:id` when the second token is a kind, else `provider:id`. */
  function ParseProviderRefLoose(input: string): (r: Option<LooseRef>)
    ensures r.Some? ==> r.value.provider != Tvdb
    ensures r.Some? ==> (r.value.provider == Imdb <==> r.value.id.ImdbId?)
    ensures r.Some? && r.value.id.ImdbId? ==> IsImdbId(r.value.id.imdb)
  {
    var raw := Trim(input);
    if raw == "" then None else ParseLooseTokens(Tokens(raw))
  }

  /** Tokens after the ones loose parsing reads are ignored. */
  lemma LooseIgnoresExtraTokens(parts: seq<string>, more: seq<string>)
    requires |parts| >= 3 || (|parts| == 2 && NormalizeKind(parts[1]).None?)
    ensures ParseLooseTokens(parts + more) == ParseLooseTokens(parts)
  {
    var all := parts + more;
    assert all[0] == parts[0] && all[1] == parts[1];
    if |parts| >= 3 {
      assert all[2] == parts[2];
    } else {
      LooseFieldsNoKind(parts[0], parts[1], if |all| >= 3 then Some(all[2]) else None);
    }
  }

  function ToLoose(r: ProviderRef): LooseRef {
    LooseRef(r.ProviderOf(), Some(r.kind), if r.ImdbRef? then ImdbId(r.imdb) else NumId(r.id))
  }

  /** Whatever strict parsing accepts, loose parsing reads the same way. */
  lemma StrictImpliesLoose(input: string)
    requires ParseProviderRefStrict(input).Some?
    ensures ParseProviderRefLoose(input) == Some(ToLoose(ParseProviderRefStrict(input).value))
  {
    StrictTokensLoose(Tokens(Trim(input)));
  }

  /** The token-level reading behind `StrictImpliesLoose`. */
  lemma StrictTokensLoose(parts: seq<string>)
    requires ParseStrictTokens(parts).Some?
    ensures ParseLooseTokens(parts) == Some(ToLoose(ParseStrictTokens(parts).value))
  {
    var provider := ParseProviderName(Lower(parts[0]));
    var kind := NormalizeKind(parts[1]);
    assert provider.Some? && kind.Some?;
    if provider.value == Imdb {
      assert NormalizeImdbId(Some(parts[2])).Some?;
    } else {
      assert ToPositiveInteger(parts[2]).Some?;
    }
  }

  /** A digit token is not a kind. */
  lemma DigitsNotKind(d: string)
    requires IsDigits(d)
    ensures NormalizeKind(d).None?
  {
    DigitsToken(d);
    assert IsDigit(d[0]);
  }

  lemma LooseShortTokens(p: Provider, n: PosInt)
    requires p == Tmdb || p == Trakt || p == Simkl
    ensures ParseLooseTokens([ProviderName(p), NatStr(n)]) == Some(LooseRef(p, None, NumId(n)))
  {
    ProviderNameRoundTrip(p);
    DigitsNotKind(NatStr(n));
    ToPositiveIntegerNatStr(n);
  }

  /** `provider:id` without a kind is read by the loose parser only. */
  lemma LooseShortForm(p: Provider, n: PosInt)
    requires p == Tmdb || p == Trakt || p == Simkl
    ensures ParseProviderRefLoose(ProviderName(p) + ":" + NatStr(n)) == Some(LooseRef(p, None, NumId(n)))
    ensures ParseProviderRefStrict(ProviderName(p) + ":" + NatStr(n)).None?
  {
    var d := NatStr(n);
    var s := ProviderName(p) + ":" + d;
    ProviderNameFixed(p);
    DigitsToken(d);
    assert s[0] == ProviderName(p)[0];
    assert s[|s| - 1] == d[|d| - 1];
    TrimNoop(s);
    TokensOfTwo(ProviderName(p), d);
    LooseOfTrimmed(s);
    LooseShortTokens(p, n);
  }

  /** A trimmed non-empty text is read through its tokens. */
  lemma LooseOfTrimmed(s: string)
    requires s != "" && Trim(s) == s
    ensures ParseProviderRefLoose(s) == ParseLooseTokens(Tokens(s))
  {
  }

  /** `imdb:tt…` without a kind is read by the loose parser. */
  lemma LooseImdbShortForm(c: string)
    requires IsImdbId(c)
    ensures ParseProviderRefLoose("imdb:" + c) == Some(LooseRef(Imdb, None, ImdbId(c)))
  {
    var s := "imdb" + ":" + c;
    assert s == "imdb:" + c;
    ImdbShortTokens(c);
    LooseOfTrimmed(s);
    LooseImdbTokens(c);
  }

  /** `imdb:tt…` is trimmed already and splits into its two pieces. */
  lemma ImdbShortTokens(c: string)
    requires IsImdbId(c)
    ensures "imdb" + ":" + c != "" && Trim("imdb" + ":" + c) == "imdb" + ":" + c
    ensures Tokens("imdb" + ":" + c) == ["imdb", c]
  {
    ImdbToken(c);
    JoinTrimmed("imdb", c);
    NameFixed("imdb");
    TokensOfTwo("imdb", c);
  }

  /** An IMDb id is not a kind. */
  lemma ImdbNotKind(c: string)
    requires IsImdbId(c)
    ensures NormalizeKind(c).None?
  {
    ImdbToken(c);
    var lowered := Lower(Trim(c));
    assert lowered == c;
    assert c[0] == 't' && c[1] == 't';
    assert lowered != "movie" && lowered != "show" && lowered != "series" && lowered != "episode" by {
      assert lowered[0] != "movie"[0] && lowered[0] != "show"[0];
      assert lowered[0] != "series"[0] && lowered[0] != "episode"[0];
    }
    assert lowered != "tv" by { assert lowered[1] != "tv"[1]; }
  }

  lemma LooseImdbTokens(c: string)
    requires IsImdbId(c)
    ensures ParseLooseTokens(["imdb", c]) == Some(LooseRef(Imdb, None, ImdbId(c)))
  {
    var parts := ["imdb", c];
    assert parts[0] == ProviderName(Imdb);
    ProviderNameRoundTrip(Imdb);
    ImdbNotKind(c);
    NormalizeImdbIdBare(c);
  }

  /** `String(id)` of an id-set number. */
  function IdText(n: int): string {
    IntStr(n)
  }

  /**
   * `buildProviderRefFromExternalIds`: the ref text of the first of imdb, tmdb, trakt
   * and simkl; tvdb is never used.
   */
  function BuildProviderRefFromExternalIds(t: MediaType, ids: ExternalIds): (r: Option<string>)
    ensures r.None? <==> !StrSet(ids.imdb) && !NumSet(ids.tmdb) && !NumSet(ids.trakt) && !NumSet(ids.simkl)
  {
    var kind := MediaTypeToProviderKind(t);
    if StrSet(ids.imdb) then Some(FormatParts(Imdb, kind, ids.imdb.value))
    else if NumSet(ids.tmdb) then Some(FormatParts(Tmdb, kind, IdText(ids.tmdb.value)))
    else if NumSet(ids.trakt) then Some(FormatParts(Trakt, kind, IdText(ids.trakt.value)))
    else if NumSet(ids.simkl) then Some(FormatParts(Simkl, kind, IdText(ids.simkl.value)))
    else None
  }

  /** The ref of highest precedence among imdb, tmdb, trakt and simkl. */
  function PreferredRef(kind: Kind, ids: ExternalIds): (r: Option<ProviderRef>)
    requires ValidIds(ids)
    ensures r.Some? ==> r.value.WellFormed() && r.value.ProviderOf() != Tvdb && r.value.kind == kind
    ensures r.Some? ==> r.value.season.None? && r.value.episode.None?
  {
    if StrSet(ids.imdb) then Some(ImdbRef(kind, ids.imdb.value, None, None))
    else if NumSet(ids.tmdb) then Some(NumericRef(Tmdb, kind, ids.tmdb.value, None, None))
    else if NumSet(ids.trakt) then Some(NumericRef(Trakt, kind, ids.trakt.value, None, None))
    else if NumSet(ids.simkl) then Some(NumericRef(Simkl, kind, ids.simkl.value, None, None))
    else None
  }

  /** For valid ids the built text is the formatted preferred ref. */
  lemma BuildProviderRefIsFormat(t: MediaType, ids: ExternalIds)
    requires ValidIds(ids)
    ensures var r := PreferredRef(MediaTypeToProviderKind(t), ids);
            BuildProviderRefFromExternalIds(t, ids) == (if r.Some? then Some(FormatProviderRef(r.value)) else None)
  {
  }

  /** For valid ids strict parsing reads the built text back as the preferred ref. */
  lemma BuildProviderRefRoundTrip(t: MediaType, ids: ExternalIds)
    requires ValidIds(ids)
    ensures var built := BuildProviderRefFromExternalIds(t, ids);
            built.Some? ==> ParseProviderRefStrict(built.value) == PreferredRef(MediaTypeToProviderKind(t), ids)
  {
    BuildProviderRefIsFormat(t, ids);
    var r := PreferredRef(MediaTypeToProviderKind(t), ids);
    if r.Some? {
      StrictRoundTrip(r.value);
    }
  }

  /** `buildProviderRefFromStremioId`: the ref of the ids of the suffix-stripped base id. */
  function BuildProviderRefFromStremioId(t: MediaType, id: string): (r: Option<string>)
    ensures r.Some? ==> var back := ParseProviderRefStrict(r.value);
                        back.Some? && back.value.kind == MediaTypeToProviderKind(t)
                        && back.value.season.None? && back.value.episode.None?
  {
    var baseId := ParseEpisodeIdSuffix(id).baseId;
    var ids := ParseExternalId(Text(baseId));
    BuildProviderRefRoundTrip(t, ids);
    BuildProviderRefFromExternalIds(t, ids)
  }

  /** An episode suffix makes no difference to the ref. */
  lemma StremioRefIgnoresSuffix(t: MediaType, b: string, s: PosInt, e: PosInt)
    requires Trim(b) != ""
    ensures BuildProviderRefFromStremioId(t, BuildEpisodeId(b, s, e).value)
            == BuildProviderRefFromExternalIds(t, ParseExternalId(Text(b)))
  {
    EpisodeIdRoundTrip(b, s, e);
    ParseIgnoresSpace(b);
  }
}
