# crispy-media-core in Dafny

A model of the core of crispy-media-core, the TypeScript library that identifies a title
(movie, show or episode) across the Trakt, Simkl, TMDB, IMDb and TVDB catalogues and
Stremio addons, with proofs of what that core promises. One Dafny module models one
source file:

- **The media-id layer.** `ExternalId` models `src/ids/externalIds.ts`, `StremioId`
  models `src/stremio/id.ts`, `ProviderRefs` models `src/ids/providerRef.ts`,
  `Canonical` models `src/ids/canonical.ts`, `MediaId` models `src/ids/mediaId.ts`,
  `Coerce` models `src/ids/coerce.ts` and `IdPrefixes` models `src/ids/idPrefixes.ts`.
  These modules cover:
  - the grammars of `tt…`, `provider:id`, `provider:kind:id` and `…:season:episode` ids;
  - the provider precedence behind canonical ids and map keys;
  - coercion of loose input into a typed `ProviderRef`;
  - the candidate forms offered to an addon's `idPrefixes`.
- **The resolution router.** `Router` models `src/routing/router.ts`. A `MediaRouter` class holds the
  resolver edges and the enricher registry its constructor fills. `ResolveTo` runs the
  breadth-first search over providers with a FIFO queue and a visited set. `Enrich`
  resolves a reference and then applies the last enricher registered for the target.
- **Stremio.**
  - `ContinueWatching` models `src/stremio/continueWatching.ts`: progress, merging, ordering and the
    next episode.
  - `StremioParse` models `src/stremio/parse.ts`: the addon response parsers and their deduplication.
- **Provider rules.**
  - `SimklImages` models `src/simkl/images.ts`.
  - `SimklPayloads` models `src/simkl/payloads.ts`.
  - `TraktScrobble` and `TraktPayloads` model `src/trakt/scrobble.ts` and `src/trakt/payloads.ts`.
  - The normalisers `TraktNormalize`, `SimklNormalize` and `TmdbNormalize` model `src/trakt/normalize.ts`,
    `src/simkl/normalize.ts` and `src/tmdb/normalize.ts`.
  - The Simkl search resolvers `SimklResolvers` and `SimklResolve` model
    `src/simkl/resolvers.ts` and `src/simkl/resolve.ts`.
- **Shared helpers.**
  - `Wrappers` holds `Option` and `Result`.
  - `Strings` holds trimming, lower-casing, splitting, decimal digits and `parseInt`.
  - `Json` models the untyped `unknown` values the parsers inspect.
  - `Media` holds the shared `ExternalIds` and `MediaType`.
  - `JsNumbers` models JavaScript numbers where non-finite values and `Math.trunc` matter.
  - `Sorting` is a stable sort by key.
  - `UrlPatterns` writes out the URL regular expressions.
  - `Seqs` holds find, filter and first-match over sequences.
  - `StremioTypes` holds the Stremio record shapes.

The code is followed as written. Loops in the source become methods with loop invariants, each
proved equal to a specification function:
- `mergeExternalIds`;
- the router's search, the constructor's registry loops and `enrich`;
- the continue-watching merge and up-next scan;
- the stream, subtitle and dedupe loops of the parsers;
- the image variant lists;
- `firstImageValue`, `pickCandidate` and the `resolveSimklId` candidate loop.

The rest is functions and lemmas. Throws become `Result` errors carrying the source's message. `null`
and `undefined` become `None`.

Inputs from outside are values or parameters:
- Responses from the network arrive as values. In `SimklResolvers` this is the list that
  `fetchSearchId` returned. In `SimklResolve` it is a function from the query sent to the response.
- The current time is the `nowMs` parameter.
- `Date.parse` and `Number.parseFloat` are function parameters.
- A router resolver or enricher is a total function of its registration index and the input
  reference. The function returns no mapping, a mapped reference, or a throw. A ghost trace records every
  resolver call in order.

Where the tests and the code disagree, the model follows the code:
- `parseExternalId` reads a bare number as a TMDB id.
- A typed `tmdb:movie:550` gives no ids when parsed by `parseExternalId`.
- `normalizeImdbId` rejects `imdb:movie:tt…`.
- A Trakt episode of a show known only by TMDB id is keyed `tmdb:<id>:<s>:<e>`, not
  `tmdb:show:<id>:<s>:<e>` (`TraktNormalize.EpisodeKeyedByShowTmdb`).
- `buildCanonicalId` stops at trakt, although a comment in `src/ids/mediaId.ts` lists simkl.
- `ProviderName` has no tvdb, while `canonical.ts`, `idPrefixes.ts` and the Simkl resolvers emit tvdb
  refs. `Provider` therefore has a `Tvdb` constructor, and the strict and loose parsers reject it
  (`ProviderRefs.StrictRejectsTvdb`).

## Model

| member | source | states |
|---|---|---|
| ExternalId.ToPositiveIntegerNatStr | src/ids/externalIds.ts:9-16 | reading the decimal form of a positive integer back gives that integer |
| ExternalId.ToPositiveIntegerZero | src/ids/externalIds.ts:9-16 | a digit string of zeros is rejected, since its value is not positive |
| ExternalId.ToPositiveInteger | src/ids/externalIds.ts:9-16 | a value exactly for a non-empty string of decimal digits whose value is positive, and then that value |
| ExternalId.MediaTypeOfName | src/ids/externalIds.ts:25-33 | a name is a movie exactly when it is `movie` or `film`, a series exactly when it is `show`, `tv` or `series` |
| ExternalId.NormalizeMediaType | src/ids/externalIds.ts:18-34 | movie exactly for trimmed, lower-cased `movie`/`film`, series exactly for `show`/`tv`/`series`, otherwise nothing (including a missing or empty input) |
| ExternalId.NormalizeMediaTypeIgnoresCase | src/ids/externalIds.ts:23 | lower-casing the input first changes nothing |
| ExternalId.NormalizeMediaTypeIgnoresSpace | src/ids/externalIds.ts:23 | trimming the input first changes nothing |
| ExternalId.NormalizeImdbId | src/ids/externalIds.ts:36-57 | any accepted id is a lower-case `tt<digits>` id |
| ExternalId.NormalizeImdbText | src/ids/externalIds.ts:43-56 | the three checks on the normalised text only ever yield a `tt<digits>` id |
| ExternalId.NormalizeImdbIdAccepts | src/ids/externalIds.ts:36-57 | a canonical IMDb id is accepted unchanged, both bare and behind `imdb:` |
| ExternalId.NormalizeImdbIdIdempotent | src/ids/externalIds.ts:36-57 | normalising an accepted id again gives the same id |
| ExternalId.NormalizeImdbIdIgnoresCase | src/ids/externalIds.ts:41 | lower-casing the input first changes nothing |
| ExternalId.NormalizeImdbIdIgnoresSpace | src/ids/externalIds.ts:41 | trimming the input first changes nothing |
| ExternalId.ParseLowered | src/ids/externalIds.ts:70-94 | the ids read from a trimmed, lower-cased text are valid and set at most one field |
| ExternalId.ParseExternalId | src/ids/externalIds.ts:59-95 | valid ids with at most one field; a non-finite or non-positive number and a blank text give no ids; a positive number gives exactly that tmdb id |
| ExternalId.ParseIgnoresSpace | src/ids/externalIds.ts:64 | surrounding whitespace does not change the parse |
| ExternalId.ParseImdb | src/ids/externalIds.ts:84-87 | a canonical IMDb id parses to exactly that imdb id |
| ExternalId.ParseBareDigits | src/ids/externalIds.ts:89-92 | a bare positive number text is read as a tmdb id |
| ExternalId.ParseTmdbPrefix | src/ids/externalIds.ts:72-76 | `tmdb:N`, with or without further `:`-tokens, parses to exactly tmdb `N` |
| ExternalId.ParseTraktPrefix | src/ids/externalIds.ts:78-82 | `trakt:N`, with or without further `:`-tokens, parses to exactly trakt `N` |
| ExternalId.Merge | src/ids/externalIds.ts:97-119 | the merge never sets `simkl`, and merging valid id sets gives a valid id set |
| ExternalId.MergeExternalIds | src/ids/externalIds.ts:97-119 | the loop computes the merge of the sources |
| ExternalId.MergeAbsent | src/ids/externalIds.ts:100-116 | a field no source sets stays unset |
| ExternalId.MergeFirstWins | src/ids/externalIds.ts:100-116 | each field holds the value of the first source that sets it; later sources never overwrite it |
| ExternalId.MergeSingle | src/ids/externalIds.ts:97-119 | merging one id set gives it back without `simkl` |
| ExternalId.BuildCanonicalId | src/ids/externalIds.ts:121-140 | the IMDb id whenever one is set; otherwise `tmdb:<n>` then `trakt:<n>`; the trimmed fallback only when no id is set; nothing exactly when no id is set and the fallback is missing or blank; never empty |
| ExternalId.FallbackIsTitle | src/trakt/normalize.ts:319 | when the show title equals the item title the fallback id is the title |
| ExternalId.CanonicalIdIgnoresFallback | src/ids/externalIds.ts:121-132 | once imdb, tmdb or trakt is set the fallback plays no part |
| ExternalId.CanonicalIdRoundTrip | src/ids/externalIds.ts:121-132 | parsing the canonical id gives back the single id of highest precedence (imdb, then tmdb, then trakt) |
| StremioId.ParseEpisodeIdSuffix | src/stremio/id.ts:27-45 | season and episode come together; a blank id is returned as it is; otherwise there is a suffix exactly when the trimmed id's last two `:`-tokens are positive integers with non-empty text before them, and then the base is that text joined back and the numbers are those tokens; without a suffix the base is the trimmed id |
| StremioId.NoSuffixWithoutSeason | src/stremio/id.ts:34-39 | a trimmed id whose second-to-last token is not a positive integer has no suffix and is its own base |
| StremioId.BuildEpisodeId | src/stremio/id.ts:47-58 | there is no id exactly when the trimmed base is blank or the season or episode is not positive |
| StremioId.SplitEpisodeId | src/stremio/id.ts:31-57 | the `:`-tokens of a built id are the base's tokens followed by the season and the episode |
| StremioId.EpisodeIdRoundTrip | src/stremio/id.ts:27-58 | parsing a built episode id gives back the trimmed base, the season and the episode |
| StremioId.ImdbPatternLower | src/stremio/id.ts:84 | lower-casing a token matching `^tt\d+$` case-insensitively gives a canonical IMDb id |
| StremioId.NormalizeImdbIdLoose | src/stremio/id.ts:75-87 | a result exactly for a non-blank value whose first `:`-token after an optional `imdb:` is `tt<digits>` in any case or bare digits; the result is that token lower-cased, or `tt` followed by the digits, and always a canonical `tt<digits>` id |
| StremioId.LooseImdbDigits | src/stremio/id.ts:85 | a bare digit string gains the `tt` prefix |
| StremioId.LooseImdbCanonical | src/stremio/id.ts:75-87 | a canonical IMDb id is kept as it is |
| StremioId.CombinedIdsValue | src/stremio/id.ts:117-119 | the loose reading adds only an imdb id, only when enabled and only when strict parsing found none |
| StremioId.NormalizeStremioId | src/stremio/id.ts:98-129 | a text gives nothing exactly when it is blank; a non-finite number gives nothing; a positive number gives `tmdb:N`, any other number its decimal form; an id is never empty; StremioId.NormalizeStremioText gives the value for every non-blank text |
| StremioId.BaseIdNotBlank | src/stremio/id.ts:111-115 | the base of a trimmed non-blank id is not blank, so a text id always has a canonical base |
| StremioId.NormalizeStremioText | src/stremio/id.ts:111-128 | any non-blank text normalises to the canonical base id of its trimmed, suffix-stripped base, which always exists, followed by `:s:e` exactly when a suffix was parsed |
| StremioId.NormalizeStremioEpisode | src/stremio/id.ts:114-126 | a built episode id normalises to the canonical base id followed by the same season and episode |
| StremioId.EpisodeIdTrimmed | src/stremio/id.ts:47-58 | a built episode id has no surrounding whitespace |
| ProviderRefs.ParseProviderName | src/ids/providerRef.ts:36 | only the names in `PROVIDERS` are known (never tvdb), and a known name is that provider's name |
| ProviderRefs.NormalizeKind | src/ids/providerRef.ts:38-45 | a recognised kind is the trimmed, lower-cased value's kind name (`tv` and `series` being `show`) |
| ProviderRefs.MediaTypeToProviderKind | src/ids/providerRef.ts:54-56 | never the episode kind; the kind is movie exactly for a movie |
| ProviderRefs.FormatProviderRef | src/ids/providerRef.ts:58-60 | for a ref with a canonical id the text is trimmed and its `:`-tokens are exactly the provider name, the kind name and the id; season and episode are not part of it |
| ProviderRefs.ParseStrictTokens | src/ids/providerRef.ts:95-118 | a ref exactly when there are three tokens, a known provider name in any case, a kind, and an id valid for that provider; the ref's provider, kind and id are those tokens' readings; it is well formed, not tvdb and without episode scope |
| ProviderRefs.ParseProviderRefStrict | src/ids/providerRef.ts:90-119 | nothing for a blank input; an accepted ref comes from exactly three non-empty trimmed tokens, is well formed, not tvdb and without episode scope, and an imdb ref holds a canonical IMDb id |
| ProviderRefs.StrictAcceptsText | src/ids/providerRef.ts:90-119 | strict parsing of a text is the strict reading of its non-empty trimmed tokens, so an input is accepted exactly when those tokens are |
| ProviderRefs.ProviderNameRoundTrip | src/ids/providerRef.ts:36-97 | every provider name but tvdb is recognised |
| ProviderRefs.KindNameRoundTrip | src/ids/providerRef.ts:38-45 | every kind name is recognised as its kind |
| ProviderRefs.FormatTokens | src/ids/providerRef.ts:58-94 | a formatted ref is trimmed and splits into its provider, kind and id tokens |
| ProviderRefs.StrictTokensOf | src/ids/providerRef.ts:97-116 | the tokens of a formatted ref are read back as the ref without its episode scope |
| ProviderRefs.StrictRoundTrip | src/ids/providerRef.ts:58-119 | strict parsing of a formatted well-formed ref gives back its provider, kind and id; the season and episode are dropped |
| ProviderRefs.StrictRejectsTvdb | src/ids/providerRef.ts:36-103 | a tvdb ref formats but never parses back |
| ProviderRefs.ParseLooseTokens | src/ids/providerRef.ts:130-159 | an accepted loose ref is not tvdb, has an IMDb id exactly when its provider is imdb, and that id is canonical |
| ProviderRefs.LooseFields | src/ids/providerRef.ts:132-159 | the same guarantees for the reading of the first tokens and the optional third |
| ProviderRefs.LooseFieldsNoKind | src/ids/providerRef.ts:138-159 | when the second token is not a kind the third token is not read |
| ProviderRefs.ParseProviderRefLoose | src/ids/providerRef.ts:125-160 | the loose guarantees for any input text |
| ProviderRefs.LooseIgnoresExtraTokens | src/ids/providerRef.ts:129-159 | tokens after the first three are ignored |
| ProviderRefs.StrictImpliesLoose | src/ids/providerRef.ts:90-160 | whatever strict parsing accepts, loose parsing reads as the same provider, kind and id |
| ProviderRefs.StrictTokensLoose | src/ids/providerRef.ts:95-148 | the token-level form of the same agreement |
| ProviderRefs.DigitsNotKind | src/ids/providerRef.ts:38-45 | a digit token is never a kind |
| ProviderRefs.LooseShortTokens | src/ids/providerRef.ts:157-159 | the tokens `provider` and `N` are read as a numeric ref without a kind |
| ProviderRefs.LooseShortForm | src/ids/providerRef.ts:95-159 | `provider:N` is read by the loose parser as a ref without a kind and rejected by the strict one |
| ProviderRefs.LooseOfTrimmed | src/ids/providerRef.ts:126-129 | a trimmed non-empty text is read through its tokens |
| ProviderRefs.LooseImdbShortForm | src/ids/providerRef.ts:151-154 | `imdb:tt…` without a kind gives that imdb id without a kind |
| ProviderRefs.ImdbNotKind | src/ids/providerRef.ts:38-45 | a canonical IMDb id is never a kind |
| ProviderRefs.LooseImdbTokens | src/ids/providerRef.ts:151-154 | the tokens `imdb` and `tt…` are read as that imdb id without a kind |
| ProviderRefs.BuildProviderRefFromExternalIds | src/ids/providerRef.ts:62-71 | there is no ref exactly when imdb, tmdb, trakt and simkl are all unset; tvdb is never used |
| ProviderRefs.PreferredRef | src/ids/providerRef.ts:62-71 | the chosen ref is well formed, not tvdb, of the asked kind and without episode scope |
| ProviderRefs.BuildProviderRefIsFormat | src/ids/providerRef.ts:62-71 | for valid ids the built text is the formatted ref of the first of imdb, tmdb, trakt and simkl |
| ProviderRefs.BuildProviderRefRoundTrip | src/ids/providerRef.ts:62-119 | strict parsing reads a built text back as that preferred ref |
| ProviderRefs.StremioRefIgnoresSuffix | src/ids/providerRef.ts:77-85 | an episode suffix on the Stremio id makes no difference to the ref |
| ProviderRefs.BuildProviderRefFromStremioId | src/ids/providerRef.ts:77-85 | a built ref text parses back strictly as a ref of the media type's kind, without episode scope |
| Canonical.BuildCanonicalMediaId | src/ids/canonical.ts:14-24 | never the empty string; nothing exactly when no id is set and the fallback is missing or blank |
| Canonical.CanonicalRef | src/ids/canonical.ts:14-19 | the ref of highest precedence (imdb, tmdb, trakt, tvdb, simkl) exists exactly when some id is set; it is well formed, of the requested kind, unscoped, and an imdb ref holds a canonical IMDb id |
| Canonical.CanonicalMediaIdIsRef | src/ids/canonical.ts:4-9 | with an id present the canonical id is the `provider:kind:id` text of the ref of highest precedence |
| Canonical.CanonicalMediaIdFallback | src/ids/canonical.ts:22-23 | without ids the canonical id is the trimmed fallback, and nothing for a blank or missing one |
| Canonical.CanonicalMediaIdRoundTrip | src/ids/canonical.ts:14-24 | strict ref parsing reads a canonical media id back as its ref, except tvdb refs, which strict parsing rejects |
| Canonical.CanonicalFromMediaTypeKind | src/ids/canonical.ts:26-29 | a movie gets the movie kind and a series the show kind in the canonical id |
| Canonical.BuildCanonicalMediaIdFromMediaType | src/ids/canonical.ts:26-29 | nothing exactly when no id is set and the fallback is missing or blank; with an id, the formatted ref of highest precedence, of the media type's kind |
| MediaId.ParseMediaIdInput | src/ids/mediaId.ts:59-115 | the raw input is kept; ids are valid; season and episode come together; the canonical id is never empty and is missing exactly for blank text; numbers carry no episode, provider or kind; a text base id is trimmed; MediaId.TextInput gives the base id, ids, suffix and canonical id for every non-blank text |
| MediaId.NumericCanonicalId | src/ids/mediaId.ts:62-71 | a numeric input always has a non-empty canonical id |
| MediaId.BlankBase | src/ids/mediaId.ts:73-78 | the base id is blank exactly when the trimmed text is blank |
| MediaId.BlankCanonical | src/ids/mediaId.ts:84-86 | the canonical base id is missing exactly for an empty base id |
| MediaId.CombinedIdsValid | src/ids/mediaId.ts:77-80 | the merged strict and loose ids of a base id are valid |
| MediaId.NormalizeIdForKeyWithOptions | src/ids/mediaId.ts:125-128 | the key is empty exactly for blank text |
| MediaId.NormalizeIdForKey | src/ids/mediaId.ts:120-123 | the default key is empty exactly for blank text |
| MediaId.CanonicalIsStremioId | src/ids/mediaId.ts:59-115 | for every input but a non-finite number, the canonical id is the normalised Stremio id |
| MediaId.NonFiniteInput | src/ids/mediaId.ts:62-71 | NaN and the infinities keep their text form as base id and canonical id, with no ids |
| MediaId.NumberInput | src/ids/mediaId.ts:62-71 | a positive number is a tmdb id with canonical id `tmdb:N`; any other number keeps its decimal text and has no ids |
| MediaId.TextInput | src/ids/mediaId.ts:73-91 | any non-blank text parses into the trimmed, suffix-stripped base id, the ids of that base, the season and episode of the parsed suffix, and the canonical base id followed by `:s:e` exactly when a suffix was parsed; that canonical id is the normalised Stremio id |
| MediaId.EpisodeInput | src/ids/mediaId.ts:73-91 | a built episode id parses back into its trimmed base, its season and episode, and the canonical base followed by the suffix |
| MediaId.ProviderDoesNotInfluenceIds | src/ids/mediaId.ts:77-112 | the ids and canonical id of a text input follow from its base id alone, not from the loose provider reading |
| MediaId.TypedRefProviderKind | src/ids/mediaId.ts:107-112 | a typed `provider:kind:id` base id sets the provider and kind of that ref |
| MediaId.KeyIgnoresSpace | src/ids/mediaId.ts:120-128 | surrounding whitespace does not change the key |
| Coerce.AttachSuffix | src/ids/coerce.ts:40-47 | the ref is unchanged but for its scope, which is set exactly when both season and episode are given, to those numbers |
| Coerce.FromLoose | src/ids/coerce.ts:49-70 | a loose reading becomes a valid unscoped ref of the same provider, with the caller's kind when the reading has none |
| Coerce.CoerceText | src/ids/coerce.ts:39-71 | any reference read from the text is valid |
| Coerce.RefOfParsed | src/ids/coerce.ts:74-82 | the reference built from the parsed ids is valid |
| Coerce.CoerceParsed | src/ids/coerce.ts:74-82 | the fallback reference is valid |
| Coerce.CoerceProviderRef | src/ids/coerce.ts:36-83 | every reference returned is valid: well formed, not tvdb, with season and episode together and a canonical IMDb id for imdb |
| Coerce.StrictWins | src/ids/coerce.ts:40-47 | a strict `provider:kind:id` base id is the result, with its own kind and the suffix attached |
| Coerce.LooseTakesKind | src/ids/coerce.ts:49-70 | a loose base id keeps provider and id, takes the caller's kind when it has none, and stays imdb exactly when it was an IMDb id |
| Coerce.FallbackFirstId | src/ids/coerce.ts:20-26 | without a strict or loose reading, the result is the first parsed id under the caller's kind with the parsed scope, else nothing |
| Coerce.NumberInput | src/ids/coerce.ts:74-82 | a positive number is a tmdb ref of the caller's kind; any other number has no reference |
| Coerce.FromMediaTypeNumber | src/ids/coerce.ts:85-88 | a movie uses the movie kind and a series the show kind |
| Coerce.FormattedHasNoSuffix | src/ids/coerce.ts:40-41 | the text of a formatted ref is not mistaken for an episode suffix |
| Coerce.ThreeTokensNoSuffix | src/ids/coerce.ts:40-41 | `a:b:c` with clean pieces has no suffix when `b` is not a positive integer |
| Coerce.KindNotPositive | src/ids/coerce.ts:40-41 | no kind name reads as a positive integer |
| Coerce.CoerceFormatted | src/ids/coerce.ts:36-83 | coercing a formatted ref gives that ref back, whatever the caller's kind |
| Coerce.CoerceFormattedEpisode | src/ids/coerce.ts:36-83 | coercing a formatted ref with an episode suffix gives that ref back scoped to that episode |
| Coerce.CoerceProviderRefFromMediaType | src/ids/coerce.ts:84-91 | every reference returned is valid, and a number input is read as a tmdb ref of the media type's kind (movie for a movie, show for a series) when positive and as nothing otherwise |
| IdPrefixes.AppendEpisodeSuffix | src/ids/idPrefixes.ts:5-11 | the id is a prefix of the result, and the result is the id itself exactly when season or episode is missing |
| IdPrefixes.AppendEpisodeSuffixRoundTrip | src/ids/idPrefixes.ts:5-11 | a suffixed trimmed id parses back into that id and the two numbers |
| IdPrefixes.DedupedSpec | src/ids/idPrefixes.ts:13-23 | the deduplicated list has no repeats and holds exactly the non-empty values |
| IdPrefixes.Deduped | src/ids/idPrefixes.ts:13-23 | never longer than its input; `DedupedSpec` and `DedupedHead` state what it keeps and in what order |
| IdPrefixes.DedupedHead | src/ids/idPrefixes.ts:13-23 | a non-empty first value stays first |
| IdPrefixes.Dedupe | src/ids/idPrefixes.ts:13-23 | the `seen`-set loop returns the non-empty values in order of first occurrence |
| IdPrefixes.MatchesAnyPrefix | src/ids/idPrefixes.ts:25-30 | the loop answers true exactly when the value starts with some prefix |
| IdPrefixes.FirstMatching | src/ids/idPrefixes.ts:127-133 | nothing exactly when no candidate matches a prefix; otherwise the result is the first candidate that matches one, no earlier candidate matching |
| IdPrefixes.FirstMatchingAppend | src/ids/idPrefixes.ts:127-133 | appending a candidate changes the answer only when none of the earlier ones matched |
| IdPrefixes.DedupedFirstMatching | src/ids/idPrefixes.ts:125-133 | deduplicating non-empty candidates does not change which one is accepted first |
| IdPrefixes.NumericProviderOf | src/ids/idPrefixes.ts:38-47 | a prefix names a numeric provider only when its lower-cased text starts with that provider's name, and never imdb |
| IdPrefixes.ProvidersOf | src/ids/idPrefixes.ts:32-51 | imdb is never among the providers inferred from prefixes |
| IdPrefixes.ProvidersOfSpec | src/ids/idPrefixes.ts:37-48 | a provider is collected exactly when some prefix names it |
| IdPrefixes.InferredProvider | src/ids/idPrefixes.ts:32-51 | a provider is inferred exactly when the prefixes name one provider, and it is that one |
| IdPrefixes.InferNumericProvider | src/ids/idPrefixes.ts:32-51 | the set-collecting loop returns the inferred provider |
| IdPrefixes.Candidates | src/ids/idPrefixes.ts:94-123 | the candidate list is never empty and ends with the suffixed base id |
| IdPrefixes.CandidatesHead | src/ids/idPrefixes.ts:96-105 | the three IMDb forms come first when there is an IMDb id, else the two tmdb forms |
| IdPrefixes.CandidatesNotEmpty | src/ids/idPrefixes.ts:94-123 | no candidate of a non-empty base id is empty |
| IdPrefixes.IdForPrefixes | src/ids/idPrefixes.ts:75-76 | a blank input formats to nothing |
| IdPrefixes.FormatIdForIdPrefixes | src/ids/idPrefixes.ts:70-137 | the method, pushing, deduplicating and scanning, returns the specified id |
| IdPrefixes.PushCandidates | src/ids/idPrefixes.ts:94-123 | the pushes build the candidate list in its fixed order |
| IdPrefixes.PushNumber | src/ids/idPrefixes.ts:102-120 | one numeric id adds its `provider:id` and typed forms, or nothing when missing |
| IdPrefixes.FirstWithPrefix | src/ids/idPrefixes.ts:127-133 | the early-return scan returns the first candidate a prefix accepts |
| IdPrefixes.BareDigitsBase | src/ids/idPrefixes.ts:84-88 | a bare numeric base id formats exactly when the prefixes name one provider, as `provider:digits` with the suffix |
| IdPrefixes.NumericPathSpec | src/ids/idPrefixes.ts:84-88 | the numeric path answers exactly when one provider is named, under that provider |
| IdPrefixes.PrefixedResult | src/ids/idPrefixes.ts:125-133 | with prefixes, the result is the first candidate in push order that some prefix accepts, else nothing |
| IdPrefixes.CandidatePathTaken | src/ids/idPrefixes.ts:90-137 | outside the numeric path the result comes from the pushed candidates, none of them empty |
| IdPrefixes.UnprefixedResult | src/ids/idPrefixes.ts:136 | without prefixes the result is the first pushed candidate |
| IdPrefixes.NumericPathIgnoresPrefixShape | src/ids/idPrefixes.ts:84-88 | `550` under the prefix `TMDB:` formats to `tmdb:550`, which that prefix does not accept: the numeric path does not check the prefix |
| Router.ParseInput | src/routing/router.ts:48-59 | a ref input is itself; a text is accepted exactly when its suffix-stripped base id parses strictly, as that ref with the suffix attached when both numbers are present; an accepted text gives a valid ref |
| Router.ParseInputIsStrictCoercion | src/routing/router.ts:48-59 | a text the router accepts is read exactly as the strict step of `coerceProviderRef` reads it |
| Router.ParseInputFormatted | src/routing/router.ts:48-59 | the router reads the text of a formatted non-tvdb ref back as that ref |
| Router.ParseInputEpisode | src/routing/router.ts:50-56 | a formatted ref followed by `:season:episode` is read back scoped to that episode |
| Router.FormattedEpisodeSuffix | src/routing/router.ts:50 | the episode id built on a formatted ref splits back into the ref text and the two numbers |
| Router.ParseInputRejectsTvdb | src/routing/router.ts:51-52 | no formatted tvdb ref is accepted as text, so a tvdb start can only be passed as a ref |
| Router.FormattedHasNoSuffixAny | src/routing/router.ts:50 | the text of a tvdb ref has no episode suffix either |
| Router.Outgoing | src/routing/router.ts:70-75 | the edge list of a provider holds only resolvers registered from it |
| Router.OutgoingSpec | src/routing/router.ts:70-75 | a resolver is in a provider's edge list exactly when it is registered from that provider, and the list is in registration order |
| Router.LastRegisteredSpec | src/routing/router.ts:65-68 | a provider has an enricher exactly when one was registered for it, and the last one registered wins |
| Router.EnricherMapStep | src/routing/router.ts:66-68 | one `set` on the enricher map keeps it equal to the last registrations so far |
| Router.EdgeMapStep | src/routing/router.ts:71-75 | one push onto a provider's list keeps the edge map equal to the registrations so far |
| Router.Enqueued | src/routing/router.ts:88-117 | the queue of the search starts with the start ref |
| Router.Visited | src/routing/router.ts:89-116 | the start's provider is always visited |
| Router.VisitedEnqueued | src/routing/router.ts:88-117 | the visited providers are exactly the providers of the enqueued refs |
| Router.Extend | src/routing/router.ts:108-117 | a call adds its mapped result to the queue and its provider to the visited set, and a call with no mapping adds nothing |
| Router.EnqueuedOrigin | src/routing/router.ts:88-117 | every enqueued ref is the start or the result of a recorded call |
| Router.UnvisitedNeverMapped | src/routing/router.ts:89-116 | an unvisited provider is not the start's and no call mapped to it |
| Router.EnqueuedOnce | src/routing/router.ts:87-118 | when resolvers return their declared provider, each provider is enqueued at most once: one ref per provider |
| Router.FreshProvider | src/routing/router.ts:97-99 | a called resolver never leads to the provider of a ref already enqueued |
| Router.VisitedOrigin | src/routing/router.ts:89-116 | a visited provider is the start's or a mapped result's, and every mapped result's provider is visited |
| Router.NoPathEnd | src/routing/router.ts:121 | an UNRESOLVABLE end means the search was exhausted and no call threw or reached the target |
| Router.UnresolvableIsClosed | src/routing/router.ts:91-121 | after UNRESOLVABLE the target was never visited, and no resolver from an enqueued ref could lead outside the visited providers |
| Router.MediaRouter.constructor | src/routing/router.ts:61-75 | the edge lists are each provider's resolvers in registration order and the enricher map holds the last enricher of each provider |
| Router.MediaRouter.ResolveTo | src/routing/router.ts:77-122 | the result is the reference search `ResolveResult`: BAD_ID for text that does not parse and a start of the target returned, both without calls; otherwise the breadth-first search `BfsFrom` from the start; the trace obeys the search's rules |
| Router.MediaRouter.Search | src/routing/router.ts:87-121 | the result is `BfsFrom` from the start with only its provider visited, where `BfsFrom` and `ExpandFrom` dequeue refs in FIFO order, try their resolvers in registration order, skip visited targets, stop on a throw or the first result of the target provider, and enqueue every other mapped result; all calls are ones this search makes, and an ok result is of the target provider |
| Router.MediaRouter.Expand | src/routing/router.ts:92-118 | trying all resolvers of a dequeued ref gives what `ExpandFrom` gives from that ref: a stop with its result, or the queue and visited set with which `ExpandFrom` goes on |
| Router.MediaRouter.TryAt | src/routing/router.ts:97-117 | one resolver step agrees with one step of `ExpandFrom`: it skips visited targets, stops on a throw or on the target, and otherwise enqueues a mapped result, keeping the frontier |
| Router.MediaRouter.Enrich | src/routing/router.ts:124-140 | no enricher is UNSUPPORTED before any call; otherwise the resolution is the reference search `ResolveResult`, a failed one passed on unchanged, and a successful one gives the last registered enricher's details, or PROVIDER_ERROR if it throws |
| Router.FirstRegisteredWins | src/routing/router.ts:95-113 | with two resolvers imdb→tmdb that both map, the first registered one decides the answer |
| Router.FirstMappingToTargetWins | src/routing/router.ts:92-113 | when the first resolver of the start maps straight to the target, its result is the answer, whatever the other resolvers do |
| JsNumbers.Trunc | src/simkl/payloads.ts:86 | `Math.trunc`: the integer part, rounding toward zero |
| JsNumbers.TruncBetween | src/simkl/payloads.ts:86-87 | the truncated value lies in `lo..hi` exactly when the number lies in `[lo, hi + 1)` |
| Sorting.SortBy | src/stremio/continueWatching.ts:167-172 | the sort is a permutation of its input and ordered by the comparator's key |
| Sorting.SortByDistinct | src/stremio/continueWatching.ts:163 | sorting keeps items with pairwise different keys pairwise different |
| ContinueWatching.ClampPercent | src/stremio/continueWatching.ts:43-48 | the result lies in 0..100 |
| ContinueWatching.ComputeProgressPercent | src/stremio/continueWatching.ts:50-55 | progress lies in 0..100; it is 0 exactly when the clamped duration or time is 0, and 100 exactly when the watched time reaches a positive duration |
| ContinueWatching.ProgressMonotone | src/stremio/continueWatching.ts:50-55 | for one duration, more watched time never means less progress |
| ContinueWatching.StaleByDefault | src/stremio/continueWatching.ts:61-68 | with the default window, progress is stale exactly when it is more than 30 days (2592000000 ms) old |
| ContinueWatching.StaysStale | src/stremio/continueWatching.ts:61-68 | stale progress stays stale as the current time advances |
| ContinueWatching.IsStaleProgress | src/stremio/continueWatching.ts:61-68 | stale exactly for a non-finite time or an age above `staleAfterDays` days in milliseconds; its properties are `StaleByDefault` and `StaysStale` |
| ContinueWatching.ToContinueWatchingItem | src/stremio/continueWatching.ts:70-99 | nothing exactly for a blank id, a non-finite or stale time, or progress below the threshold; otherwise the entry's own fields with its progress, completed exactly from the threshold, never a placeholder, and the built episode id |
| ContinueWatching.ItemEpisodeId | src/stremio/continueWatching.ts:85 | an item's episode id parses back into the trimmed id and the episode numbers |
| ContinueWatching.DefaultThresholds | src/stremio/continueWatching.ts:71-82 | by default an item has at least 2% progress and is completed exactly from 85%, and any fresh entry with an id and 2% progress becomes an item |
| ContinueWatching.PickBetterCandidate | src/stremio/continueWatching.ts:107-136 | one of the two candidates is picked |
| ContinueWatching.RealBeatsPlaceholder | src/stremio/continueWatching.ts:109-111 | real progress beats a placeholder, in either order |
| ContinueWatching.ProgressDecides | src/stremio/continueWatching.ts:114-128 | for two movies or the same episode: the higher progress, and on equal progress the more recent |
| ContinueWatching.RecencyDecides | src/stremio/continueWatching.ts:131-135 | for other pairs: the more recent, and on equal times the higher progress |
| ContinueWatching.SameEpisode | src/stremio/continueWatching.ts:101-105 | two series items with episodes of equal season and number; never a movie or an item without an episode |
| ContinueWatching.PickBetterSymmetric | src/stremio/continueWatching.ts:107-136 | the order of the two candidates matters only on a full tie |
| ContinueWatching.Items | src/stremio/continueWatching.ts:147-148 | each entry's item, in entry order, none a placeholder |
| ContinueWatching.KeepCandidates | src/stremio/continueWatching.ts:149-153 | every kept item is present and not a completed movie, and every such item is kept |
| ContinueWatching.Candidates | src/stremio/continueWatching.ts:146-154 | no candidate is a placeholder or a completed movie |
| ContinueWatching.CandidateFromEntry | src/stremio/continueWatching.ts:146-154 | every candidate is the item of one of the entries |
| ContinueWatching.EntryIsCandidate | src/stremio/continueWatching.ts:146-154 | every entry that makes an item other than a completed movie is a candidate |
| ContinueWatching.GroupByContentSpec | src/stremio/continueWatching.ts:156-161 | the grouping holds one item per `type:id` key, each a candidate, every candidate's key present, and for movies the one of highest progress |
| ContinueWatching.GroupedValues | src/stremio/continueWatching.ts:156-163 | the grouped values have distinct keys, are candidates, and the merge sorts them |
| ContinueWatching.SortContinueWatching | src/stremio/continueWatching.ts:166-173 | a permutation with every in-progress item before every other, each group from most to least recently updated |
| ContinueWatching.MergedUniqueKeys | src/stremio/continueWatching.ts:156-163 | the merged list holds at most one item per `type:id` |
| ContinueWatching.MergedFromCandidates | src/stremio/continueWatching.ts:145-164 | every merged item is a candidate: no placeholder, no completed movie |
| ContinueWatching.MergedCoversCandidates | src/stremio/continueWatching.ts:156-163 | every title with a candidate is in the merged list |
| ContinueWatching.MergedBestMovie | src/stremio/continueWatching.ts:113-119 | a movie's merged item has the highest progress of all candidates for that title |
| ContinueWatching.MergedNewestEpisode | src/stremio/continueWatching.ts:142-161 | a series whose candidates are all for different episodes: its merged item is the most recently updated of them |
| ContinueWatching.MergeNewestEpisode | src/stremio/continueWatching.ts:142-161 | the same for a list of candidates |
| ContinueWatching.GroupNewestEpisode | src/stremio/continueWatching.ts:156-161 | the grouping keeps, for such a series, the candidate with the latest update |
| ContinueWatching.AddKeepsNewest | src/stremio/continueWatching.ts:156-161 | one grouping step keeps the latest item of a title when the new item is not compared by progress |
| ContinueWatching.MergedFurthestEpisode | src/stremio/continueWatching.ts:143-161 | a series whose candidates are all for one episode, from whatever sources: its merged item has the highest progress of them |
| ContinueWatching.MergeFurthestEpisode | src/stremio/continueWatching.ts:143-161 | the same for a list of candidates |
| ContinueWatching.GroupBestProgressEpisode | src/stremio/continueWatching.ts:156-161 | the grouping keeps, for such a series, the candidate with the most progress |
| ContinueWatching.AddKeepsFurthest | src/stremio/continueWatching.ts:156-161 | one grouping step keeps the furthest item of a title when the new item is compared by progress |
| ContinueWatching.KeptFrom | src/stremio/continueWatching.ts:156-161 | the item kept for a title is a candidate for that title, and every candidate's title is kept |
| ContinueWatching.MergeDependsOnOrder | src/stremio/continueWatching.ts:107-161 | with episode 1 at times 10 and 5 (progress 50 and 90) and episode 2 at time 7, the order A, B, C keeps episode 2 and the order A, C, B keeps the progress-90 episode 1: mixed inputs depend on order |
| ContinueWatching.MergedFromEntries | src/stremio/continueWatching.ts:145-164 | every merged item is the item of one of the entries |
| ContinueWatching.MergeContinueWatching | src/stremio/continueWatching.ts:145-164 | the two loops and the sort return the merged list, with unique keys and no completed movie |
| ContinueWatching.CollectCandidates | src/stremio/continueWatching.ts:146-154 | the first loop collects exactly the candidates |
| ContinueWatching.GroupCandidates | src/stremio/continueWatching.ts:156-161 | the second loop builds the grouping in first-seen key order |
| ContinueWatching.ToEpisodeNumber | src/stremio/continueWatching.ts:191-197 | an episode number exactly when both numbers are present and positive, and then those numbers |
| ContinueWatching.Numbered | src/stremio/continueWatching.ts:210-217 | only positively numbered videos are kept |
| ContinueWatching.NumberedMembers | src/stremio/continueWatching.ts:210-217 | a numbered video comes from a video with those numbers and that release date, and back |
| ContinueWatching.FirstEligible | src/stremio/continueWatching.ts:221-228 | the first eligible position, or nothing when none is eligible |
| ContinueWatching.UpNext | src/stremio/continueWatching.ts:202-229 | the next episode comes after the given one and has positive numbers |
| ContinueWatching.UpNextSpec | src/stremio/continueWatching.ts:202-229 | nothing exactly when no video is eligible (after the episode, released by now, not watched); otherwise an eligible video's numbers, with no eligible video before them |
| ContinueWatching.FindUpNextEpisode | src/stremio/continueWatching.ts:202-229 | the sort-and-scan method returns the smallest eligible episode, nothing exactly when none is eligible |
| ContinueWatching.CreateUpNextPlaceholder | src/stremio/continueWatching.ts:234-259 | nothing exactly without a next episode or with a blank show id; otherwise a zero-progress series placeholder for that episode, never in progress nor completed, whose episode id parses back into show and episode |
| ContinueWatching.ParseReleasedToMs | src/stremio/continueWatching.ts:180-184 | a time exactly when the date is present, non-empty and parses to a finite time, and then that time |
| ContinueWatching.EpisodeKeyInjective | src/stremio/continueWatching.ts:56-58 | two positive episode numbers have the same `season:episode` key exactly when they are equal, so a watched key rules out one episode only |
| StremioParse.AsStringArray | src/stremio/parse.ts:30-34 | a list is returned only when non-empty, and every entry is a trimmed, non-empty string |
| StremioParse.TrimmedStrings | src/stremio/parse.ts:32 | the kept strings are trimmed and non-empty |
| StremioParse.NormalizeType | src/stremio/parse.ts:36-40 | a non-empty type string is normalised, and only a missing or empty one falls back to the default |
| StremioParse.RejectedTypeIgnoresDefault | src/stremio/parse.ts:36-40 | an unknown type string is rejected even when a default type is given |
| StremioParse.RecordId | src/stremio/parse.ts:48-73 | the id is non-empty exactly for a number or a non-blank string, and then it is the normalised Stremio id |
| StremioParse.NumberRecordId | src/stremio/parse.ts:50-73 | a positive numeric id becomes `tmdb:N` |
| StremioParse.ParseStremioMetaPreview | src/stremio/parse.ts:65-114 | a preview exactly for a record with a non-empty id, a resolvable type and a non-blank name, carrying that id, type and trimmed name |
| StremioParse.EmptyNameHidesTitle | src/stremio/parse.ts:79-80 | an empty string `name` wins over `title`, so the record is rejected |
| StremioParse.ParseStremioVideo | src/stremio/parse.ts:116-151 | a video exactly for a record with a non-empty id; season and episode are the numeric fields, else those of the id's suffix |
| StremioParse.VideoWithId | src/stremio/parse.ts:124-151 | a video exactly for a non-empty id, with season and episode taken from the fields first and the suffix second |
| StremioParse.ImdbEpisodeRecordId | src/stremio/parse.ts:124 | an IMDb episode id `tt…:s:e` is its own record id |
| StremioParse.ImdbEpisodeSuffix | src/stremio/parse.ts:135 | an IMDb episode id splits into the IMDb id and the two numbers |
| StremioParse.VideoNumbersFromSuffix | src/stremio/parse.ts:135-137 | without numeric fields, season and episode come from the id's suffix |
| StremioParse.VideoNumbersFromId | src/stremio/parse.ts:116-151 | a record whose id is `tt…:s:e` and that has no numeric fields becomes a video of that id, season and episode |
| StremioParse.DedupedMetas | src/stremio/parse.ts:54-63 | deduplication keeps the set of ids |
| StremioParse.FirstIndex | src/stremio/parse.ts:58 | the index of the first item with an id: that item has the id and none before it does |
| StremioParse.DedupedMetasFirst | src/stremio/parse.ts:54-63 | each kept item is the first item with its id |
| StremioParse.DedupedMetasOrder | src/stremio/parse.ts:54-63 | kept ids are pairwise different and in order of first occurrence |
| StremioParse.DedupedMetasIncreasing | src/stremio/parse.ts:54-63 | the first-occurrence indices of the kept items strictly increase |
| StremioParse.DedupedMetasSpec | src/stremio/parse.ts:54-63 | the same ids, no repeats, the first item of each id, order of first occurrence |
| StremioParse.DedupeStremioMetas | src/stremio/parse.ts:54-63 | the `seen`-set loop returns the deduplicated list: no repeated id, the same ids |
| StremioParse.ParseStremioCatalogResponse | src/stremio/parse.ts:194-199 | a catalog exactly for a record with a `metas` array, holding its valid previews deduplicated |
| StremioParse.CatalogSpec | src/stremio/parse.ts:194-199 | no catalog id repeats, the ids are those of the valid previews, and each entry is one of them |
| StremioParse.PreviewsAppend | src/stremio/parse.ts:197 | parsing a list distributes over concatenation, so input order is kept |
| StremioParse.NonEmptyList | src/stremio/parse.ts:181-182 | a list is kept exactly when it is non-empty |
| StremioParse.ParseStremioMeta | src/stremio/parse.ts:153-185 | a meta exactly when the preview is valid, carrying that preview and the parsed videos when there is at least one |
| StremioParse.ParseStremioMetaResponse | src/stremio/parse.ts:187-192 | a response exactly for a record whose `meta` parses |
| StremioParse.ParseStream | src/stremio/parse.ts:207-222 | a stream exactly for a record with a non-blank string name, stored trimmed |
| StremioParse.Streams | src/stremio/parse.ts:205-223 | never more streams than inputs, each with a trimmed non-empty name |
| StremioParse.StreamsAppend | src/stremio/parse.ts:205-223 | stream parsing distributes over concatenation |
| StremioParse.ParseStremioStreamResponse | src/stremio/parse.ts:201-226 | the loop returns the parsed streams exactly for a record with a `streams` array |
| StremioParse.ParseSubtitle | src/stremio/parse.ts:234-239 | a subtitle exactly for a record with non-blank url and lang, both trimmed, with its id when non-empty |
| StremioParse.Subtitles | src/stremio/parse.ts:232-240 | never more subtitles than inputs, each with a non-empty url and lang |
| StremioParse.SubtitlesAppend | src/stremio/parse.ts:232-240 | subtitle parsing distributes over concatenation |
| StremioParse.ParseStremioSubtitlesResponse | src/stremio/parse.ts:228-243 | the loop returns the parsed subtitles exactly for a record with a `subtitles` array |
| UrlPatterns.BeforeSlash | src/simkl/images.ts:2 | the host part a `(?:\/\|$)`-terminated match can span: the text before the first `/` |
| UrlPatterns.TrailingLetters | src/simkl/images.ts:2 | the run of ASCII letters that ends the host, which `[a-z]{2,}` must match in full |
| UrlPatterns.HttpsLead | src/simkl/images.ts:1 | a string that starts with `https://` matches the scheme pattern |
| SimklImages.EnsureBaseUrl | src/simkl/images.ts:21-24 | the trimmed base, less one trailing `/` when it has one |
| SimklImages.CleanBase | src/simkl/images.ts:21-24 | a trimmed base without a trailing `/` is kept as it is |
| SimklImages.DefaultBasesClean | src/simkl/images.ts:4-24 | both default bases are kept as they are |
| SimklImages.BaseUrlChoice | src/simkl/images.ts:56-60 | the base is the proxy base (or its default) with `useProxy`, else the origin base (or its default), through `ensureBaseUrl` |
| SimklImages.Slashes | src/simkl/images.ts:31 | every backslash becomes `/` and nothing else changes |
| SimklImages.SanitizePath | src/simkl/images.ts:26-33 | nothing exactly for a blank path; otherwise the trimmed path with backslashes replaced and one leading `/` dropped, free of backslashes |
| SimklImages.SanitizeNoop | src/simkl/images.ts:26-33 | a trimmed path without backslash or leading `/` is already sanitised |
| SimklImages.ImageUrlDefined | src/simkl/images.ts:43-82 | a URL is built for every path except a blank one and a lone backslash |
| SimklImages.UrlOfDefined | src/simkl/images.ts:52-82 | of the trimmed, non-blank inputs only a lone backslash gives no URL |
| SimklImages.BackslashGoesUnderBase | src/simkl/images.ts:52-54 | a lone backslash is not absolute, protocol-relative or host-like |
| SimklImages.UnderBaseDefined | src/simkl/images.ts:62-82 | under the base, only a lone backslash gives no URL, as it sanitises to the empty path |
| SimklImages.AbsolutePaths | src/simkl/images.ts:52-54 | an http(s) URL passes through, `//host` gets `https:` and a host-like path gets `https://` |
| SimklImages.RelativeTail | src/simkl/images.ts:69-81 | a category-prefixed path is kept alone; any other starts with `<category>/<path>`, and a file name gets nothing after it |
| SimklImages.BuildSimklImageUrl | src/simkl/images.ts:43-82 | nothing for a blank path; every URL is an http(s) URL or lies under `<base>/` |
| SimklImages.UrlOf | src/simkl/images.ts:52-82 | every URL is an http(s) URL or lies under `<base>/`; an input that is none of the absolute forms is resolved under the base |
| SimklImages.UrlUnderBase | src/simkl/images.ts:56-81 | every URL built under the base starts with `<base>/` |
| SimklImages.RootedPathUrl | src/simkl/images.ts:62-64 | a rooted path that is not absolute becomes `<base>` followed by the path |
| SimklImages.CategoryPathUrl | src/simkl/images.ts:66-72 | a sanitised path that already names a category becomes `<base>/<path>` |
| SimklImages.FileNameUrl | src/simkl/images.ts:74-77 | a sanitised file name becomes `<base>/<category>/<path>`, with no variant and no format |
| SimklImages.RelativePathsUnderBase | src/simkl/images.ts:56-81 | every relative path's URL lies under the chosen base |
| SimklImages.BareShape | src/simkl/images.ts:49-75 | an API-style bare path is trimmed, not absolute, not host-like and has no extension |
| SimklImages.BarePathUrl | src/simkl/images.ts:79-81 | a bare path becomes `<base>/<category>/<path>_<variant>.<format>`, with webp by default |
| SimklImages.PosterDefault | src/simkl/images.ts:84-86 | a poster defaults to the `ca` variant |
| SimklImages.FanartDefault | src/simkl/images.ts:88-90 | a fanart defaults to the `mobile` variant |
| SimklImages.EpisodeDefault | src/simkl/images.ts:92-94 | an episode image defaults to the `w` variant |
| SimklImages.AvatarNoVariant | src/simkl/images.ts:96-98 | an avatar never has a variant suffix |
| SimklImages.BuildSimklPosterUrl | src/simkl/images.ts:84-86 | no URL exactly for a blank path or a lone backslash; a bare path is `<base>/posters/<path>_<variant>.<format>`, with `ca` and webp by default |
| SimklImages.BuildSimklFanartUrl | src/simkl/images.ts:88-90 | no URL exactly for a blank path or a lone backslash; a bare path is `<base>/fanart/<path>_<variant>.<format>`, with `mobile` and webp by default |
| SimklImages.BuildSimklEpisodeImageUrl | src/simkl/images.ts:92-94 | no URL exactly for a blank path or a lone backslash; a bare path is `<base>/episodes/<path>_<variant>.<format>`, with `w` and webp by default |
| SimklImages.BuildSimklAvatarUrl | src/simkl/images.ts:96-98 | no URL exactly for a blank path or a lone backslash |
| SimklImages.DefaultBase | src/simkl/images.ts:4-59 | the default options use the Simkl origin |
| SimklImages.UrlsFor | src/simkl/images.ts:102-107 | never more URLs than variants |
| SimklImages.UrlsForAll | src/simkl/images.ts:102-107 | when every variant builds, the list has one URL per variant in variant order |
| SimklImages.UrlsForNone | src/simkl/images.ts:102-107 | when no variant builds, the list is empty |
| SimklImages.CollectUrls | src/simkl/images.ts:102-107 | the loop appends each variant's URL when one is built |
| SimklImages.BuildSimklPosterUrls | src/simkl/images.ts:100-108 | the poster list is the collected URLs of `cm, c, ca, m, s` |
| SimklImages.BuildSimklFanartUrls | src/simkl/images.ts:110-118 | the fanart list is the collected URLs of `s48, w, mobile, medium, d` |
| SimklImages.PosterUrlsSpec | src/simkl/images.ts:100-108 | five poster URLs, one per variant in order, for every path a URL can be built for, and none otherwise |
| SimklImages.FanartUrlsSpec | src/simkl/images.ts:110-118 | five fanart URLs, one per variant in order, for every path a URL can be built for, and none otherwise |
| SimklImages.ExamplePosterUrl | src/simkl/images.ts:84-86 | the sample API path builds to `https://simkl.in/posters/<path>_ca.webp` by default |
| SimklPayloads.TrimmedText | src/simkl/payloads.ts:23-82 | a value is kept exactly when it is a non-blank string, and then trimmed |
| SimklPayloads.NormalizeIdsForPayload | src/simkl/payloads.ts:43-64 | only positive Simkl and TMDB ids, the IMDb id exactly as `normalizeImdbId` gives it (a canonical id or nothing) and the trimmed slug reach the payload |
| SimklPayloads.ImdbReachesPayload | src/simkl/payloads.ts:32-57 | an IMDb id that passes validation reaches the payload lower-cased |
| SimklPayloads.ValidIdsGivePayloadIds | src/simkl/payloads.ts:27-64 | ids that pass validation leave at least one id in the payload |
| SimklPayloads.TvdbAndTraktAloneInvalid | src/simkl/payloads.ts:27-35 | TVDB and Trakt ids alone do not pass validation |
| SimklPayloads.PrefixedImdbRejected | src/simkl/payloads.ts:32-54 | an `imdb:`-prefixed IMDb id fails validation although the payload normaliser would accept it |
| SimklPayloads.RatingAcceptedRange | src/simkl/payloads.ts:85-90 | a finite rating is accepted exactly when it lies in `[1, 11)` |
| SimklPayloads.MemoOf | src/simkl/payloads.ts:97-99 | a memo is written exactly for a non-blank text, trimmed, private only when `isPrivate` is true |
| SimklPayloads.BuildSimklHistoryAddPayload | src/simkl/payloads.ts:78-112 | the invalid-ids error first, then the rating error; otherwise one item in the list of its type with the payload ids, and for a movie the trimmed dates, the truncated rating in 1..10 and the memo, for a show its status, for an episode its date |
| SimklPayloads.RatingOnlyForMovies | src/simkl/payloads.ts:85-111 | an accepted rating is checked for every type but written only for movies |
| SimklPayloads.GetSimklIdsObject | src/simkl/payloads.ts:74-76 | the ids read from a media id are valid |
| SimklPayloads.TryBuildSimklHistoryAddPayloadFromId | src/simkl/payloads.ts:114-122 | a payload exactly when the builder would not throw, and then the builder's payload |
| SimklPayloads.BuildSimklShowEpisodeHistoryAddPayload | src/simkl/payloads.ts:124-151 | the invalid-ids error first, then an error for a non-finite or non-positive number; otherwise one show with one season of the truncated number holding the truncated episode and the trimmed date |
| SimklPayloads.BuildSimklHistoryRemovePayload | src/simkl/payloads.ts:153-169 | an error exactly for invalid ids; otherwise one item in the list of its type carrying only the payload ids |
| SimklPayloads.RemoveIsBareAdd | src/simkl/payloads.ts:78-169 | a removal body is the add body built without options |
| SimklPayloads.TryBuildSimklHistoryRemovePayloadFromId | src/simkl/payloads.ts:171-179 | a payload exactly when the builder would not throw, and then the builder's payload |
| SimklPayloads.RemoveByNumber | src/simkl/payloads.ts:171-179 | a positive numeric id is removed as a TMDB id |
| SimklPayloads.BuildSimklShowEpisodeHistoryRemovePayload | src/simkl/payloads.ts:181-206 | invalid ids, then the season, then the episode are refused in that order; otherwise one show with one season of the truncated number, and the truncated episode exactly when one is given |
| SimklPayloads.EpisodeRemoveMatchesAdd | src/simkl/payloads.ts:124-206 | removing one episode sends the same body as marking it watched without a date |
| SimklPayloads.FractionalSeasonWrittenAsZero | src/simkl/payloads.ts:126-188 | a season of 0.5 passes the guard and is written as season 0 |
| SimklPayloads.BuildCheckedShowEpisodeAddPayload | src/simkl/payloads.ts:124-151 | with the guard the error message describes, every accepted payload has season and episode at least 1, and agrees with the source's builder wherever it accepts |
| SimklPayloads.BuildCheckedShowEpisodeRemovePayload | src/simkl/payloads.ts:181-206 | with the guard the error messages describe, every accepted payload has season (and episode) at least 1, and agrees with the source's builder wherever it accepts |
| TraktScrobble.BuildWatchingKey | src/trakt/scrobble.ts:8-20 | a movie key is `movie:` and the base id; a series key is `episode:` and the base id, with `:<season>:<episode>` only when both are given and positive |
| TraktScrobble.WatchingKeyRoundTrip | src/trakt/scrobble.ts:8-16 | a series key with positive numbers is `episode:` and a Stremio episode id that parses back to the base id and both numbers |
| TraktScrobble.KindsNeverCollide | src/trakt/scrobble.ts:12-19 | a series key and a movie key for the same id always differ |
| TraktScrobble.GetTraktIdsObject | src/trakt/scrobble.ts:22-25 | the ids read from a media id are valid |
| TraktScrobble.SingleIdsValid | src/trakt/scrobble.ts:27-36 | a positive Trakt, TMDB or TVDB id, an IMDb id or a non-blank slug alone passes validation, a Simkl id alone does not |
| TraktScrobble.NumberIdValid | src/trakt/scrobble.ts:22-36 | a positive numeric media id becomes a TMDB id and passes validation |
| TraktPayloads.MakeSyncPayload | src/trakt/payloads.ts:13-21 | exactly the list the item type names is present, and it holds the ids as its one item |
| TraktPayloads.MakeSyncPayloadInjective | src/trakt/payloads.ts:13-21 | equal payloads come from the same item type and the same ids |
| TraktPayloads.BuildTraktSyncPayload | src/trakt/payloads.ts:7-26 | fails exactly for ids that do not pass validation, with the message naming the context; otherwise the sync payload of the ids |
| TraktPayloads.TryBuildTraktSyncPayloadFromId | src/trakt/payloads.ts:28-32 | a payload exactly when the builder would not throw, and then the builder's payload |
| TraktPayloads.SyncByNumber | src/trakt/payloads.ts:28-32 | a positive numeric id always gives a payload carrying it as the TMDB id |
| TraktPayloads.RatedAt | src/trakt/payloads.ts:40 | the rating date is written exactly when it is a non-empty string |
| TraktPayloads.BuildTraktRatingPayload | src/trakt/payloads.ts:34-49 | the invalid-ids error first, then the rating error for a non-finite rating or one outside `[1, 10]`; otherwise exactly the list of its type, holding one item with the ids, the rating unrounded and the date |
| TraktPayloads.TryBuildTraktRatingPayloadFromId | src/trakt/payloads.ts:51-56 | a payload exactly for valid ids and a valid rating, and then the builder's payload |
| TraktNormalize.SchemeRelativeJoin | src/trakt/normalize.ts:50-52 | a scheme-relative `//host/path` given `https:` is a trimmed absolute URL |
| TraktNormalize.SlashHttpJoin | src/trakt/normalize.ts:54-56 | a `/http…` value with its slash dropped and `https:` in front is trimmed text |
| TraktNormalize.HttpsSchemeJoin | src/trakt/normalize.ts:58-68 | `https://` followed by text not ending in a space is a trimmed absolute URL |
| TraktNormalize.ResolveSlashPath | src/trakt/normalize.ts:50-64 | a path starting with `/` always resolves, to an absolute URL unless it starts with `/http`: `//…` to `https:` plus the path, `/http…` to `https:` plus the path without its slash, `/images…` to `https://walter.trakt.tv` plus the path, any other to `https://image.tmdb.org/t/p/original` plus the path |
| TraktNormalize.ResolveImageUrl | src/trakt/normalize.ts:46-70 | an absolute URL is kept as is; a `/` value resolves by the `/` rules; a value starting with a host name takes `https://`; nothing resolves exactly when the value is neither an absolute URL, nor starts with `/`, nor starts with a host name |
| TraktNormalize.NormalizeImageUrl | src/trakt/normalize.ts:36-71 | nothing for an absent or blank value; otherwise the trimmed value resolved by the rules in their order (absolute URL kept, the four `/` rules, then the host-name rule); every `/` path resolves; every result is trimmed text and absolute unless it came from the `/http` rule |
| TraktNormalize.NormalizeImageUrlIdempotent | src/trakt/normalize.ts:36-71 | an absolute URL the normaliser produces is unchanged by a second pass |
| TraktNormalize.SlashHttpKeepsScheme | src/trakt/normalize.ts:54-56 | `/https://h` becomes `https:https://h`, which is not an absolute URL |
| TraktNormalize.SlashNotHttp | src/trakt/normalize.ts:5-62 | a value starting with `/` never matches the http(s) pattern |
| TraktNormalize.DoubledSchemeNotHttp | src/trakt/normalize.ts:5 | `https:https://…` never matches the http(s) pattern |
| TraktNormalize.Candidate | src/trakt/normalize.ts:94-113 | the candidate of an image record is trimmed text |
| TraktNormalize.CandidatePriority | src/trakt/normalize.ts:94-95 | the first non-blank of `full`, `medium`, `thumb` and `url` is the candidate |
| TraktNormalize.UnresolvedFullHidesMedium | src/trakt/normalize.ts:94-100 | a `full` that does not resolve gives nothing for that record, whatever `medium` holds |
| TraktNormalize.EntryUrl | src/trakt/normalize.ts:80-100 | the URL of one array entry is trimmed text |
| TraktNormalize.FirstEntryUrl | src/trakt/normalize.ts:79-103 | nothing exactly when no entry yields a URL; a URL is trimmed text |
| TraktNormalize.FirstEntryUrlAt | src/trakt/normalize.ts:79-101 | the first entry that yields a URL decides the result |
| TraktNormalize.FirstImage | src/trakt/normalize.ts:73-114 | every image value found is trimmed text |
| TraktNormalize.FirstImageValue | src/trakt/normalize.ts:73-114 | the method with its loop returns the image the specification function describes |
| TraktNormalize.FirstArrayImage | src/trakt/normalize.ts:78-104 | the loop returning at the first usable entry gives the first entry's URL, or nothing |
| TraktNormalize.ExtractImages | src/trakt/normalize.ts:116-144 | poster and logo are the first image of their own fields, backdrop the first of `fanart` and thumbnail the first of `thumb`; no other artwork; no images record gives no artwork |
| TraktNormalize.ExtractIds | src/trakt/normalize.ts:146-175 | Trakt and TMDB ids are the non-zero finite numbers read; the IMDb id is the normalised string; the slug is the trimmed string; no TVDB or Simkl id; no ids from a non-record |
| TraktNormalize.ExtractIdsImdb | src/trakt/normalize.ts:164-167 | a canonical IMDb id, bare or behind `imdb:`, is kept as it is |
| TraktNormalize.ExtractEpisodeInfo | src/trakt/normalize.ts:183-220 | episode details exactly when both season and number are non-zero numbers, holding them and the title |
| TraktNormalize.TitleOf | src/trakt/normalize.ts:234-284 | the title read, or `Unknown title`, is trimmed text |
| TraktNormalize.ItemId | src/trakt/normalize.ts:319-336 | an episode is keyed by the show's canonical id, with `:<season>:<episode>` when the episode is known; anything else by its own canonical id; never empty |
| TraktNormalize.CanonicalWithFallback | src/trakt/normalize.ts:324-335 | a trimmed fallback always gives a canonical id |
| TraktNormalize.EpisodeAssembly | src/trakt/normalize.ts:248-333 | an episode item keeps the show's ids, title and artwork, takes the episode's thumbnail before the show's, and is keyed by the show |
| TraktNormalize.EpisodeItem | src/trakt/normalize.ts:248-278 | the `episode` branch meets `EpisodeFrom`: the show's ids, the episode's ids, the show's title before the episode's (else `Unknown title`), the show's artwork with the episode's thumbnail first, the episode numbers, and the key `<show id>:<season>:<episode>` when they are known |
| TraktNormalize.PlainItem | src/trakt/normalize.ts:279-335 | the show, movie and flat branches: the record's ids, artwork and title (else `Unknown title`), no episode fields, keyed by their own canonical id |
| TraktNormalize.NormalizeTraktItem | src/trakt/normalize.ts:222-399 | an item exactly for a record; `episode` wins over `show`, which wins over `movie`; the episode branch meets `EpisodeFrom`, each other branch `PlainFrom` for its record (the item's ids, title, artwork and canonical id), the flat one typed by `ExtractMediaType`; id and title are never empty; only a movie item has the movie type |
| TraktNormalize.ExtractMediaType | src/trakt/normalize.ts:177-181 | a series exactly when the `type` is show, tv or series in any case and with spaces around it; anything else, or none, is a movie |
| TraktNormalize.EpisodeKeyedByShowTmdb | src/trakt/normalize.ts:252-327 | an episode of a show known only by TMDB id `n` is keyed `tmdb:<n>:<season>:<episode>`, whatever the episode's own ids |
| SimklNormalize.SimklTypeOfName | src/simkl/normalize.ts:60-63 | a type exactly for the four names `movie`, `tv`, `anime`, `episode`, each as itself |
| SimklNormalize.NormalizeSimklType | src/simkl/normalize.ts:57-64 | a type exactly when the trimmed, lower-cased value is one of the four names, and then that name |
| SimklNormalize.SimklTypeNameRoundTrip | src/simkl/normalize.ts:57-64 | every type's name is read back as that type |
| SimklNormalize.NormalizeSimklTypeIgnoresCase | src/simkl/normalize.ts:59 | the type is read case-insensitively |
| SimklNormalize.NumberLikeDigits | src/simkl/normalize.ts:27-40 | a string of digits reads as its value |
| SimklNormalize.PositiveId | src/simkl/normalize.ts:89-105 | a TMDB or TVDB id exactly when the number, or the `parseInt` of the trimmed string, is positive, and then that value |
| SimklNormalize.SimklIdOf | src/simkl/normalize.ts:79-87 | the Simkl id is read from `simkl` unless it is null or absent, and only then from `simkl_id` |
| SimklNormalize.SimklIdNoFallbackOnZero | src/simkl/normalize.ts:79-80 | a `simkl` of 0 gives no Simkl id, whatever `simkl_id` holds |
| SimklNormalize.ExtractIds | src/simkl/normalize.ts:70-118 | valid ids, never a Trakt id, the slug trimmed; no ids from a non-record; otherwise the Simkl, TMDB and TVDB rules above |
| SimklNormalize.ExtractIdsNumericString | src/simkl/normalize.ts:89-96 | a TMDB id sent as a string of digits is read as that number |
| SimklNormalize.ExtractIdsImdb | src/simkl/normalize.ts:107-110 | a canonical IMDb id, bare or behind `imdb:`, is kept as it is |
| SimklNormalize.PosterImages | src/simkl/normalize.ts:123-134 | a poster and five poster variants exactly for a path other than a lone backslash |
| SimklNormalize.FanartImages | src/simkl/normalize.ts:136-147 | a backdrop and five fanart variants exactly for a path other than a lone backslash |
| SimklNormalize.ImagesFromPaths | src/simkl/normalize.ts:120-150 | only poster, posters, backdrop and backdrops are set, the poster and backdrop being the default-variant URLs of their paths, each list with five entries exactly when its single image is set |
| SimklNormalize.ExtractImages | src/simkl/normalize.ts:120-150 | a poster exactly for a `poster` path other than a lone backslash, built with the default `ca` variant, with its five variants; the same for a backdrop from `fanart` with `mobile`; no other artwork |
| SimklNormalize.ExtractEpisodeInfo | src/simkl/normalize.ts:152-167 | episode details exactly when season and episode number (`episode`, else `number`) are both non-zero, holding them and the title |
| SimklNormalize.EpisodeNumberFallback | src/simkl/normalize.ts:156 | `number` stands in for an absent `episode` |
| SimklNormalize.EpisodeZeroHidesNumber | src/simkl/normalize.ts:156-157 | an `episode` of 0 is not skipped by `??`, so there is no episode |
| SimklNormalize.SelectBranch | src/simkl/normalize.ts:179-246 | `episode` wins over `show`, which wins over `movie`, else the flat record; each branch's type, and the ids, title and artwork of the record it reads; an episode keeps the show's ids, title and artwork |
| SimklNormalize.SimklItemId | src/simkl/normalize.ts:248-253 | the canonical id with the fallback, with `:<season>:<episode>` for an episode that has one; never empty |
| SimklNormalize.ItemTitle | src/simkl/normalize.ts:183-215 | the branch's title, else the item's own, else `Unknown title`, always trimmed text |
| SimklNormalize.PlaybackSession | src/simkl/normalize.ts:302-307 | a playback id exactly for a movie or an episode with a non-zero `id`, a `paused_at` and a progress |
| SimklNormalize.Assemble | src/simkl/normalize.ts:248-309 | the record keeps the branch's type, ids, artwork and episode; its title and id follow the rules above; the playback id as above |
| SimklNormalize.NormalizeSimklItem | src/simkl/normalize.ts:169-310 | an item exactly for a record; trimmed title and non-empty id; only a movie item has the movie type; the show, movie and flat branches hold their record's ids and artwork and its title (else the item's, else `Unknown title`), the flat branch with the detected type or movie; an episode holds the show's ids, artwork and title and is keyed by the show's canonical id with its numbers |
| SimklNormalize.EpisodeKeyedByShowImdb | src/simkl/normalize.ts:195-253 | an episode of a show with IMDb id `c` is keyed `c:<season>:<episode>`, whatever the titles and other ids |
| TmdbNormalize.ReleasedDate | src/tmdb/normalize.ts:113-123 | a movie detail's release date, else a show detail's first air date, else nothing |
| TmdbNormalize.HttpsPrefixed | src/tmdb/normalize.ts:20-32 | a URL built behind `https://` is an absolute web URL |
| TmdbNormalize.SchemeRelativePrefixed | src/tmdb/normalize.ts:24-26 | a scheme-relative path given `https:` is an absolute web URL |
| TmdbNormalize.ToImageUrl | src/tmdb/normalize.ts:15-33 | nothing exactly for an empty path or one that is neither an http(s) URL nor starts with `/`; every result is an absolute web URL; an http(s) URL is kept as it is, `//…` gets `https:`, and any other `/` path goes under the image host after the size segment |
| TmdbNormalize.ToImageUrlIdempotent | src/tmdb/normalize.ts:15-33 | a URL produced is returned unchanged at any size |
| TmdbNormalize.RootPathUrl | src/tmdb/normalize.ts:28-32 | a root-relative path always resolves, to `https://image.tmdb.org/t/p/<size><path>` |
| TmdbNormalize.ParseYear | src/tmdb/normalize.ts:43-50 | nothing for an absent value or one shorter than four characters; otherwise the `parseInt` of the first four characters, when positive |
| TmdbNormalize.ParseYearOfDate | src/tmdb/normalize.ts:43-50 | a date starting with four digits of a positive year gives that year |
| TmdbNormalize.LogoChoice | src/tmdb/normalize.ts:52-86 | the first English svg, English png, English logo, svg, png, then any logo, each counted only when it has a file path; the choice is one of the logos |
| TmdbNormalize.SelectLogo | src/tmdb/normalize.ts:52-86 | the logo URL is the original-size URL of the `LogoChoice` logo, nothing when there is no choice; an absolute web URL of one of the logos; nothing without logos |
| TmdbNormalize.PathlessEnglishSvgHidesAll | src/tmdb/normalize.ts:59-63 | when the first English svg has no path, no English svg is chosen at all |
| TmdbNormalize.MapImageAssets | src/tmdb/normalize.ts:88-98 | nothing exactly when the list is missing or no path resolves; otherwise a non-empty list of absolute web URLs holding every resolvable asset's URL |
| TmdbNormalize.TrailerKey | src/tmdb/normalize.ts:159-168 | the key of the first YouTube trailer when it has one; otherwise (no trailer, or a keyless one) the key of the first YouTube video; nothing without YouTube videos |
| TmdbNormalize.TrailerBeatsEarlierClips | src/tmdb/normalize.ts:161-164 | the first keyed YouTube trailer wins over earlier YouTube videos |
| TmdbNormalize.KeylessTrailerFallsBack | src/tmdb/normalize.ts:161-167 | a first trailer without a key falls back to the first YouTube video, not a later trailer |
| TmdbNormalize.MovieCertFrom | src/tmdb/normalize.ts:128-135 | a country's certification is trimmed text from a release of an entry with that code |
| TmdbNormalize.AllReleaseDates | src/tmdb/normalize.ts:137 | the flattened list holds exactly the releases of every country |
| TmdbNormalize.MovieCertification | src/tmdb/normalize.ts:126-138 | US first, then GB, then the certification of the first release that has one; a certification exactly when some release has one; never empty |
| TmdbNormalize.SeriesCertFrom | src/tmdb/normalize.ts:142-145 | a country's rating is the trimmed rating of the first entry with that code |
| TmdbNormalize.SeriesCertification | src/tmdb/normalize.ts:140-148 | US first, then GB, then the rating of the first country that has one; a rating exactly when some country has one; never empty |
| TmdbNormalize.BlankUsRatingFallsToGb | src/tmdb/normalize.ts:143-147 | a blank US rating gives way to the GB rating |
| TmdbNormalize.Certification | src/tmdb/normalize.ts:125-151 | a certification only for a movie detail read as a movie or a show detail read as a series, never empty |
| TmdbNormalize.Person | src/tmdb/normalize.ts:178-198 | a credit keeps id, name and order; the role only when non-empty; the profile as an absolute web URL |
| TmdbNormalize.Cast | src/tmdb/normalize.ts:176-201 | nothing exactly for no cast; otherwise the first ten members, in order, as credits |
| TmdbNormalize.LanguageCodes | src/tmdb/normalize.ts:203-210 | nothing exactly when no code is non-blank; otherwise each non-blank code once, the first code first |
| TmdbNormalize.CodesDeduped | src/tmdb/normalize.ts:205-209 | the deduplicated codes have no repeats, are exactly the entries' codes and start with the first |
| TmdbNormalize.CodesMembers | src/tmdb/normalize.ts:205-209 | a code is kept exactly when some entry has it and it is not blank |
| TmdbNormalize.CodesNotEmpty | src/tmdb/normalize.ts:207 | no kept code is empty |
| TmdbNormalize.TypedFallbackTrimmed | src/tmdb/normalize.ts:225 | the typed TMDB fallback is trimmed text |
| TmdbNormalize.DetailId | src/tmdb/normalize.ts:224-226 | the typed IMDb id when one is known, else the typed TMDB id |
| TmdbNormalize.Seasons | src/tmdb/normalize.ts:325-337 | only for a show detail read as a series: exactly the positive season numbers, when there are any; Seqs.FilterAppend gives their input order |
| Seqs.FilterAppend | src/tmdb/normalize.ts:330-332 | filtering keeps input order: the filter of a concatenation is the concatenation of the filters |
| TmdbNormalize.DetailImages | src/tmdb/normalize.ts:267-293 | poster at `w780`, backdrop at `w1280`, the selected logo and the two image lists |
| TmdbNormalize.TitleOr | src/tmdb/normalize.ts:222-231 | the title, or `Untitled`, is never empty |
| TmdbNormalize.NormalizeTmdbDetails | src/tmdb/normalize.ts:212-340 | the type as asked; a non-empty title; ids `{tmdb, imdb}`; the id typed by IMDb id when known, else by TMDB id; a year only with a release date; absolute artwork, at most ten credits, no repeated language, positive seasons only for a series |
| SimklResolvers.ItemTypeOfName | src/simkl/resolvers.ts:20-24 | a type exactly for `movie`, `tv`, `anime` and `show`, with `show` read as `tv`; never the episode type |
| SimklResolvers.NormalizeItemType | src/simkl/resolvers.ts:17-25 | a type exactly for a string whose trimmed, lower-cased text is one of the four names, `show` read as `tv` |
| SimklResolvers.ItemTypeIgnoresCase | src/simkl/resolve.ts:36-47 | the item type is read case-insensitively |
| SimklResolvers.SearchItemIds | src/simkl/resolvers.ts:27-59 | the Simkl normaliser's id reading without the slug: valid ids, never a Trakt id |
| SimklResolvers.ItemCandidate | src/simkl/resolvers.ts:95-108 | an item offers its ids exactly when it is a record of the expected kind with a Simkl, IMDb, TMDB or TVDB id |
| SimklResolvers.CandidateOf | src/simkl/resolvers.ts:94-111 | the candidate reading for a kind agrees with the item rule on every item |
| SimklResolvers.FirstCandidate | src/simkl/resolvers.ts:94-111 | nothing exactly when no item offers ids; otherwise the valid ids some item offers |
| SimklResolvers.FirstCandidateAt | src/simkl/resolvers.ts:95-110 | the first item offering ids decides the candidate |
| SimklResolvers.PickCandidate | src/simkl/resolvers.ts:94-111 | the loop returning at the first item that offers ids gives the candidate the specification function describes |
| SimklResolvers.TargetRef | src/simkl/resolvers.ts:125-217 | a ref exactly when the candidate has the target's id, of the target provider and the input's kind, with no season or episode |
| SimklResolvers.Resolve | src/simkl/resolvers.ts:113-220 | nothing for another provider, an episode ref or a failed fetch; otherwise the ref the first candidate's target field gives, and one whenever that field is set |
| SimklResolvers.FirstMatchDecides | src/simkl/resolvers.ts:105-125 | a first candidate lacking the target id gives nothing, even when a later item has it |
| SimklResolvers.ResolversKeepDeclaredTarget | src/simkl/resolvers.ts:113-220 | every resolver's ref is of its declared target provider, which differs from its source provider |
| SimklResolve.QueryPlan | src/simkl/resolve.ts:130-140 | the IMDb id first, then the TMDB id with the search type, then the TVDB id; no query exactly when none is set |
| SimklResolve.RequestOf | src/simkl/resolve.ts:108-140 | a request only when the kind fits, the provider is searchable and no Simkl id is known, and then the query plan |
| SimklResolve.SearchCandidate | src/simkl/resolve.ts:164-174 | an item adds its ids exactly when it is of the expected kind and has a Simkl id |
| SimklResolve.SearchCandidateOf | src/simkl/resolve.ts:164-174 | the candidate reading for a kind agrees with the item rule on every item |
| SimklResolve.Candidates | src/simkl/resolve.ts:163-174 | at most one candidate per item, each with valid ids and a Simkl id; none exactly when no item adds one |
| SimklResolve.CandidatesHead | src/simkl/resolve.ts:163-176 | the first candidate comes from the first item that adds one |
| SimklResolve.CollectCandidates | src/simkl/resolve.ts:163-174 | the loop collects exactly the candidates the specification function describes |
| SimklResolve.ReadResponse | src/simkl/resolve.ts:153-186 | a failed request is the error with its status; a body that is not an array gives no Simkl id; otherwise the first candidate's ids, and a positive Simkl id whenever there is a candidate |
| SimklResolve.FirstMatchingItemWins | src/simkl/resolve.ts:163-186 | the first item of the kind with a Simkl id decides the answer, with its other ids |
| SimklResolve.Decide | src/simkl/resolve.ts:106-186 | a mismatched kind or an unsearchable provider gives no Simkl id; a known Simkl id is returned with the other ids; otherwise the response to the planned query decides |
| SimklResolve.NoRequestNoDependence | src/simkl/resolve.ts:108-140 | without a request the answer does not depend on any response |
| SimklResolve.ParsedSimklNeverKnown | src/simkl/resolve.ts:106-118 | the strict parse never fills a Simkl id, so the known-Simkl branch is never taken |
| SimklResolve.ResolveSimklId | src/simkl/resolve.ts:95-187 | a blank client id is the missing-client-id error; with a client id the result is `Decide` on the strict parse of the input, so the query plan, the first matching item and the no-request cases carry over; a request failure only with a client id; every Simkl id returned is positive |

## Left out

- HTTP plumbing is out: `fetchSearchId`, `makeSearchUrl`, URL and `searchParams` construction, headers, the base URL option and `AbortSignal` (src/simkl/resolvers.ts:61-92, src/simkl/resolve.ts:31-34, 86-93, 142-153). Fetched data is an input value instead.
- The query a Simkl resolver sends is out (src/simkl/resolvers.ts:121, 140, 158, 176, 194, 212). Only the list it receives is modelled.
- `src/tmdb/resolve.ts` and `src/tmdb/resolvers.ts` are not part of this model. They are HTTP wrappers around a guard.
- Promises and `async` are out. The router's search is sequential and is modelled synchronously.
- The `cause` attached to a router `PROVIDER_ERROR` is out, as is the exception a resolver throws.
- JSON numbers are integers in `Json`, so fractional ids, seasons or episode numbers read from a response are out. This also covers the `Math.trunc` of such ids.
  - Consequence: the Simkl normaliser reads a `simkl` of 0.5 as 0, while `idsFromSearchItemIds` drops it. On integers, `SimklResolve` therefore reads search ids with `SimklNormalize.ExtractIds`, which agrees with `idsFromSearchItemIds` (src/simkl/resolve.ts:49-84).
- Fractions are modelled, as `JsNumbers.JsNumber`, only for Simkl ratings and for the seasons and episodes of the Simkl payload builders. Every other number a caller passes is an `int`, so these are out:
  - ExternalId.ParseExternalId: a number input is an integer, so `parseExternalId(0.5)`, which passes the `input > 0` guard and gives `{ tmdb: 0 }` after `Math.trunc`, is not modelled (src/ids/externalIds.ts:58-61).
  - SimklPayloads.NormalizeIdsForPayload: the `Math.trunc` of fractional `simkl` and `tmdb` ids is not modelled (src/simkl/payloads.ts:46-52).
  - TraktScrobble.BuildWatchingKey: a fractional season or episode, which `${season}` would print with its fraction, is not modelled (src/trakt/scrobble.ts:13-15).
- Progress percentages and times are `real`.
- `vote_average`, `readFloatLike` and `parseFloat` values are passed through; `parseFloat` is a parameter.
- `Date.now` and `Date.parse` are parameters: `nowMs` and `parseDate`.
- `Number.parseInt` is modelled as leading decimal digits after an optional sign. JavaScript's other `parseInt` quirks are out.
- `Trim` removes ASCII whitespace and a few Unicode spaces. `Lower` folds ASCII letters only.
- The normalisers' pure field copying is out: year, overview, runtime, released, status, rating, genres, tags, director, episode count and behaviour hints, and on the Trakt record also `playbackProgress` and `pausedAt` (src/trakt/normalize.ts:372-380). The records keep only the fields that the id, branch, artwork and playback rules decide.
- The type-only files are not part of this model: src/domain/media.ts (beyond `ExternalIds` and `MediaType`), src/stremio/types.ts (beyond the parsed shapes), src/trakt/types.ts, src/trakt/apiTypes.ts, src/simkl/types.ts, src/simkl/apiTypes.ts and src/tmdb/types.ts.
- The `assumeNumeric` option is out. Callers pass it to `parseExternalId`, which takes no options, so it has no effect.
- Dead code is out:
  - the show-ids fallback to episode ids in `normalizeTraktItem` (src/trakt/normalize.ts:330-333), because a trimmed fallback always gives a canonical id (`TraktNormalize.CanonicalWithFallback`);
  - the initial `simklType` default in `normalizeSimklItem` (src/simkl/normalize.ts:181), because every branch overwrites it;
  - the known-Simkl branch of `resolveSimklId` is modelled but unreachable (`SimklResolve.ParsedSimklNeverKnown`).
- Router.MediaRouter.ResolveTo: requires every resolver to return a reference of its declared target provider. The source does not demand this, but without it the search need not terminate (src/routing/router.ts:97-117).
- Router.MediaRouter.Search: carries the same requirement as `ResolveTo`.
- Router.ExpandFrom: passes over a mapped result whose provider is already visited, where the source would enqueue it again. This keeps the reference search finite; when every resolver returns its declared provider the case cannot arise, since visited targets are skipped before the call.
- Router.MediaRouter.Enrich: carries the same requirement as `ResolveTo`.
- Sorting.SortBy: stability is not stated. The contract gives a permutation, ordered by key.
- ContinueWatching.SortContinueWatching: stability within equal keys is not stated.
- ContinueWatching.MergeContinueWatching: the series rule ("newest `lastUpdated` wins", "higher progress wins" for one episode from several sources) is proved only for a series whose candidates are all different episodes (`MergedNewestEpisode`) or all one episode (`MergedFurthestEpisode`). For a mix the kept item depends on the order of the entries (`MergeDependsOnOrder`), so no order-free property is stated for it.
- TmdbNormalize.NormalizeTmdbDetails: states the id, ids, title, artwork, year, cast, language and season rules only. The copied fields listed above are out.
- SimklResolvers.Resolve: the fetched list is an input, so whether a request is made at all is not stated.

## Findings

| source | as written | input that shows it | evidently intended | confidence | as-written member | corrected member |
|---|---|---|---|---|---|---|
| src/simkl/payloads.ts:124-151 | the guard `season <= 0` lets a fraction below one through, and `Math.trunc` then writes season 0, although the error says season and episode must be positive integers | season 0.5, episode 1 | seasons and episodes whose integer part is below one are refused | not executed | SimklPayloads.FractionalSeasonWrittenAsZero | SimklPayloads.BuildCheckedShowEpisodeAddPayload |
| src/simkl/payloads.ts:181-206 | the same guard on the removal builder writes season 0 for season 0.5 | season 0.5, no episode | the season (and a given episode) must have an integer part of at least one | not executed | SimklPayloads.FractionalSeasonWrittenAsZero | SimklPayloads.BuildCheckedShowEpisodeRemovePayload |
