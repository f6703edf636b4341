/**
 * The resolution router (`src/routing/router.ts`): a breadth-first search over providers
 * along registered resolver edges, and enrichment of the resolved reference.
 *
 * Resolvers and enrichers are identified by their index in registration order; what a
 * call does is a total function of that index and the input reference. The ghost trace
 * `calls` records every resolver invocation in order.
 */
module Router {
  import opened Wrappers
  import opened Strings
  import opened Media
  import opened StremioId
  import opened ProviderRefs
  import opened ExternalId
  import opened Coerce

  datatype ErrorCode = BadId | Unsupported | Unresolvable | NotFound | ProviderError

  /** `RouterError`; the `cause` of a thrown error is not modelled. */
  datatype RouterError = RouterError(code: ErrorCode, message: string)

  /** `Result<T>` of the router. */
  type RouterResult<T> = Result<T, RouterError>

  /** A resolver's declared edge. */
  datatype Resolver = Resolver(from: Provider, to: Provider)

  /** What one resolver call does: no mapping (`null`), a mapped reference, or a throw. */
  datatype Resolution = NoMapping | Mapped(ref: ProviderRef) | Threw

  /** What one enricher call does: details, or a throw. */
  datatype Enrichment<D> = Enriched(details: D) | EnrichThrew

  /** One resolver invocation: the resolver's index and the reference passed to it. */
  datatype Call = Call(resolver: nat, input: ProviderRef)

  /** `resolveTo` and `enrich` accept a reference or its text form. */
  datatype RouterInput = RefInput(ref: ProviderRef) | TextInput(text: string)

  const AllProviders: set<Provider> := {Tmdb, Trakt, Tvdb, Simkl, Imdb}

  function BadIdError(): RouterError {
    RouterError(BadId, "Invalid provider id; expected `provider:kind:id`.")
  }

  function ResolverFailed(r: Resolver): RouterError {
    RouterError(ProviderError, "Resolver " + ProviderName(r.from) + " -> " + ProviderName(r.to) + " failed.")
  }

  function NoPath(target: Provider): RouterError {
    RouterError(Unresolvable, "No resolver path found to " + ProviderName(target) + ".")
  }

  function NoEnricher(target: Provider): RouterError {
    RouterError(Unsupported, "No enricher registered for " + ProviderName(target) + ".")
  }

  function EnricherFailed(target: Provider): RouterError {
    RouterError(ProviderError, ProviderName(target) + " enricher failed.")
  }

  /**
   * `parseInput`: a reference is taken as it is; a text is read strictly after its
   * episode suffix is stripped, and the suffix's season and episode are attached when
   * both are present.
   */
  function ParseInput(input: RouterInput): (r: Option<ProviderRef>)
    ensures input.RefInput? ==> r == Some(input.ref)
    ensures input.TextInput? && r.Some? ==> ValidRef(r.value)
    ensures input.TextInput? ==>
              var suffix := ParseEpisodeIdSuffix(input.text);
              (r.None? <==> ParseProviderRefStrict(suffix.baseId).None?)
              && (r.Some? ==> r.value.WithoutEpisode() == ParseProviderRefStrict(suffix.baseId).value
                              && (r.value.season.Some? <==> suffix.season.Some? && suffix.episode.Some?))
  {
    match input
    case RefInput(ref) => Some(ref)
    case TextInput(text) =>
      var parsedSuffix := ParseEpisodeIdSuffix(text);
      var ref := ParseProviderRefStrict(parsedSuffix.baseId);
      if ref.None? then None
      else Some(AttachSuffix(ref.value, parsedSuffix.season, parsedSuffix.episode))
  }

  /** A text the router accepts is read exactly as the strict step of coercion reads it. */
  lemma ParseInputIsStrictCoercion(text: string, kind: Kind)
    requires ParseInput(TextInput(text)).Some?
    ensures CoerceProviderRef(Text(text), kind) == ParseInput(TextInput(text))
  {
    StrictWins(text, kind);
  }

  /** A formatted reference is accepted and read back without its episode. */
  lemma ParseInputFormatted(r: ProviderRef)
    requires r.WellFormed() && r.ProviderOf() != Tvdb
    requires r.ImdbRef? ==> IsImdbId(r.imdb)
    ensures ParseInput(TextInput(FormatProviderRef(r))) == Some(r.WithoutEpisode())
  {
    FormattedHasNoSuffix(r);
    StrictRoundTrip(r);
  }

  /** A formatted reference with an episode suffix is read back scoped to that episode. */
  lemma ParseInputEpisode(r: ProviderRef, s: PosInt, e: PosInt)
    requires r.WellFormed() && r.ProviderOf() != Tvdb
    requires r.ImdbRef? ==> IsImdbId(r.imdb)
    ensures BuildEpisodeId(FormatProviderRef(r), s, e).Some?
    ensures ParseInput(TextInput(BuildEpisodeId(FormatProviderRef(r), s, e).value))
            == Some(r.WithEpisode(Some(s), Some(e)))
  {
    var f := FormatProviderRef(r);
    FormattedEpisodeSuffix(r, s, e);
    StrictRoundTrip(r);
    assert ParseInput(TextInput(BuildEpisodeId(f, s, e).value)) == Some(AttachSuffix(r.WithoutEpisode(), Some(s), Some(e)));
  }

  /** The episode id built on a formatted reference splits back into that reference and the numbers. */
  lemma FormattedEpisodeSuffix(r: ProviderRef, s: PosInt, e: PosInt)
    requires r.ImdbRef? ==> IsImdbId(r.imdb)
    ensures BuildEpisodeId(FormatProviderRef(r), s, e).Some?
    ensures ParseEpisodeIdSuffix(BuildEpisodeId(FormatProviderRef(r), s, e).value)
            == EpisodeIdSuffix(FormatProviderRef(r), Some(s), Some(e))
  {
    RefIdToken(r);
    FormatTokens(r.ProviderOf(), r.kind, RefIdText(r));
    EpisodeIdRoundTrip(FormatProviderRef(r), s, e);
  }

  /** A tvdb reference has no text form the router accepts. */
  lemma ParseInputRejectsTvdb(k: Kind, id: PosInt)
    ensures ParseInput(TextInput(FormatProviderRef(NumericRef(Tvdb, k, id, None, None)))) == None
  {
    var r := NumericRef(Tvdb, k, id, None, None);
    FormattedHasNoSuffixAny(r);
    RefIdToken(r);
    StrictRejectsTvdb(k, RefIdText(r));
  }

  /** The formatted text of a tvdb reference has no episode suffix either. */
  lemma FormattedHasNoSuffixAny(r: ProviderRef)
    requires r.NumericRef? && r.provider == Tvdb
    ensures ParseEpisodeIdSuffix(FormatProviderRef(r)) == EpisodeIdSuffix(FormatProviderRef(r), None, None)
  {
    RefIdToken(r);
    ProviderNameFixed(r.ProviderOf());
    KindNameFixed(r.kind);
    KindNotPositive(r.kind);
    ThreeTokensNoSuffix(ProviderName(r.ProviderOf()), KindName(r.kind), RefIdText(r));
  }

  /** The resolvers registered from `p`, among the first `n`, in registration order. */
  function Outgoing(rs: seq<Resolver>, p: Provider, n: nat): (out: seq<nat>)
    requires n <= |rs|
    ensures forall j :: j in out ==> j < n && rs[j].from == p
  {
    if n == 0 then []
    else if rs[n - 1].from == p then Outgoing(rs, p, n - 1) + [n - 1]
    else Outgoing(rs, p, n - 1)
  }

  /** `Outgoing` lists exactly the resolvers from `p`, each once, in increasing order. */
  lemma {:induction false} OutgoingSpec(rs: seq<Resolver>, p: Provider, n: nat)
    requires n <= |rs|
    ensures forall j: nat :: j in Outgoing(rs, p, n) <==> j < n && rs[j].from == p
    ensures forall a, b :: 0 <= a < b < |Outgoing(rs, p, n)| ==> Outgoing(rs, p, n)[a] < Outgoing(rs, p, n)[b]
  {
    if n > 0 {
      OutgoingSpec(rs, p, n - 1);
      var o := Outgoing(rs, p, n - 1);
      if rs[n - 1].from == p {
        var o' := o + [n - 1];
        forall a, b | 0 <= a < b < |o'|
          ensures o'[a] < o'[b]
        {
          if b == |o| {
            assert o'[a] == o[a] && o[a] in o;
          }
        }
      }
    }
  }

  /** The index of the last enricher registered for `p` among the first `n`. */
  function LastRegistered(enrichers: seq<Provider>, p: Provider, n: nat): Option<nat>
    requires n <= |enrichers|
  {
    if n == 0 then None
    else if enrichers[n - 1] == p then Some(n - 1)
    else LastRegistered(enrichers, p, n - 1)
  }

  /** Registering enricher `i` in a map of the last registrations among the first `i` extends it to `i + 1`. */
  lemma EnricherMapStep(enrichers: seq<Provider>, m: map<Provider, nat>, i: nat)
    requires i < |enrichers|
    requires forall p :: (if p in m then Some(m[p]) else None) == LastRegistered(enrichers, p, i)
    ensures var m' := m[enrichers[i] := i];
            forall p :: (if p in m' then Some(m'[p]) else None) == LastRegistered(enrichers, p, i + 1)
  {
  }

  /** Appending resolver `i` to its provider's list in a map of the first `i` edges extends it to `i + 1`. */
  lemma EdgeMapStep(rs: seq<Resolver>, edges: map<Provider, seq<nat>>, i: nat)
    requires i < |rs|
    requires forall p :: (if p in edges then edges[p] else []) == Outgoing(rs, p, i)
    ensures var list := if rs[i].from in edges then edges[rs[i].from] else [];
            var edges' := edges[rs[i].from := list + [i]];
            forall p :: (if p in edges' then edges'[p] else []) == Outgoing(rs, p, i + 1)
  {
  }

  /** The last registration wins; there is none exactly when no enricher is for `p`. */
  lemma {:induction false} LastRegisteredSpec(enrichers: seq<Provider>, p: Provider, n: nat)
    requires n <= |enrichers|
    ensures LastRegistered(enrichers, p, n).None? <==> p !in enrichers[..n]
    ensures LastRegistered(enrichers, p, n).Some? ==>
              var i := LastRegistered(enrichers, p, n).value;
              i < n && enrichers[i] == p && forall j :: i < j < n ==> enrichers[j] != p
  {
    if n > 0 {
      LastRegisteredSpec(enrichers, p, n - 1);
      assert enrichers[..n] == enrichers[..n - 1] + [enrichers[n - 1]];
    }
  }

  /** What a recorded call did. */
  function Outcome(call: (nat, ProviderRef) -> Resolution, c: Call): Resolution {
    call(c.resolver, c.input)
  }

  /** A call result after which the search goes on. */
  predicate Continues(target: Provider, o: Resolution) {
    o.NoMapping? || (o.Mapped? && o.ref.ProviderOf() != target)
  }

  /** A call result that is a reference of provider `p`. */
  predicate MapsTo(o: Resolution, p: Provider) {
    o.Mapped? && o.ref.ProviderOf() == p
  }

  /** Every resolver returns a reference of its declared `to` provider. */
  ghost predicate ReturnsDeclared(rs: seq<Resolver>, call: (nat, ProviderRef) -> Resolution) {
    forall i, x :: 0 <= i < |rs| && call(i, x).Mapped? ==> call(i, x).ref.ProviderOf() == rs[i].to
  }

  /** The references enqueued by the search: the start, then every mapped result in call order. */
  function Enqueued(start: ProviderRef, call: (nat, ProviderRef) -> Resolution, calls: seq<Call>): (q: seq<ProviderRef>)
    ensures |q| >= 1 && q[0] == start
  {
    if calls == [] then [start]
    else
      var before := Enqueued(start, call, calls[..|calls| - 1]);
      match Outcome(call, calls[|calls| - 1])
      case Mapped(ref) => before + [ref]
      case _ => before
  }

  /** The visited providers: the start's, then every mapped result's. */
  function Visited(start: ProviderRef, call: (nat, ProviderRef) -> Resolution, calls: seq<Call>): (v: set<Provider>)
    ensures start.ProviderOf() in v
  {
    if calls == [] then {start.ProviderOf()}
    else
      var before := Visited(start, call, calls[..|calls| - 1]);
      match Outcome(call, calls[|calls| - 1])
      case Mapped(ref) => before + {ref.ProviderOf()}
      case _ => before
  }

  /** The visited providers are the providers of the enqueued references. */
  lemma {:induction false} VisitedEnqueued(start: ProviderRef, call: (nat, ProviderRef) -> Resolution, calls: seq<Call>)
    ensures forall p :: p in Visited(start, call, calls) <==> exists q :: q in Enqueued(start, call, calls) && q.ProviderOf() == p
  {
    if calls != [] {
      VisitedEnqueued(start, call, calls[..|calls| - 1]);
    }
  }

  /** One more call extends the enqueued references and the visited providers by its mapped result. */
  lemma Extend(start: ProviderRef, call: (nat, ProviderRef) -> Resolution, calls: seq<Call>, c: Call)
    ensures Enqueued(start, call, calls + [c])
            == Enqueued(start, call, calls) + (if Outcome(call, c).Mapped? then [Outcome(call, c).ref] else [])
    ensures Visited(start, call, calls + [c])
            == Visited(start, call, calls) + (if Outcome(call, c).Mapped? then {Outcome(call, c).ref.ProviderOf()} else {})
  {
    assert (calls + [c])[..|calls|] == calls;
  }

  /** Every enqueued reference is the start or the mapped result of a recorded call. */
  lemma {:induction false} EnqueuedOrigin(start: ProviderRef, call: (nat, ProviderRef) -> Resolution, calls: seq<Call>, q: ProviderRef)
    requires q in Enqueued(start, call, calls)
    ensures q == start || exists k :: 0 <= k < |calls| && Outcome(call, calls[k]) == Mapped(q)
  {
    if calls != [] {
      var init := calls[..|calls| - 1];
      if q in Enqueued(start, call, init) {
        EnqueuedOrigin(start, call, init, q);
        if q != start {
          var k :| 0 <= k < |init| && Outcome(call, init[k]) == Mapped(q);
          assert calls[k] == init[k];
        }
      } else {
        assert Outcome(call, calls[|calls| - 1]) == Mapped(q);
      }
    }
  }

  /** An unvisited provider is neither the start's nor that of any mapped result. */
  lemma {:induction false} UnvisitedNeverMapped(start: ProviderRef, call: (nat, ProviderRef) -> Resolution, calls: seq<Call>, p: Provider)
    requires p !in Visited(start, call, calls)
    ensures p != start.ProviderOf()
    ensures forall k :: 0 <= k < |calls| ==> !MapsTo(Outcome(call, calls[k]), p)
  {
    if calls != [] {
      var init := calls[..|calls| - 1];
      UnvisitedNeverMapped(start, call, init, p);
      forall k | 0 <= k < |calls|
        ensures !MapsTo(Outcome(call, calls[k]), p)
      {
        if k < |init| {
          assert calls[k] == init[k];
        }
      }
    }
  }

  /** A call used a registered resolver from its input's provider that does not lead back to the start. */
  ghost predicate CallFits(rs: seq<Resolver>, start: ProviderRef, c: Call) {
    c.resolver < |rs| && rs[c.resolver].from == c.input.ProviderOf() && rs[c.resolver].to != start.ProviderOf()
  }

  /**
   * Every recorded call was one the search makes: it fits, no call but possibly the last
   * threw or reached the target, no earlier call had mapped to its resolver's `to`, its
   * input was the start or an earlier call's result, and the calls on one input follow
   * the registration order of the resolvers.
   */
  ghost predicate CallsValid(rs: seq<Resolver>, start: ProviderRef, target: Provider,
                             call: (nat, ProviderRef) -> Resolution, calls: seq<Call>) {
    && AllFit(rs, start, calls)
    && ContinuedBeforeLast(target, call, calls)
    && NoRemap(rs, call, calls)
    && InputsReached(start, call, calls)
    && InRegistrationOrder(calls)
  }

  ghost predicate AllFit(rs: seq<Resolver>, start: ProviderRef, calls: seq<Call>) {
    forall k :: 0 <= k < |calls| ==> CallFits(rs, start, calls[k])
  }

  predicate ContinuedBeforeLast(target: Provider, call: (nat, ProviderRef) -> Resolution, calls: seq<Call>) {
    forall k :: 0 <= k < |calls| - 1 ==> Continues(target, Outcome(call, calls[k]))
  }

  ghost predicate NoRemap(rs: seq<Resolver>, call: (nat, ProviderRef) -> Resolution, calls: seq<Call>) {
    forall a, b :: 0 <= a < b < |calls| && calls[b].resolver < |rs| ==>
      !MapsTo(Outcome(call, calls[a]), rs[calls[b].resolver].to)
  }

  predicate InputsReached(start: ProviderRef, call: (nat, ProviderRef) -> Resolution, calls: seq<Call>) {
    forall b :: 0 <= b < |calls| ==>
      calls[b].input == start || exists a :: 0 <= a < b && Outcome(call, calls[a]) == Mapped(calls[b].input)
  }

  predicate InRegistrationOrder(calls: seq<Call>) {
    forall a, b :: 0 <= a < b < |calls| && calls[a].input == calls[b].input ==> calls[a].resolver < calls[b].resolver
  }

  /**
   * The search is exhausted: from every enqueued reference, every outgoing resolver was
   * called on it or leads to a visited provider.
   */
  ghost predicate Exhausted(rs: seq<Resolver>, start: ProviderRef, call: (nat, ProviderRef) -> Resolution, calls: seq<Call>) {
    forall q, j :: q in Enqueued(start, call, calls) && j in Outgoing(rs, q.ProviderOf(), |rs|) ==>
      Call(j, q) in calls || rs[j].to in Visited(start, call, calls)
  }

  /** The search stopped at the last call: it yielded the target, or it threw. */
  ghost predicate Stopped(rs: seq<Resolver>, target: Provider, call: (nat, ProviderRef) -> Resolution,
                          calls: seq<Call>, r: RouterResult<ProviderRef>) {
    calls != [] && calls[|calls| - 1].resolver < |rs|
    && match r
       case Ok(v) => v.ProviderOf() == target && Outcome(call, calls[|calls| - 1]) == Mapped(v)
       case Err(e) => Outcome(call, calls[|calls| - 1]).Threw? && e == ResolverFailed(rs[calls[|calls| - 1].resolver])
  }

  /**
   * What the search from `start`, which is not of the target provider, promises: its
   * calls are valid; an ok result is of the target and is the last call's result; a throw
   * ends it with PROVIDER_ERROR naming the resolver; otherwise it is UNRESOLVABLE, and then
   * the search was exhausted.
   */
  ghost predicate Searched(rs: seq<Resolver>, start: ProviderRef, target: Provider, call: (nat, ProviderRef) -> Resolution,
                           r: RouterResult<ProviderRef>, calls: seq<Call>) {
    && CallsValid(rs, start, target, call, calls)
    && match r
       case Ok(v) => v.ProviderOf() == target && calls != [] && Outcome(call, calls[|calls| - 1]) == Mapped(v)
       case Err(e) =>
         if calls != [] && Outcome(call, calls[|calls| - 1]).Threw?
         then calls[|calls| - 1].resolver < |rs| && e == ResolverFailed(rs[calls[|calls| - 1].resolver])
         else e == NoPath(target)
              && (calls != [] ==> Continues(target, Outcome(call, calls[|calls| - 1])))
              && Exhausted(rs, start, call, calls)
  }

  /**
   * What `resolveTo` promises about its result `r` and the calls it made: a text that
   * does not parse is BAD_ID and a start of the target provider is returned, both without
   * resolver calls; any other start is searched from.
   */
  ghost predicate Resolves(rs: seq<Resolver>, target: Provider, input: RouterInput, call: (nat, ProviderRef) -> Resolution,
                           r: RouterResult<ProviderRef>, calls: seq<Call>) {
    match ParseInput(input)
    case None => r == Err(BadIdError()) && calls == []
    case Some(start) =>
      if start.ProviderOf() == target then r == Ok(start) && calls == []
      else Searched(rs, start, target, call, r, calls)
  }

  /**
   * The state of the search between calls: the enqueued references are the processed
   * ones followed by the pending ones, `visited` is their providers, the calls are valid,
   * and every outgoing resolver of a processed reference was tried.
   */
  ghost predicate Frontier(rs: seq<Resolver>, start: ProviderRef, target: Provider, call: (nat, ProviderRef) -> Resolution,
                           done: seq<ProviderRef>, pending: seq<ProviderRef>, visited: set<Provider>, calls: seq<Call>) {
    && done + pending == Enqueued(start, call, calls)
    && visited == Visited(start, call, calls)
    && CallsValid(rs, start, target, call, calls)
    && (calls != [] ==> Continues(target, Outcome(call, calls[|calls| - 1])))
    && (forall q, j :: q in done && j in Outgoing(rs, q.ProviderOf(), |rs|) ==> Call(j, q) in calls || rs[j].to in visited)
  }

  /** The loop state of `resolveTo`: a frontier whose every call was made on a finished reference. */
  ghost predicate SearchState(rs: seq<Resolver>, start: ProviderRef, target: Provider, call: (nat, ProviderRef) -> Resolution,
                              done: seq<ProviderRef>, queue: seq<ProviderRef>, visited: set<Provider>, calls: seq<Call>) {
    && Frontier(rs, start, target, call, done, queue, visited, calls)
    && forall a :: 0 <= a < |calls| ==> calls[a].input in done
  }

  /** The first `idx` resolvers of `list` were called on `current` or lead to a visited provider. */
  ghost predicate TriedUpTo(rs: seq<Resolver>, current: ProviderRef, list: seq<nat>, idx: nat, calls: seq<Call>, visited: set<Provider>)
    requires idx <= |list|
  {
    forall k :: 0 <= k < idx ==> list[k] < |rs| && (Call(list[k], current) in calls || rs[list[k]].to in visited)
  }

  /**
   * The state of the inner loop of `resolveTo` at `list[idx]`: a frontier with `current`
   * in front, whose first `idx` resolvers were tried, and which grew from `queue0` and
   * `visited0` only by enqueueing.
   */
  ghost predicate InnerState(rs: seq<Resolver>, start: ProviderRef, target: Provider, call: (nat, ProviderRef) -> Resolution,
                             done: seq<ProviderRef>, current: ProviderRef, list: seq<nat>, idx: nat,
                             queue0: seq<ProviderRef>, visited0: set<Provider>,
                             queue: seq<ProviderRef>, visited: set<Provider>, calls: seq<Call>) {
    && idx <= |list| && list == Outgoing(rs, current.ProviderOf(), |rs|)
    && Frontier(rs, start, target, call, done, [current] + queue, visited, calls)
    && TriedUpTo(rs, current, list, idx, calls, visited)
    && InputsSoFar(done, current, list, idx, calls)
    && visited0 <= visited && (visited == visited0 ==> queue == queue0)
  }

  /** Calling an untried resolver of the current reference keeps the calls valid. */
  lemma AppendValid(rs: seq<Resolver>, start: ProviderRef, target: Provider, call: (nat, ProviderRef) -> Resolution,
                    done: seq<ProviderRef>, current: ProviderRef, queue: seq<ProviderRef>, visited: set<Provider>,
                    calls: seq<Call>, j: nat)
    requires Frontier(rs, start, target, call, done, [current] + queue, visited, calls)
    requires j < |rs| && rs[j].from == current.ProviderOf() && rs[j].to !in visited
    requires forall a :: 0 <= a < |calls| && calls[a].input == current ==> calls[a].resolver < j
    ensures CallsValid(rs, start, target, call, calls + [Call(j, current)])
  {
    InFront(done, current, queue);
    AppendReached(rs, start, target, call, calls, j, current);
  }

  lemma InFront(done: seq<ProviderRef>, current: ProviderRef, queue: seq<ProviderRef>)
    ensures current in done + ([current] + queue)
  {
    assert (done + ([current] + queue))[|done|] == current;
  }

  /** A call on an enqueued reference with a resolver to an unvisited provider keeps the calls valid. */
  lemma AppendReached(rs: seq<Resolver>, start: ProviderRef, target: Provider, call: (nat, ProviderRef) -> Resolution,
                      calls: seq<Call>, j: nat, current: ProviderRef)
    requires CallsValid(rs, start, target, call, calls)
    requires calls != [] ==> Continues(target, Outcome(call, calls[|calls| - 1]))
    requires current in Enqueued(start, call, calls)
    requires j < |rs| && rs[j].from == current.ProviderOf() && rs[j].to !in Visited(start, call, calls)
    requires forall a :: 0 <= a < |calls| && calls[a].input == current ==> calls[a].resolver < j
    ensures CallsValid(rs, start, target, call, calls + [Call(j, current)])
  {
    UnvisitedNeverMapped(start, call, calls, rs[j].to);
    EnqueuedOrigin(start, call, calls, current);
    CallsValidSnoc(rs, start, target, call, calls, Call(j, current));
  }

  /** The conditions under which one more call keeps the recorded calls valid. */
  lemma CallsValidSnoc(rs: seq<Resolver>, start: ProviderRef, target: Provider, call: (nat, ProviderRef) -> Resolution,
                       calls: seq<Call>, c: Call)
    requires CallsValid(rs, start, target, call, calls) && CallFits(rs, start, c)
    requires calls != [] ==> Continues(target, Outcome(call, calls[|calls| - 1]))
    requires forall a :: 0 <= a < |calls| ==> !MapsTo(Outcome(call, calls[a]), rs[c.resolver].to)
    requires c.input == start || exists a :: 0 <= a < |calls| && Outcome(call, calls[a]) == Mapped(c.input)
    requires forall a :: 0 <= a < |calls| && calls[a].input == c.input ==> calls[a].resolver < c.resolver
    ensures CallsValid(rs, start, target, call, calls + [c])
  {
    AllFitSnoc(rs, start, calls, c);
    ContinuedSnoc(target, call, calls, c);
    NoRemapSnoc(rs, call, calls, c);
    InputsReachedSnoc(start, call, calls, c);
    RegistrationOrderSnoc(calls, c);
  }

  lemma AllFitSnoc(rs: seq<Resolver>, start: ProviderRef, calls: seq<Call>, c: Call)
    requires AllFit(rs, start, calls) && CallFits(rs, start, c)
    ensures AllFit(rs, start, calls + [c])
  {
    var cs := calls + [c];
    forall k | 0 <= k < |cs|
      ensures CallFits(rs, start, cs[k])
    {
      if k < |calls| {
        assert cs[k] == calls[k];
      }
    }
  }

  lemma ContinuedSnoc(target: Provider, call: (nat, ProviderRef) -> Resolution, calls: seq<Call>, c: Call)
    requires ContinuedBeforeLast(target, call, calls)
    requires calls != [] ==> Continues(target, Outcome(call, calls[|calls| - 1]))
    ensures ContinuedBeforeLast(target, call, calls + [c])
  {
    var cs := calls + [c];
    forall k | 0 <= k < |cs| - 1
      ensures Continues(target, Outcome(call, cs[k]))
    {
      assert cs[k] == calls[k];
    }
  }

  lemma NoRemapSnoc(rs: seq<Resolver>, call: (nat, ProviderRef) -> Resolution, calls: seq<Call>, c: Call)
    requires NoRemap(rs, call, calls)
    requires c.resolver < |rs| ==> forall a :: 0 <= a < |calls| ==> !MapsTo(Outcome(call, calls[a]), rs[c.resolver].to)
    ensures NoRemap(rs, call, calls + [c])
  {
    var cs := calls + [c];
    forall a, b | 0 <= a < b < |cs| && cs[b].resolver < |rs|
      ensures !MapsTo(Outcome(call, cs[a]), rs[cs[b].resolver].to)
    {
      assert cs[a] == calls[a];
      if b < |calls| {
        assert cs[b] == calls[b];
      }
    }
  }

  lemma InputsReachedSnoc(start: ProviderRef, call: (nat, ProviderRef) -> Resolution, calls: seq<Call>, c: Call)
    requires InputsReached(start, call, calls)
    requires c.input == start || exists a :: 0 <= a < |calls| && Outcome(call, calls[a]) == Mapped(c.input)
    ensures InputsReached(start, call, calls + [c])
  {
    var cs := calls + [c];
    forall b | 0 <= b < |cs|
      ensures cs[b].input == start || exists a :: 0 <= a < b && Outcome(call, cs[a]) == Mapped(cs[b].input)
    {
      if b < |calls| {
        assert cs[b] == calls[b];
        if calls[b].input != start {
          var a :| 0 <= a < b && Outcome(call, calls[a]) == Mapped(calls[b].input);
          assert cs[a] == calls[a];
        }
      } else if c.input != start {
        var a :| 0 <= a < |calls| && Outcome(call, calls[a]) == Mapped(c.input);
        assert cs[a] == calls[a];
      }
    }
  }

  lemma RegistrationOrderSnoc(calls: seq<Call>, c: Call)
    requires InRegistrationOrder(calls)
    requires forall a :: 0 <= a < |calls| && calls[a].input == c.input ==> calls[a].resolver < c.resolver
    ensures InRegistrationOrder(calls + [c])
  {
    var cs := calls + [c];
    forall a, b | 0 <= a < b < |cs| && cs[a].input == cs[b].input
      ensures cs[a].resolver < cs[b].resolver
    {
      assert cs[a] == calls[a];
      if b < |calls| {
        assert cs[b] == calls[b];
      }
    }
  }

  /** A call after which the search goes on keeps the search state. */
  lemma FrontierStep(rs: seq<Resolver>, start: ProviderRef, target: Provider, call: (nat, ProviderRef) -> Resolution,
                     done: seq<ProviderRef>, current: ProviderRef, queue: seq<ProviderRef>, visited: set<Provider>,
                     calls: seq<Call>, j: nat)
    requires Frontier(rs, start, target, call, done, [current] + queue, visited, calls)
    requires j < |rs| && rs[j].from == current.ProviderOf() && rs[j].to !in visited
    requires forall a :: 0 <= a < |calls| && calls[a].input == current ==> calls[a].resolver < j
    requires Continues(target, call(j, current))
    ensures var o := call(j, current);
            Frontier(rs, start, target, call, done, [current] + (if o.Mapped? then queue + [o.ref] else queue),
                     if o.Mapped? then visited + {o.ref.ProviderOf()} else visited, calls + [Call(j, current)])
  {
    var c := Call(j, current);
    AppendValid(rs, start, target, call, done, current, queue, visited, calls, j);
    Extend(start, call, calls, c);
    assert (calls + [c])[|calls|] == c;
    if call(j, current).Mapped? {
      assert done + ([current] + (queue + [call(j, current).ref])) == (done + ([current] + queue)) + [call(j, current).ref];
    }
  }

  /** Calling the next resolver of `list` extends what was tried. */
  lemma TriedStep(rs: seq<Resolver>, current: ProviderRef, list: seq<nat>, idx: nat, calls: seq<Call>,
                  visited: set<Provider>, visited': set<Provider>)
    requires idx < |list| && list[idx] < |rs| && visited <= visited'
    requires TriedUpTo(rs, current, list, idx, calls, visited)
    ensures TriedUpTo(rs, current, list, idx + 1, calls + [Call(list[idx], current)], visited')
  {
  }

  /** A call at `list[idx]` advances the inner loop's bookkeeping, whatever the call maps to. */
  lemma CallStep(rs: seq<Resolver>, done: seq<ProviderRef>, current: ProviderRef, list: seq<nat>, idx: nat,
                 calls: seq<Call>, visited: set<Provider>, visited': set<Provider>)
    requires idx < |list| && list[idx] < |rs| && visited <= visited'
    requires TriedUpTo(rs, current, list, idx, calls, visited)
    requires InputsSoFar(done, current, list, idx, calls)
    ensures TriedUpTo(rs, current, list, idx + 1, calls + [Call(list[idx], current)], visited')
    ensures InputsSoFar(done, current, list, idx + 1, calls + [Call(list[idx], current)])
  {
    TriedStep(rs, current, list, idx, calls, visited, visited');
    InputsStep(done, current, list, idx, calls);
  }

  /** The calls so far were on processed references, or on `current` with one of the first `idx` resolvers of `list`. */
  ghost predicate InputsSoFar(done: seq<ProviderRef>, current: ProviderRef, list: seq<nat>, idx: nat, calls: seq<Call>)
    requires idx <= |list|
  {
    current !in done
    && forall a :: 0 <= a < |calls| ==> calls[a].input in done || (calls[a].input == current && calls[a].resolver in list[..idx])
  }

  lemma InputsSkip(done: seq<ProviderRef>, current: ProviderRef, list: seq<nat>, idx: nat, calls: seq<Call>)
    requires idx < |list| && InputsSoFar(done, current, list, idx, calls)
    ensures InputsSoFar(done, current, list, idx + 1, calls)
  {
    assert forall r :: r in list[..idx] ==> r in list[..idx + 1];
  }

  lemma InputsStep(done: seq<ProviderRef>, current: ProviderRef, list: seq<nat>, idx: nat, calls: seq<Call>)
    requires idx < |list| && InputsSoFar(done, current, list, idx, calls)
    ensures InputsSoFar(done, current, list, idx + 1, calls + [Call(list[idx], current)])
  {
    assert forall r :: r in list[..idx] ==> r in list[..idx + 1];
    assert list[idx] in list[..idx + 1];
    var cs := calls + [Call(list[idx], current)];
    assert forall a :: 0 <= a < |calls| ==> cs[a] == calls[a];
  }

  /** Before the call at `idx`, every call on `current` used an earlier resolver of the increasing `list`. */
  lemma EarlierResolvers(rs: seq<Resolver>, done: seq<ProviderRef>, current: ProviderRef, list: seq<nat>, idx: nat, calls: seq<Call>)
    requires idx < |list| && InputsSoFar(done, current, list, idx, calls)
    requires list == Outgoing(rs, current.ProviderOf(), |rs|)
    ensures forall a :: 0 <= a < |calls| && calls[a].input == current ==> calls[a].resolver < list[idx]
  {
    OutgoingSpec(rs, current.ProviderOf(), |rs|);
    forall a | 0 <= a < |calls| && calls[a].input == current
      ensures calls[a].resolver < list[idx]
    {
      var k :| 0 <= k < idx && list[k] == calls[a].resolver;
    }
  }

  /** The reference being processed is not among the processed ones. */
  lemma CurrentNotDone(rs: seq<Resolver>, start: ProviderRef, target: Provider, call: (nat, ProviderRef) -> Resolution,
                       done: seq<ProviderRef>, current: ProviderRef, queue: seq<ProviderRef>, visited: set<Provider>,
                       calls: seq<Call>)
    requires ReturnsDeclared(rs, call)
    requires Frontier(rs, start, target, call, done, [current] + queue, visited, calls)
    ensures current !in done
  {
    var e := Enqueued(start, call, calls);
    EnqueuedOnce(rs, start, target, call, calls);
    assert forall a, b :: 0 <= a < b < |e| ==> e[a].ProviderOf() != e[b].ProviderOf();
    assert e == done + ([current] + queue);
    forall i | 0 <= i < |done|
      ensures done[i] != current
    {
      assert i < |done| < |e|;
      assert e[i] == done[i] && e[|done|] == current;
      assert e[i].ProviderOf() != e[|done|].ProviderOf();
    }
  }

  /** A prefix of valid calls is valid. */
  lemma CallsValidPrefix(rs: seq<Resolver>, start: ProviderRef, target: Provider, call: (nat, ProviderRef) -> Resolution,
                         calls: seq<Call>, n: nat)
    requires n <= |calls| && CallsValid(rs, start, target, call, calls)
    ensures CallsValid(rs, start, target, call, calls[..n])
  {
    var p := calls[..n];
    assert forall k :: 0 <= k < n ==> p[k] == calls[k];
  }

  /**
   * Each provider is enqueued at most once when every resolver returns its declared
   * provider: the search visits at most one reference per provider.
   */
  lemma {:induction false} EnqueuedOnce(rs: seq<Resolver>, start: ProviderRef, target: Provider,
                                        call: (nat, ProviderRef) -> Resolution, calls: seq<Call>)
    requires ReturnsDeclared(rs, call) && CallsValid(rs, start, target, call, calls)
    ensures forall a, b :: 0 <= a < b < |Enqueued(start, call, calls)| ==>
              Enqueued(start, call, calls)[a].ProviderOf() != Enqueued(start, call, calls)[b].ProviderOf()
  {
    if calls != [] {
      var init := calls[..|calls| - 1];
      var last := calls[|calls| - 1];
      CallsValidPrefix(rs, start, target, call, calls, |calls| - 1);
      EnqueuedOnce(rs, start, target, call, init);
      Extend(start, call, init, last);
      assert init + [last] == calls;
      if Outcome(call, last).Mapped? {
        assert CallFits(rs, start, calls[|calls| - 1]);
        FreshProvider(rs, start, target, call, calls);
      }
    }
  }

  /** The `to` of the last call's resolver is not the provider of any reference enqueued before it. */
  lemma FreshProvider(rs: seq<Resolver>, start: ProviderRef, target: Provider, call: (nat, ProviderRef) -> Resolution,
                      calls: seq<Call>)
    requires calls != [] && CallsValid(rs, start, target, call, calls)
    ensures calls[|calls| - 1].resolver < |rs|
    ensures var before := Enqueued(start, call, calls[..|calls| - 1]);
            forall a :: 0 <= a < |before| ==> before[a].ProviderOf() != rs[calls[|calls| - 1].resolver].to
  {
    var init := calls[..|calls| - 1];
    var before := Enqueued(start, call, init);
    assert CallFits(rs, start, calls[|calls| - 1]);
    var p := rs[calls[|calls| - 1].resolver].to;
    forall a | 0 <= a < |before|
      ensures before[a].ProviderOf() != p
    {
      EnqueuedOrigin(start, call, init, before[a]);
      if before[a] != start {
        var k :| 0 <= k < |init| && Outcome(call, init[k]) == Mapped(before[a]);
        assert calls[k] == init[k];
        assert !MapsTo(Outcome(call, calls[k]), p);
      }
    }
  }

  /** Skipping a resolver that leads to a visited provider extends what was tried. */
  lemma TriedSkip(rs: seq<Resolver>, current: ProviderRef, list: seq<nat>, idx: nat, calls: seq<Call>, visited: set<Provider>)
    requires idx < |list| && list[idx] < |rs| && rs[list[idx]].to in visited
    requires TriedUpTo(rs, current, list, idx, calls, visited)
    ensures TriedUpTo(rs, current, list, idx + 1, calls, visited)
  {
  }

  /** Once all its resolvers were tried, the current reference is processed. */
  lemma FrontierAdvance(rs: seq<Resolver>, start: ProviderRef, target: Provider, call: (nat, ProviderRef) -> Resolution,
                        done: seq<ProviderRef>, current: ProviderRef, queue: seq<ProviderRef>, visited: set<Provider>,
                        calls: seq<Call>, list: seq<nat>)
    requires Frontier(rs, start, target, call, done, [current] + queue, visited, calls)
    requires list == Outgoing(rs, current.ProviderOf(), |rs|)
    requires TriedUpTo(rs, current, list, |list|, calls, visited)
    ensures Frontier(rs, start, target, call, done + [current], queue, visited, calls)
  {
    assert done + [current] + queue == done + ([current] + queue);
    forall q, j | q in done + [current] && j in Outgoing(rs, q.ProviderOf(), |rs|)
      ensures Call(j, q) in calls || rs[j].to in visited
    {
      if q !in done {
        assert q == current;
        var k :| 0 <= k < |list| && list[k] == j;
      }
    }
  }

  /** A search that stopped at a call ends as promised. */
  lemma SearchedOnStop(rs: seq<Resolver>, target: Provider, start: ProviderRef,
                       call: (nat, ProviderRef) -> Resolution, r: RouterResult<ProviderRef>, calls: seq<Call>)
    requires CallsValid(rs, start, target, call, calls) && Stopped(rs, target, call, calls, r)
    ensures Searched(rs, start, target, call, r, calls)
  {
  }

  /** A search whose queue ran out ends as promised. */
  lemma SearchedOnExhaust(rs: seq<Resolver>, target: Provider, start: ProviderRef,
                          call: (nat, ProviderRef) -> Resolution, done: seq<ProviderRef>, visited: set<Provider>, calls: seq<Call>)
    requires Frontier(rs, start, target, call, done, [], visited, calls)
    ensures Searched(rs, start, target, call, Err(NoPath(target)), calls)
  {
    assert done == Enqueued(start, call, calls);
  }

  /** Every visited provider is the start's or that of a mapped result, and every mapped result's provider is visited. */
  lemma {:induction false} VisitedOrigin(start: ProviderRef, call: (nat, ProviderRef) -> Resolution, calls: seq<Call>)
    ensures forall p :: p in Visited(start, call, calls) ==>
              p == start.ProviderOf() || exists k :: 0 <= k < |calls| && MapsTo(Outcome(call, calls[k]), p)
    ensures forall k :: 0 <= k < |calls| && Outcome(call, calls[k]).Mapped? ==>
              Outcome(call, calls[k]).ref.ProviderOf() in Visited(start, call, calls)
  {
    if calls != [] {
      var init := calls[..|calls| - 1];
      VisitedOrigin(start, call, init);
      assert forall k :: 0 <= k < |init| ==> calls[k] == init[k];
    }
  }

  /** An UNRESOLVABLE search was exhausted, and none of its calls threw or reached the target. */
  lemma NoPathEnd(rs: seq<Resolver>, start: ProviderRef, target: Provider,
                  call: (nat, ProviderRef) -> Resolution, calls: seq<Call>)
    requires Searched(rs, start, target, call, Err(NoPath(target)), calls)
    ensures Exhausted(rs, start, call, calls)
    ensures forall k :: 0 <= k < |calls| ==> Continues(target, Outcome(call, calls[k]))
  {
  }

  /**
   * When the search ends UNRESOLVABLE, the visited providers do not include the target
   * and are closed under the resolvers: no resolver from an enqueued reference, called or
   * not, could have led outside them.
   */
  lemma UnresolvableIsClosed(rs: seq<Resolver>, start: ProviderRef, target: Provider,
                             call: (nat, ProviderRef) -> Resolution, calls: seq<Call>)
    requires ReturnsDeclared(rs, call) && start.ProviderOf() != target
    requires Searched(rs, start, target, call, Err(NoPath(target)), calls)
    ensures target !in Visited(start, call, calls)
    ensures forall q, j :: q in Enqueued(start, call, calls) && j in Outgoing(rs, q.ProviderOf(), |rs|) && call(j, q).Mapped? ==>
              call(j, q).ref.ProviderOf() in Visited(start, call, calls)
  {
    NoPathEnd(rs, start, target, call, calls);
    VisitedOrigin(start, call, calls);
    forall p | p in Visited(start, call, calls)
      ensures p != target
    {
      if p != start.ProviderOf() {
        var k :| 0 <= k < |calls| && MapsTo(Outcome(call, calls[k]), p);
        assert Continues(target, Outcome(call, calls[k]));
      }
    }
    forall q, j | q in Enqueued(start, call, calls) && j in Outgoing(rs, q.ProviderOf(), |rs|) && call(j, q).Mapped?
      ensures call(j, q).ref.ProviderOf() in Visited(start, call, calls)
    {
      if Call(j, q) in calls {
        var k :| 0 <= k < |calls| && calls[k] == Call(j, q);
        assert Outcome(call, calls[k]) == call(j, q);
      }
    }
  }

  /** Every provider is one of the five. */
  lemma InAll(p: Provider)
    ensures p in AllProviders
  {
    match p
    case Tmdb =>
    case Trakt =>
    case Tvdb =>
    case Simkl =>
    case Imdb =>
  }

  /** Every set of providers lies within the five providers. */
  lemma WithinAll(s: set<Provider>)
    ensures s <= AllProviders
  {
    forall p | p in s
      ensures p in AllProviders
    {
      match p
      case Tmdb =>
      case Trakt =>
      case Tvdb =>
      case Simkl =>
      case Imdb =>
    }
  }

  /** A visited set that grew leaves fewer providers unvisited. */
  lemma FewerUnvisited(a: set<Provider>, b: set<Provider>)
    requires a <= b && a != b
    ensures |AllProviders - b| < |AllProviders - a|
  {
    WithinAll(b);
    var p :| p in b && p !in a;
    assert AllProviders * b == b && AllProviders * a == a && b * a == a;
    assert |AllProviders - b| == |AllProviders| - |b|;
    assert |AllProviders - a| == |AllProviders| - |a|;
    assert |b - a| == |b| - |a|;
    assert p in b - a;
  }

  /**
   * The breadth-first search of `resolveTo`, written as a recursion over its queue: the
   * head of the queue is expanded along its resolvers in registration order, and an
   * empty queue is UNRESOLVABLE.
   */
  function BfsFrom(rs: seq<Resolver>, target: Provider, call: (nat, ProviderRef) -> Resolution,
                   queue: seq<ProviderRef>, visited: set<Provider>): RouterResult<ProviderRef>
    decreases AllProviders - visited, |queue|, 0
  {
    if queue == [] then Err(NoPath(target))
    else ExpandFrom(rs, target, call, queue[0], Outgoing(rs, queue[0].ProviderOf(), |rs|), 0, queue[1..], visited)
  }

  /**
   * The resolvers of the reference `current` from `list[idx]` on, tried in order: one
   * whose `to` is visited is skipped; a throw stops with PROVIDER_ERROR, a result of the
   * target stops with it, no mapping goes on, and any other result is visited and enqueued.
   * A result of a visited provider cannot come from a resolver that returns its declared
   * `to`; it is passed over here, which keeps the recursion finite.
   */
  function ExpandFrom(rs: seq<Resolver>, target: Provider, call: (nat, ProviderRef) -> Resolution, current: ProviderRef,
                      list: seq<nat>, idx: nat, queue: seq<ProviderRef>, visited: set<Provider>): RouterResult<ProviderRef>
    requires idx <= |list| && forall j :: j in list ==> j < |rs|
    decreases AllProviders - visited, |queue|, |list| - idx + 1
  {
    if idx == |list| then BfsFrom(rs, target, call, queue, visited)
    else
      var j := list[idx];
      assert j in list;
      if rs[j].to in visited then ExpandFrom(rs, target, call, current, list, idx + 1, queue, visited)
      else
        match call(j, current)
        case Threw => Err(ResolverFailed(rs[j]))
        case NoMapping => ExpandFrom(rs, target, call, current, list, idx + 1, queue, visited)
        case Mapped(n) =>
          if n.ProviderOf() == target then Ok(n)
          else if n.ProviderOf() in visited then ExpandFrom(rs, target, call, current, list, idx + 1, queue, visited)
          else
            InAll(n.ProviderOf());
            ExpandFrom(rs, target, call, current, list, idx + 1, queue + [n], visited + {n.ProviderOf()})
  }

  /**
   * Of two resolvers registered from the start's provider to the target, the first one
   * registered decides the result; the second is never called.
   */
  lemma FirstRegisteredWins(start: ProviderRef, a: ProviderRef, b: ProviderRef)
    requires start.ProviderOf() == Imdb && a.ProviderOf() == Tmdb && b.ProviderOf() == Tmdb
    ensures BfsFrom([Resolver(Imdb, Tmdb), Resolver(Imdb, Tmdb)], Tmdb,
                    (i: nat, x: ProviderRef) => if i == 0 then Mapped(a) else Mapped(b), [start], {Imdb})
            == Ok(a)
  {
    var rs := [Resolver(Imdb, Tmdb), Resolver(Imdb, Tmdb)];
    assert Outgoing(rs, Imdb, 2) == [0, 1] by {
      assert Outgoing(rs, Imdb, 1) == [0];
    }
  }

  /**
   * A search whose first resolver from the start reaches the target ends there with its
   * result, whatever the other resolvers would return.
   */
  lemma FirstMappingToTargetWins(rs: seq<Resolver>, target: Provider, call: (nat, ProviderRef) -> Resolution,
                                  start: ProviderRef, j: nat)
    requires Outgoing(rs, start.ProviderOf(), |rs|) != [] && j == Outgoing(rs, start.ProviderOf(), |rs|)[0] && j < |rs|
    requires rs[j].to != start.ProviderOf() && call(j, start).Mapped? && call(j, start).ref.ProviderOf() == target
    ensures BfsFrom(rs, target, call, [start], {start.ProviderOf()}) == Ok(call(j, start).ref)
  {
  }

  /** The whole of `resolveTo`: a text that does not parse, a start of the target, or the search from the start. */
  function ResolveResult(rs: seq<Resolver>, target: Provider, input: RouterInput, call: (nat, ProviderRef) -> Resolution): RouterResult<ProviderRef>
  {
    match ParseInput(input)
    case None => Err(BadIdError())
    case Some(start) =>
      if start.ProviderOf() == target then Ok(start)
      else BfsFrom(rs, target, call, [start], {start.ProviderOf()})
  }

  class MediaRouter {
    const resolvers: seq<Resolver>
    const enrichers: seq<Provider>
    /** `edges`: for each provider, its resolvers' indices in registration order. */
    const edges: map<Provider, seq<nat>>
    /** `enricherMap`: for each provider, the index of its enricher. */
    const enricherMap: map<Provider, nat>

    /** The registries agree with the registrations. */
    predicate Valid() {
      (forall p :: EdgesFrom(p) == Outgoing(resolvers, p, |resolvers|))
      && (forall p :: EnricherFor(p) == LastRegistered(enrichers, p, |enrichers|))
    }

    function EdgesFrom(p: Provider): seq<nat> {
      if p in edges then edges[p] else []
    }

    function EnricherFor(p: Provider): Option<nat> {
      if p in enricherMap then Some(enricherMap[p]) else None
    }

    /** `createMediaRouter`: fills the enricher map and the edge lists in registration order. */
    constructor(resolvers: seq<Resolver>, enrichers: seq<Provider>)
      ensures this.resolvers == resolvers && this.enrichers == enrichers
      ensures Valid()
    {
      var enricherMap: map<Provider, nat> := map[];
      for i := 0 to |enrichers|
        invariant forall p :: (if p in enricherMap then Some(enricherMap[p]) else None) == LastRegistered(enrichers, p, i)
      {
        EnricherMapStep(enrichers, enricherMap, i);
        enricherMap := enricherMap[enrichers[i] := i];
      }
      var edges: map<Provider, seq<nat>> := map[];
      for i := 0 to |resolvers|
        invariant forall p :: (if p in edges then edges[p] else []) == Outgoing(resolvers, p, i)
      {
        EdgeMapStep(resolvers, edges, i);
        var list := if resolvers[i].from in edges then edges[resolvers[i].from] else [];
        edges := edges[resolvers[i].from := list + [i]];
      }
      this.resolvers := resolvers;
      this.enrichers := enrichers;
      this.edges := edges;
      this.enricherMap := enricherMap;
    }

    /**
     * `resolveTo`: breadth-first search from the parsed input along the resolver edges,
     * skipping resolvers whose `to` is visited, until a resolver yields the target.
     */
    method ResolveTo(target: Provider, input: RouterInput, call: (nat, ProviderRef) -> Resolution)
      returns (r: RouterResult<ProviderRef>, ghost calls: seq<Call>)
      requires Valid() && ReturnsDeclared(resolvers, call)
      ensures Resolves(resolvers, target, input, call, r, calls)
      ensures r == ResolveResult(resolvers, target, input, call)
    {
      calls := [];
      var parsed := ParseInput(input);
      if parsed.None? {
        r := Err(BadIdError());
        return;
      }
      var start := parsed.value;
      if start.ProviderOf() == target {
        r := Ok(start);
        return;
      }
      r, calls := Search(target, start, call);
    }

    /** The breadth-first search of `resolveTo` from a start that is not of the target provider. */
    method Search(target: Provider, start: ProviderRef, call: (nat, ProviderRef) -> Resolution)
      returns (r: RouterResult<ProviderRef>, ghost calls: seq<Call>)
      requires Valid() && ReturnsDeclared(resolvers, call)
      requires start.ProviderOf() != target
      ensures Searched(resolvers, start, target, call, r, calls)
      ensures r == BfsFrom(resolvers, target, call, [start], {start.ProviderOf()})
    {
      calls := [];
      var queue := [start];
      var visited := {start.ProviderOf()};
      ghost var done: seq<ProviderRef> := [];
      ghost var total := BfsFrom(resolvers, target, call, queue, visited);
      while queue != []
        invariant SearchState(resolvers, start, target, call, done, queue, visited, calls)
        invariant total == BfsFrom(resolvers, target, call, queue, visited)
        decreases |AllProviders - visited|, |queue|
      {
        var current := queue[0];
        assert queue == [current] + queue[1..];
        queue := queue[1..];
        ghost var visited0, queue0 := visited, queue;
        var stop;
        stop, queue, visited, calls := Expand(target, current, start, call, done, queue, visited, calls);
        if stop.Some? {
          SearchedOnStop(resolvers, target, start, call, stop.value, calls);
          r := stop.value;
          return;
        }
        done := done + [current];
        if visited != visited0 {
          FewerUnvisited(visited0, visited);
        }
      }
      SearchedOnExhaust(resolvers, target, start, call, done, visited, calls);
      r := Err(NoPath(target));
    }

    /**
     * The inner loop of `resolveTo` for one dequeued reference: tries its resolvers in
     * registration order. `stop` is the search's result when it ends here.
     */
    method Expand(target: Provider, current: ProviderRef, ghost start: ProviderRef, call: (nat, ProviderRef) -> Resolution,
                  ghost done: seq<ProviderRef>, queue0: seq<ProviderRef>, visited0: set<Provider>, ghost calls0: seq<Call>)
      returns (stop: Option<RouterResult<ProviderRef>>, queue: seq<ProviderRef>, visited: set<Provider>, ghost calls: seq<Call>)
      requires Valid() && ReturnsDeclared(resolvers, call)
      requires Frontier(resolvers, start, target, call, done, [current] + queue0, visited0, calls0)
      requires forall a :: 0 <= a < |calls0| ==> calls0[a].input in done
      ensures stop.Some? ==> CallsValid(resolvers, start, target, call, calls) && Stopped(resolvers, target, call, calls, stop.value)
      ensures stop.None? ==> Frontier(resolvers, start, target, call, done + [current], queue, visited, calls)
      ensures stop.None? ==> forall a :: 0 <= a < |calls| ==> calls[a].input in done + [current]
      ensures stop.None? ==> visited0 <= visited && (visited == visited0 ==> queue == queue0)
      ensures var list := Outgoing(resolvers, current.ProviderOf(), |resolvers|);
              var expected := ExpandFrom(resolvers, target, call, current, list, 0, queue0, visited0);
              if stop.Some? then stop.value == expected else ExpandFrom(resolvers, target, call, current, list, |list|, queue, visited) == expected
    {
      queue, visited, calls := queue0, visited0, calls0;
      var list := EdgesFrom(current.ProviderOf());
      ghost var total := ExpandFrom(resolvers, target, call, current, list, 0, queue0, visited0);
      CurrentNotDone(resolvers, start, target, call, done, current, queue0, visited0, calls0);
      var idx := 0;
      while idx < |list|
        invariant InnerState(resolvers, start, target, call, done, current, list, idx, queue0, visited0, queue, visited, calls)
        invariant total == ExpandFrom(resolvers, target, call, current, list, idx, queue, visited)
      {
        stop, queue, visited, calls := TryAt(target, current, start, call, done, list, idx, queue0, visited0, queue, visited, calls);
        if stop.Some? {
          return;
        }
        idx := idx + 1;
      }
      FrontierAdvance(resolvers, start, target, call, done, current, queue, visited, calls, list);
      assert list[..idx] == list;
      stop := None;
    }

    /**
     * One step of the inner loop, at the resolver `list[idx]`: a resolver whose `to` is
     * visited is skipped; otherwise it is called, and a throw or a result of the target
     * provider stops the search, a mapped result is visited and enqueued, and no mapping
     * changes nothing.
     */
    method TryAt(target: Provider, current: ProviderRef, ghost start: ProviderRef, call: (nat, ProviderRef) -> Resolution,
                 ghost done: seq<ProviderRef>, list: seq<nat>, idx: nat, ghost queueStart: seq<ProviderRef>,
                 ghost visitedStart: set<Provider>, queue0: seq<ProviderRef>, visited0: set<Provider>, ghost calls0: seq<Call>)
      returns (stop: Option<RouterResult<ProviderRef>>, queue: seq<ProviderRef>, visited: set<Provider>, ghost calls: seq<Call>)
      requires ReturnsDeclared(resolvers, call) && idx < |list|
      requires InnerState(resolvers, start, target, call, done, current, list, idx, queueStart, visitedStart, queue0, visited0, calls0)
      ensures stop.Some? ==> CallsValid(resolvers, start, target, call, calls) && Stopped(resolvers, target, call, calls, stop.value)
      ensures stop.None? ==>
                InnerState(resolvers, start, target, call, done, current, list, idx + 1, queueStart, visitedStart, queue, visited, calls)
      ensures var expected := ExpandFrom(resolvers, target, call, current, list, idx, queue0, visited0);
              if stop.Some? then stop.value == expected
              else ExpandFrom(resolvers, target, call, current, list, idx + 1, queue, visited) == expected
    {
      stop, queue, visited, calls := None, queue0, visited0, calls0;
      var j := list[idx];
      assert j in list;
      if resolvers[j].to in visited0 {
        TriedSkip(resolvers, current, list, idx, calls0, visited0);
        InputsSkip(done, current, list, idx, calls0);
        return;
      }
      EarlierResolvers(resolvers, done, current, list, idx, calls0);
      AppendValid(resolvers, start, target, call, done, current, queue0, visited0, calls0, j);
      var next := call(j, current);
      calls := calls0 + [Call(j, current)];
      match next {
        case Threw =>
          stop := Some(Err(ResolverFailed(resolvers[j])));
          return;
        case NoMapping =>
          FrontierStep(resolvers, start, target, call, done, current, queue0, visited0, calls0, j);
          CallStep(resolvers, done, current, list, idx, calls0, visited0, visited0);
        case Mapped(n) =>
          if n.ProviderOf() == target {
            stop := Some(Ok(n));
            return;
          }
          FrontierStep(resolvers, start, target, call, done, current, queue0, visited0, calls0, j);
          visited := visited0 + {n.ProviderOf()};
          queue := queue0 + [n];
          CallStep(resolvers, done, current, list, idx, calls0, visited0, visited);
      }
    }

    /**
     * `enrich`: a target without an enricher fails before any resolver call; a failed
     * resolution is passed through unchanged; otherwise the target's last registered
     * enricher is called on the resolved reference.
     */
    method Enrich<D>(target: Provider, input: RouterInput, call: (nat, ProviderRef) -> Resolution,
                     enrich: (nat, ProviderRef) -> Enrichment<D>)
      returns (r: RouterResult<D>, ghost resolved: RouterResult<ProviderRef>, ghost calls: seq<Call>)
      requires Valid() && ReturnsDeclared(resolvers, call)
      ensures LastRegistered(enrichers, target, |enrichers|).None? ==> r == Err(NoEnricher(target)) && calls == []
      ensures LastRegistered(enrichers, target, |enrichers|).Some? ==>
                Resolves(resolvers, target, input, call, resolved, calls)
                && resolved == ResolveResult(resolvers, target, input, call)
                && match resolved
                   case Err(e) => r == Err(e)
                   case Ok(v) =>
                     match enrich(LastRegistered(enrichers, target, |enrichers|).value, v)
                     case Enriched(d) => r == Ok(d)
                     case EnrichThrew => r == Err(EnricherFailed(target))
    {
      calls := [];
      resolved := Err(NoEnricher(target));
      var enricher := EnricherFor(target);
      if enricher.None? {
        r := Err(NoEnricher(target));
        return;
      }
      var res;
      res, calls := ResolveTo(target, input, call);
      resolved := res;
      match res
      case Err(e) =>
        r := Err(e);
      case Ok(v) =>
        match enrich(enricher.value, v)
        case Enriched(d) =>
          r := Ok(d);
        case EnrichThrew =>
          r := Err(EnricherFailed(target));
    }
  }
}
