/**
 * The Continue Watching list (`src/stremio/continueWatching.ts`): progress entries become
 * items, items are merged per title and ordered, and the next episode to watch is found.
 */
module ContinueWatching {
  import opened Wrappers
  import opened Strings
  import opened Media
  import opened StremioId
  import opened StremioTypes
  import opened Sorting
  import opened JsNumbers

  const DefaultIgnoreBelowPercent: real := 2.0
  const DefaultCompleteAtPercent: real := 85.0
  const DefaultStaleAfterDays: real := 30.0
  /** `24 * 60 * 60 * 1000`. */
  const MsPerDay: real := 86400000.0

  datatype EpisodeNumber = EpisodeNumber(season: int, episode: int)

  datatype WatchProgressEntry = WatchProgressEntry(
    mediaType: MediaType,
    id: string,
    currentTime: JsNumber,
    duration: JsNumber,
    lastUpdated: JsNumber,
    episode: Option<EpisodeNumber>,
    source: Option<string>)

  /** An entry with its progress; `lastUpdated` is finite for every item. */
  datatype ContinueWatchingItem = ContinueWatchingItem(
    mediaType: MediaType,
    id: string,
    currentTime: JsNumber,
    duration: JsNumber,
    lastUpdated: real,
    episode: Option<EpisodeNumber>,
    source: Option<string>,
    progressPercent: real,
    isPlaceholder: bool,
    isCompleted: bool,
    episodeId: Option<string>)

  /** The options; the current time is always passed in. */
  datatype ContinueWatchingOptions = ContinueWatchingOptions(
    nowMs: real,
    ignoreBelowPercent: Option<real>,
    completeAtPercent: Option<real>,
    staleAfterDays: Option<real>)

  function ClampPercent(n: real): (r: real)
    ensures 0.0 <= r <= 100.0
  {
    if n <= 0.0 then 0.0 else if n >= 100.0 then 100.0 else n
  }

  /** `Math.max(0, x)` for a finite number, 0 for any other. */
  function NonNegative(x: JsNumber): (r: real)
    ensures r >= 0.0
  {
    if x.Finite? && x.value > 0.0 then x.value else 0.0
  }

  /** `computeProgressPercent`: the watched share of the duration, in percent. */
  function ComputeProgressPercent(currentTime: JsNumber, duration: JsNumber): (p: real)
    ensures 0.0 <= p <= 100.0
    ensures p == 0.0 <==> NonNegative(duration) == 0.0 || NonNegative(currentTime) == 0.0
    ensures p == 100.0 <==> NonNegative(duration) > 0.0 && NonNegative(currentTime) >= NonNegative(duration)
  {
    var ct := NonNegative(currentTime);
    var d := NonNegative(duration);
    if d == 0.0 then 0.0
    else
      RatioBounds(ct, d);
      ClampPercent(ct / d * 100.0)
  }

  lemma RatioBounds(ct: real, d: real)
    requires ct >= 0.0 && d > 0.0
    ensures ct / d * 100.0 >= 0.0
    ensures ct / d * 100.0 == 0.0 <==> ct == 0.0
    ensures ct / d * 100.0 >= 100.0 <==> ct >= d
  {
    assert ct / d * d == ct;
  }

  /** Within one duration, more watched time never means less progress. */
  lemma ProgressMonotone(t1: real, t2: real, duration: JsNumber)
    requires t1 <= t2
    ensures ComputeProgressPercent(Finite(t1), duration) <= ComputeProgressPercent(Finite(t2), duration)
  {
    var d := NonNegative(duration);
    if d > 0.0 {
      var c1 := NonNegative(Finite(t1));
      var c2 := NonNegative(Finite(t2));
      assert c1 <= c2;
      assert c1 / d <= c2 / d by {
        assert c1 / d * d == c1 && c2 / d * d == c2;
      }
    }
  }

  function IgnoreBelow(options: ContinueWatchingOptions): real {
    options.ignoreBelowPercent.GetOr(DefaultIgnoreBelowPercent)
  }

  function CompleteAt(options: ContinueWatchingOptions): real {
    options.completeAtPercent.GetOr(DefaultCompleteAtPercent)
  }

  /** The window after which progress is stale, in milliseconds. */
  function StaleAfterMs(options: ContinueWatchingOptions): real {
    options.staleAfterDays.GetOr(DefaultStaleAfterDays) * MsPerDay
  }

  /** `isStaleProgress`: a non-finite time, or one older than the window. */
  predicate IsStaleProgress(lastUpdated: JsNumber, options: ContinueWatchingOptions) {
    lastUpdated.NotFinite? || options.nowMs - lastUpdated.value > StaleAfterMs(options)
  }

  /** Under the default window, progress is stale exactly when it is more than 30 days old. */
  lemma StaleByDefault(lastUpdated: real, options: ContinueWatchingOptions)
    requires options.staleAfterDays.None?
    ensures IsStaleProgress(Finite(lastUpdated), options) <==> options.nowMs - lastUpdated > 2592000000.0
  {
  }

  /** Stale progress stays stale as time goes on. */
  lemma StaysStale(lastUpdated: JsNumber, options: ContinueWatchingOptions, later: real)
    requires IsStaleProgress(lastUpdated, options) && later >= options.nowMs
    ensures IsStaleProgress(lastUpdated, options.(nowMs := later))
  {
  }

  /** The item carries the entry's own fields unchanged. */
  predicate CopiesEntry(item: ContinueWatchingItem, entry: WatchProgressEntry) {
    item.mediaType == entry.mediaType && item.id == entry.id
    && item.currentTime == entry.currentTime && item.duration == entry.duration
    && entry.lastUpdated == Finite(item.lastUpdated)
    && item.episode == entry.episode && item.source == entry.source
  }

  /** The episode id an entry's episode gives. */
  function EntryEpisodeId(entry: WatchProgressEntry): Option<string> {
    if entry.episode.Some? then BuildEpisodeId(entry.id, entry.episode.value.season, entry.episode.value.episode)
    else None
  }

  /**
   * `toContinueWatchingItem`: nothing for a blank id, a non-finite or stale time, or too
   * little progress; otherwise the entry with its progress, never a placeholder.
   */
  function ToContinueWatchingItem(entry: WatchProgressEntry, options: ContinueWatchingOptions): (r: Option<ContinueWatchingItem>)
    ensures r.None? <==>
              Trim(entry.id) == "" || entry.lastUpdated.NotFinite? || IsStaleProgress(entry.lastUpdated, options)
              || ComputeProgressPercent(entry.currentTime, entry.duration) < IgnoreBelow(options)
    ensures r.Some? ==>
              CopiesEntry(r.value, entry) && !r.value.isPlaceholder
              && r.value.progressPercent == ComputeProgressPercent(entry.currentTime, entry.duration)
              && (r.value.isCompleted <==> r.value.progressPercent >= CompleteAt(options))
              && r.value.episodeId == EntryEpisodeId(entry)
  {
    if Trim(entry.id) == "" then None
    else if entry.lastUpdated.NotFinite? then None
    else if IsStaleProgress(entry.lastUpdated, options) then None
    else
      var progressPercent := ComputeProgressPercent(entry.currentTime, entry.duration);
      if progressPercent < IgnoreBelow(options) then None
      else
        Some(ContinueWatchingItem(
          entry.mediaType, entry.id, entry.currentTime, entry.duration, entry.lastUpdated.value,
          entry.episode, entry.source, progressPercent, false, progressPercent >= CompleteAt(options),
          EntryEpisodeId(entry)))
  }

  /** An item's episode id is the built `<id>:<s>:<e>`, which parses back into its parts. */
  lemma ItemEpisodeId(entry: WatchProgressEntry, options: ContinueWatchingOptions)
    requires ToContinueWatchingItem(entry, options).Some?
    requires entry.episode.Some? && entry.episode.value.season > 0 && entry.episode.value.episode > 0
    ensures var item := ToContinueWatchingItem(entry, options).value;
            var ep := entry.episode.value;
            item.episodeId.Some?
            && ParseEpisodeIdSuffix(item.episodeId.value) == EpisodeIdSuffix(Trim(entry.id), Some(ep.season), Some(ep.episode))
  {
    var ep := entry.episode.value;
    EpisodeIdRoundTrip(entry.id, ep.season, ep.episode);
  }

  predicate SameEpisode(a: ContinueWatchingItem, b: ContinueWatchingItem) {
    a.mediaType == Series && b.mediaType == Series
    && a.episode.Some? && b.episode.Some? && a.episode.value == b.episode.value
  }

  /** Two movies, or two items for the same series episode, compare by progress first. */
  predicate ByProgress(a: ContinueWatchingItem, b: ContinueWatchingItem) {
    (a.mediaType == Movie && b.mediaType == Movie) || SameEpisode(a, b)
  }

  /**
   * `pickBetterCandidate`: real progress beats a placeholder; movies and the same episode
   * go by progress, then recency; any other pair by recency, then progress. Full ties keep `a`.
   */
  function PickBetterCandidate(a: ContinueWatchingItem, b: ContinueWatchingItem): (r: ContinueWatchingItem)
    ensures r == a || r == b
  {
    if a.isPlaceholder != b.isPlaceholder then (if a.isPlaceholder then b else a)
    else if ByProgress(a, b) then
      if a.progressPercent != b.progressPercent then (if a.progressPercent > b.progressPercent then a else b)
      else if a.lastUpdated >= b.lastUpdated then a else b
    else if a.lastUpdated != b.lastUpdated then (if a.lastUpdated > b.lastUpdated then a else b)
    else if a.progressPercent >= b.progressPercent then a else b
  }

  function Max(x: real, y: real): real {
    if x >= y then x else y
  }

  /** A real item beats a placeholder, whichever comes first. */
  lemma RealBeatsPlaceholder(a: ContinueWatchingItem, b: ContinueWatchingItem)
    requires a.isPlaceholder != b.isPlaceholder
    ensures !PickBetterCandidate(a, b).isPlaceholder
    ensures PickBetterCandidate(a, b) == (if a.isPlaceholder then b else a)
  {
  }

  /** For two movies or the same episode: the higher progress, and on equal progress the newer. */
  lemma ProgressDecides(a: ContinueWatchingItem, b: ContinueWatchingItem)
    requires a.isPlaceholder == b.isPlaceholder && ByProgress(a, b)
    ensures PickBetterCandidate(a, b).progressPercent == Max(a.progressPercent, b.progressPercent)
    ensures a.progressPercent == b.progressPercent ==> PickBetterCandidate(a, b).lastUpdated == Max(a.lastUpdated, b.lastUpdated)
  {
  }

  /** For any other pair: the newer, and on equal times the higher progress. */
  lemma RecencyDecides(a: ContinueWatchingItem, b: ContinueWatchingItem)
    requires a.isPlaceholder == b.isPlaceholder && !ByProgress(a, b)
    ensures PickBetterCandidate(a, b).lastUpdated == Max(a.lastUpdated, b.lastUpdated)
    ensures a.lastUpdated == b.lastUpdated ==> PickBetterCandidate(a, b).progressPercent == Max(a.progressPercent, b.progressPercent)
  {
  }

  /** The order of the two candidates matters only on a full tie. */
  lemma PickBetterSymmetric(a: ContinueWatchingItem, b: ContinueWatchingItem)
    requires a.isPlaceholder != b.isPlaceholder || a.progressPercent != b.progressPercent || a.lastUpdated != b.lastUpdated
    ensures PickBetterCandidate(a, b) == PickBetterCandidate(b, a)
  {
  }

  /** The merge key `${type}:${id}`. */
  datatype ContentKey = ContentKey(mediaType: MediaType, id: string)

  function KeyOf(item: ContinueWatchingItem): ContentKey {
    ContentKey(item.mediaType, item.id)
  }

  predicate CompletedMovie(item: ContinueWatchingItem) {
    item.mediaType == Movie && item.isCompleted
  }

  /** The item of each entry, in entry order. */
  function Items(entries: seq<WatchProgressEntry>, options: ContinueWatchingOptions): (r: seq<Option<ContinueWatchingItem>>)
    ensures |r| == |entries| && forall i :: 0 <= i < |entries| ==> r[i] == ToContinueWatchingItem(entries[i], options)
    ensures NoPlaceholders(r)
  {
    seq(|entries|, i requires 0 <= i < |entries| => ToContinueWatchingItem(entries[i], options))
  }

  /** No present item is a placeholder. */
  predicate NoPlaceholders(items: seq<Option<ContinueWatchingItem>>) {
    forall i :: 0 <= i < |items| && items[i].Some? ==> !items[i].value.isPlaceholder
  }

  /** Keeping candidates keeps no placeholder when there was none. */
  lemma KeptNoPlaceholder(items: seq<Option<ContinueWatchingItem>>)
    requires NoPlaceholders(items)
    ensures forall i :: 0 <= i < |KeepCandidates(items)| ==> !KeepCandidates(items)[i].isPlaceholder
  {
    var r := KeepCandidates(items);
    forall i | 0 <= i < |r| ensures !r[i].isPlaceholder {
      var j :| 0 <= j < |items| && items[j] == Some(r[i]);
    }
  }

  /** The items kept as candidates, in order: every present item except a completed movie. */
  function KeepCandidates(items: seq<Option<ContinueWatchingItem>>): (r: seq<ContinueWatchingItem>)
    ensures forall i :: 0 <= i < |r| ==> Some(r[i]) in items && !CompletedMovie(r[i])
    ensures forall j :: 0 <= j < |items| && items[j].Some? && !CompletedMovie(items[j].value) ==> items[j].value in r
  {
    if |items| == 0 then []
    else
      var init := items[..|items| - 1];
      var rest := KeepCandidates(init);
      var item := items[|items| - 1];
      assert items == init + [item];
      if item.Some? && !CompletedMovie(item.value) then rest + [item.value] else rest
  }

  /** One more item extends the kept candidates by that item, when it is kept. */
  lemma KeepCandidatesStep(items: seq<Option<ContinueWatchingItem>>, i: nat)
    requires i < |items|
    ensures KeepCandidates(items[..i + 1])
            == KeepCandidates(items[..i]) + (if items[i].Some? && !CompletedMovie(items[i].value) then [items[i].value] else [])
  {
    assert items[..i + 1][..i] == items[..i];
  }

  /** The items the entries contribute: every convertible entry except a completed movie. */
  function Candidates(entries: seq<WatchProgressEntry>, options: ContinueWatchingOptions): (r: seq<ContinueWatchingItem>)
    ensures forall i :: 0 <= i < |r| ==> !r[i].isPlaceholder && !CompletedMovie(r[i])
  {
    var items := Items(entries, options);
    KeptNoPlaceholder(items);
    KeepCandidates(items)
  }

  /** Every candidate is the item of one of the entries. */
  lemma CandidateFromEntry(entries: seq<WatchProgressEntry>, options: ContinueWatchingOptions, c: ContinueWatchingItem)
    requires c in Candidates(entries, options)
    ensures exists j :: 0 <= j < |entries| && ToContinueWatchingItem(entries[j], options) == Some(c)
  {
    var items := Items(entries, options);
    var j :| 0 <= j < |items| && items[j] == Some(c);
  }

  /** Every entry that makes an item other than a completed movie is a candidate. */
  lemma EntryIsCandidate(entries: seq<WatchProgressEntry>, options: ContinueWatchingOptions, j: nat)
    requires j < |entries|
    requires ToContinueWatchingItem(entries[j], options).Some? && !CompletedMovie(ToContinueWatchingItem(entries[j], options).value)
    ensures ToContinueWatchingItem(entries[j], options).value in Candidates(entries, options)
  {
    assert Items(entries, options)[j] == ToContinueWatchingItem(entries[j], options);
  }

  /** The `byContent` map with its keys in insertion order, which is the order of `values()`. */
  datatype Grouping = Grouping(keys: seq<ContentKey>, byContent: map<ContentKey, ContinueWatchingItem>)

  ghost predicate GroupingValid(g: Grouping) {
    (forall i :: 0 <= i < |g.keys| ==> g.keys[i] in g.byContent)
    && (forall k :: k in g.byContent ==> k in g.keys && KeyOf(g.byContent[k]) == k)
    && (forall i, j :: 0 <= i < j < |g.keys| ==> g.keys[i] != g.keys[j])
  }

  /** One step of the grouping loop: a new key is appended, a known one keeps the better item. */
  function AddCandidate(g: Grouping, item: ContinueWatchingItem): Grouping {
    var key := KeyOf(item);
    if key in g.byContent then Grouping(g.keys, g.byContent[key := PickBetterCandidate(g.byContent[key], item)])
    else Grouping(g.keys + [key], g.byContent[key := item])
  }

  function GroupByContent(candidates: seq<ContinueWatchingItem>): Grouping {
    if |candidates| == 0 then Grouping([], map[])
    else AddCandidate(GroupByContent(candidates[..|candidates| - 1]), candidates[|candidates| - 1])
  }

  /** The chosen movie has the highest progress of every candidate for its title. */
  ghost predicate BestMovies(g: Grouping, candidates: seq<ContinueWatchingItem>) {
    forall k, c :: k in g.byContent && k.mediaType == Movie && c in candidates && KeyOf(c) == k
      ==> c.progressPercent <= g.byContent[k].progressPercent
  }

  /** What the grouping keeps: one item per key, each a candidate, every candidate's key present. */
  lemma {:induction false} GroupByContentSpec(candidates: seq<ContinueWatchingItem>)
    requires forall i :: 0 <= i < |candidates| ==> !candidates[i].isPlaceholder
    ensures var g := GroupByContent(candidates);
            GroupingValid(g)
            && (forall k :: k in g.byContent ==> g.byContent[k] in candidates)
            && (forall i :: 0 <= i < |candidates| ==> KeyOf(candidates[i]) in g.byContent)
            && BestMovies(g, candidates)
  {
    if |candidates| > 0 {
      var init := candidates[..|candidates| - 1];
      var item := candidates[|candidates| - 1];
      var g := GroupByContent(init);
      GroupByContentSpec(init);
      assert candidates == init + [item];
      AddKeepsValid(g, item);
      AddKeepsMembers(g, init, item);
      AddKeepsKeys(g, init, item);
      AddKeepsBestMovies(g, init, item);
    }
  }

  lemma AddKeepsValid(g: Grouping, item: ContinueWatchingItem)
    requires GroupingValid(g)
    ensures GroupingValid(AddCandidate(g, item))
  {
    var key := KeyOf(item);
    var g' := AddCandidate(g, item);
    if key !in g.byContent {
      forall i, j | 0 <= i < j < |g'.keys| ensures g'.keys[i] != g'.keys[j] {
        if j == |g.keys| {
          assert g'.keys[i] == g.keys[i];
        }
      }
    }
  }

  lemma AddKeepsMembers(g: Grouping, init: seq<ContinueWatchingItem>, item: ContinueWatchingItem)
    requires forall k :: k in g.byContent ==> g.byContent[k] in init
    ensures var g' := AddCandidate(g, item);
            forall k :: k in g'.byContent ==> g'.byContent[k] in init + [item]
  {
  }

  lemma AddKeepsKeys(g: Grouping, init: seq<ContinueWatchingItem>, item: ContinueWatchingItem)
    requires forall i :: 0 <= i < |init| ==> KeyOf(init[i]) in g.byContent
    ensures var g' := AddCandidate(g, item);
            forall i :: 0 <= i < |init + [item]| ==> KeyOf((init + [item])[i]) in g'.byContent
  {
  }

  lemma AddKeepsBestMovies(g: Grouping, init: seq<ContinueWatchingItem>, item: ContinueWatchingItem)
    requires forall i :: 0 <= i < |init| ==> !init[i].isPlaceholder
    requires !item.isPlaceholder
    requires forall k :: k in g.byContent ==> g.byContent[k] in init && KeyOf(g.byContent[k]) == k
    requires forall i :: 0 <= i < |init| ==> KeyOf(init[i]) in g.byContent
    requires BestMovies(g, init)
    ensures BestMovies(AddCandidate(g, item), init + [item])
  {
    var key := KeyOf(item);
    var g' := AddCandidate(g, item);
    forall k, c | k in g'.byContent && k.mediaType == Movie && c in init + [item] && KeyOf(c) == k
      ensures c.progressPercent <= g'.byContent[k].progressPercent
    {
      if k == key && key in g.byContent {
        var prev := g.byContent[key];
        assert !prev.isPlaceholder;
        ProgressDecides(prev, item);
      } else if k == key {
        assert c in init ==> KeyOf(c) in g.byContent;
      }
    }
  }

  /** No two candidates of the title `k` are for the same episode. */
  predicate EpisodesDiffer(candidates: seq<ContinueWatchingItem>, k: ContentKey) {
    forall i, j :: 0 <= i < j < |candidates| && KeyOf(candidates[i]) == k && KeyOf(candidates[j]) == k
      ==> !SameEpisode(candidates[i], candidates[j])
  }

  /** Every two candidates of the title `k` are for the same episode. */
  predicate EpisodesAgree(candidates: seq<ContinueWatchingItem>, k: ContentKey) {
    forall i, j :: 0 <= i < j < |candidates| && KeyOf(candidates[i]) == k && KeyOf(candidates[j]) == k
      ==> SameEpisode(candidates[i], candidates[j])
  }

  /** The item kept for `k` is at least as recent as every candidate for `k`. */
  ghost predicate NewestFor(g: Grouping, candidates: seq<ContinueWatchingItem>, k: ContentKey) {
    k in g.byContent ==> forall c :: c in candidates && KeyOf(c) == k ==> c.lastUpdated <= g.byContent[k].lastUpdated
  }

  /** The item kept for `k` has at least the progress of every candidate for `k`. */
  ghost predicate FurthestFor(g: Grouping, candidates: seq<ContinueWatchingItem>, k: ContentKey) {
    k in g.byContent ==> forall c :: c in candidates && KeyOf(c) == k ==> c.progressPercent <= g.byContent[k].progressPercent
  }

  lemma AddKeepsNewest(g: Grouping, init: seq<ContinueWatchingItem>, item: ContinueWatchingItem, k: ContentKey)
    requires !item.isPlaceholder && (k in g.byContent ==> !g.byContent[k].isPlaceholder)
    requires forall i :: 0 <= i < |init| ==> KeyOf(init[i]) in g.byContent
    requires KeyOf(item) == k && k in g.byContent ==> !ByProgress(g.byContent[k], item)
    requires NewestFor(g, init, k)
    ensures NewestFor(AddCandidate(g, item), init + [item], k)
  {
    if KeyOf(item) == k && k in g.byContent {
      RecencyDecides(g.byContent[k], item);
    } else if KeyOf(item) == k {
      assert forall c :: c in init ==> KeyOf(c) in g.byContent;
    }
  }

  lemma AddKeepsFurthest(g: Grouping, init: seq<ContinueWatchingItem>, item: ContinueWatchingItem, k: ContentKey)
    requires !item.isPlaceholder && (k in g.byContent ==> !g.byContent[k].isPlaceholder)
    requires forall i :: 0 <= i < |init| ==> KeyOf(init[i]) in g.byContent
    requires KeyOf(item) == k && k in g.byContent ==> ByProgress(g.byContent[k], item)
    requires FurthestFor(g, init, k)
    ensures FurthestFor(AddCandidate(g, item), init + [item], k)
  {
    if KeyOf(item) == k && k in g.byContent {
      ProgressDecides(g.byContent[k], item);
    } else if KeyOf(item) == k {
      assert forall c :: c in init ==> KeyOf(c) in g.byContent;
    }
  }

  /** The item kept for `k` is one of the candidates for `k`, and every candidate's key is kept. */
  lemma KeptFrom(candidates: seq<ContinueWatchingItem>, k: ContentKey)
    requires forall i :: 0 <= i < |candidates| ==> !candidates[i].isPlaceholder
    ensures var g := GroupByContent(candidates);
            (forall i :: 0 <= i < |candidates| ==> KeyOf(candidates[i]) in g.byContent)
            && (k in g.byContent ==>
                  !g.byContent[k].isPlaceholder && KeyOf(g.byContent[k]) == k
                  && exists p :: 0 <= p < |candidates| && candidates[p] == g.byContent[k])
  {
    GroupByContentSpec(candidates);
  }

  /**
   * For a series whose candidates are all for different episodes, the grouped item is
   * the most recently updated of them.
   */
  lemma {:induction false} GroupNewestEpisode(candidates: seq<ContinueWatchingItem>, k: ContentKey)
    requires forall i :: 0 <= i < |candidates| ==> !candidates[i].isPlaceholder
    requires k.mediaType == Series && EpisodesDiffer(candidates, k)
    ensures NewestFor(GroupByContent(candidates), candidates, k)
  {
    if |candidates| > 0 {
      var n := |candidates| - 1;
      var init := candidates[..n];
      var item := candidates[n];
      assert candidates == init + [item];
      assert EpisodesDiffer(init, k) by {
        assert forall i :: 0 <= i < n ==> init[i] == candidates[i];
      }
      GroupNewestEpisode(init, k);
      KeptFrom(init, k);
      var g := GroupByContent(init);
      if k in g.byContent {
        var p :| 0 <= p < n && init[p] == g.byContent[k];
        assert KeyOf(item) == k ==> !SameEpisode(candidates[p], candidates[n]);
      }
      AddKeepsNewest(g, init, item, k);
    }
  }

  /**
   * For a series whose candidates are all for one episode, from whatever sources, the
   * grouped item has the highest progress of them.
   */
  lemma {:induction false} GroupBestProgressEpisode(candidates: seq<ContinueWatchingItem>, k: ContentKey)
    requires forall i :: 0 <= i < |candidates| ==> !candidates[i].isPlaceholder
    requires k.mediaType == Series && EpisodesAgree(candidates, k)
    ensures FurthestFor(GroupByContent(candidates), candidates, k)
  {
    if |candidates| > 0 {
      var n := |candidates| - 1;
      var init := candidates[..n];
      var item := candidates[n];
      assert candidates == init + [item];
      assert EpisodesAgree(init, k) by {
        assert forall i :: 0 <= i < n ==> init[i] == candidates[i];
      }
      GroupBestProgressEpisode(init, k);
      KeptFrom(init, k);
      var g := GroupByContent(init);
      if k in g.byContent {
        var p :| 0 <= p < n && init[p] == g.byContent[k];
        assert KeyOf(item) == k ==> SameEpisode(candidates[p], candidates[n]);
      }
      AddKeepsFurthest(g, init, item, k);
    }
  }

  /** A series item of one episode with the given time and progress. */
  function EpisodeProgress(id: string, episode: int, lastUpdated: real, progressPercent: real): ContinueWatchingItem {
    ContinueWatchingItem(Series, id, Finite(0.0), Finite(0.0), lastUpdated, Some(EpisodeNumber(1, episode)), None,
                         progressPercent, false, false, None)
  }

  /**
   * When a series mixes a repeated episode with another one, the kept item depends on
   * the order of the entries: the pairwise rule is not a maximum over them.
   */
  lemma MergeDependsOnOrder(id: string)
    ensures var a := EpisodeProgress(id, 1, 10.0, 50.0);
            var b := EpisodeProgress(id, 1, 5.0, 90.0);
            var c := EpisodeProgress(id, 2, 7.0, 40.0);
            var k := ContentKey(Series, id);
            GroupByContent([a, b, c]).byContent[k] == c && GroupByContent([a, c, b]).byContent[k] == b
  {
    var a := EpisodeProgress(id, 1, 10.0, 50.0);
    var b := EpisodeProgress(id, 1, 5.0, 90.0);
    var c := EpisodeProgress(id, 2, 7.0, 40.0);
    var k := ContentKey(Series, id);
    assert [a, b, c][..2] == [a, b] && [a, b][..1] == [a] && [a][..0] == [];
    assert [a, c, b][..2] == [a, c] && [a, c][..1] == [a];
    assert GroupByContent([a]).byContent == map[k := a];
    assert GroupByContent([a, b]).byContent[k] == b;
    assert GroupByContent([a, c]).byContent[k] == a;
  }

  /** `[...byContent.values()]`. */
  function Values(g: Grouping): (r: seq<ContinueWatchingItem>)
    requires forall i :: 0 <= i < |g.keys| ==> g.keys[i] in g.byContent
    ensures |r| == |g.keys| && forall i :: 0 <= i < |r| ==> r[i] == g.byContent[g.keys[i]]
  {
    seq(|g.keys|, i requires 0 <= i < |g.keys| => g.byContent[g.keys[i]])
  }

  /** `isInProgress` of the comparator: real progress above zero. */
  predicate InProgress(item: ContinueWatchingItem) {
    !item.isPlaceholder && item.progressPercent > 0.0
  }

  /** The comparator as a key: in-progress items first, then the newest first. */
  function ProgressOrder(item: ContinueWatchingItem): SortKey {
    SortKey(if InProgress(item) then 0 else 1, -item.lastUpdated)
  }

  /**
   * `sortContinueWatching`: a stable reordering that puts every in-progress item first and
   * orders each group from the most to the least recently updated.
   */
  function SortContinueWatching(items: seq<ContinueWatchingItem>): (r: seq<ContinueWatchingItem>)
    ensures multiset(r) == multiset(items) && |r| == |items|
    ensures forall i, j :: 0 <= i < j < |r| && InProgress(r[j]) ==> InProgress(r[i])
    ensures forall i, j :: 0 <= i < j < |r| && InProgress(r[i]) == InProgress(r[j]) ==> r[i].lastUpdated >= r[j].lastUpdated
  {
    SortByLength(items, ProgressOrder);
    var r := SortBy(items, ProgressOrder);
    assert forall i, j :: 0 <= i < j < |r| ==> !KeyLess(ProgressOrder(r[j]), ProgressOrder(r[i]));
    r
  }

  /** The merged list `mergeContinueWatching` returns. */
  function Merged(entries: seq<WatchProgressEntry>, options: ContinueWatchingOptions): seq<ContinueWatchingItem> {
    MergeCandidates(Candidates(entries, options))
  }

  /** The better item per title, in first-seen order, sorted. */
  function MergeCandidates(candidates: seq<ContinueWatchingItem>): seq<ContinueWatchingItem>
    requires forall i :: 0 <= i < |candidates| ==> !candidates[i].isPlaceholder
  {
    GroupByContentSpec(candidates);
    SortContinueWatching(Values(GroupByContent(candidates)))
  }

  /** The grouped values before sorting: one per title, each a candidate. */
  lemma GroupedValues(candidates: seq<ContinueWatchingItem>)
    requires forall i :: 0 <= i < |candidates| ==> !candidates[i].isPlaceholder
    ensures var g := GroupByContent(candidates);
            GroupingValid(g)
            && Distinct(Values(g), KeyOf)
            && (forall i :: 0 <= i < |Values(g)| ==> Values(g)[i] in candidates)
            && MergeCandidates(candidates) == SortBy(Values(g), ProgressOrder)
  {
    GroupByContentSpec(candidates);
  }

  /** Each item of the merged list is one of the grouped values, and back. */
  lemma MergedMembers(candidates: seq<ContinueWatchingItem>, x: ContinueWatchingItem)
    requires forall i :: 0 <= i < |candidates| ==> !candidates[i].isPlaceholder
    ensures GroupingValid(GroupByContent(candidates))
            && (x in MergeCandidates(candidates) <==> x in Values(GroupByContent(candidates)))
  {
    GroupedValues(candidates);
    SortByMembers(Values(GroupByContent(candidates)), ProgressOrder, x);
  }

  /** The merged list holds at most one item per `(type, id)`. */
  lemma MergedUniqueKeys(entries: seq<WatchProgressEntry>, options: ContinueWatchingOptions)
    ensures var out := Merged(entries, options);
            forall i, j :: 0 <= i < j < |out| ==> KeyOf(out[i]) != KeyOf(out[j])
  {
    MergeUniqueKeys(Candidates(entries, options));
  }

  lemma MergeUniqueKeys(candidates: seq<ContinueWatchingItem>)
    requires forall i :: 0 <= i < |candidates| ==> !candidates[i].isPlaceholder
    ensures var out := MergeCandidates(candidates);
            forall i, j :: 0 <= i < j < |out| ==> KeyOf(out[i]) != KeyOf(out[j])
  {
    GroupedValues(candidates);
    SortByDistinct(Values(GroupByContent(candidates)), ProgressOrder, KeyOf);
  }

  /** Every merged item is a candidate, so never a placeholder and never a completed movie. */
  lemma MergedFromCandidates(entries: seq<WatchProgressEntry>, options: ContinueWatchingOptions)
    ensures var out := Merged(entries, options);
            forall i :: 0 <= i < |out| ==> out[i] in Candidates(entries, options) && !CompletedMovie(out[i]) && !out[i].isPlaceholder
  {
    MergeFromCandidates(Candidates(entries, options));
  }

  lemma MergeFromCandidates(candidates: seq<ContinueWatchingItem>)
    requires forall i :: 0 <= i < |candidates| ==> !candidates[i].isPlaceholder && !CompletedMovie(candidates[i])
    ensures var out := MergeCandidates(candidates);
            forall i :: 0 <= i < |out| ==> out[i] in candidates && !CompletedMovie(out[i]) && !out[i].isPlaceholder
  {
    var out := MergeCandidates(candidates);
    GroupedValues(candidates);
    forall i | 0 <= i < |out|
      ensures out[i] in candidates
    {
      MergedMembers(candidates, out[i]);
    }
  }

  /** Every title that has a candidate is in the merged list. */
  lemma MergedCoversCandidates(entries: seq<WatchProgressEntry>, options: ContinueWatchingOptions, c: ContinueWatchingItem)
    requires c in Candidates(entries, options)
    ensures exists i :: 0 <= i < |Merged(entries, options)| && KeyOf(Merged(entries, options)[i]) == KeyOf(c)
  {
    var candidates := Candidates(entries, options);
    MergeCoversCandidates(candidates, c);
    var i :| 0 <= i < |MergeCandidates(candidates)| && KeyOf(MergeCandidates(candidates)[i]) == KeyOf(c);
    assert Merged(entries, options)[i] == MergeCandidates(candidates)[i];
  }

  lemma MergeCoversCandidates(candidates: seq<ContinueWatchingItem>, c: ContinueWatchingItem)
    requires forall i :: 0 <= i < |candidates| ==> !candidates[i].isPlaceholder
    requires c in candidates
    ensures exists i :: 0 <= i < |MergeCandidates(candidates)| && KeyOf(MergeCandidates(candidates)[i]) == KeyOf(c)
  {
    var g := GroupByContent(candidates);
    GroupByContentSpec(candidates);
    var k :| 0 <= k < |candidates| && candidates[k] == c;
    assert KeyOf(c) in g.byContent;
    var p :| 0 <= p < |g.keys| && g.keys[p] == KeyOf(c);
    var values := Values(g);
    assert values[p] == g.byContent[KeyOf(c)];
    MergedMembers(candidates, values[p]);
    var out := MergeCandidates(candidates);
    var i :| 0 <= i < |out| && out[i] == values[p];
  }

  /** A movie's merged item has the highest progress of all its candidates. */
  lemma MergedBestMovie(entries: seq<WatchProgressEntry>, options: ContinueWatchingOptions, i: nat, c: ContinueWatchingItem)
    requires i < |Merged(entries, options)| && Merged(entries, options)[i].mediaType == Movie
    requires c in Candidates(entries, options) && KeyOf(c) == KeyOf(Merged(entries, options)[i])
    ensures c.progressPercent <= Merged(entries, options)[i].progressPercent
  {
    MergeBestMovie(Candidates(entries, options), i, c);
  }

  lemma MergeBestMovie(candidates: seq<ContinueWatchingItem>, i: nat, c: ContinueWatchingItem)
    requires forall i :: 0 <= i < |candidates| ==> !candidates[i].isPlaceholder
    requires i < |MergeCandidates(candidates)| && MergeCandidates(candidates)[i].mediaType == Movie
    requires c in candidates && KeyOf(c) == KeyOf(MergeCandidates(candidates)[i])
    ensures c.progressPercent <= MergeCandidates(candidates)[i].progressPercent
  {
    var g := GroupByContent(candidates);
    GroupByContentSpec(candidates);
    var x := MergeCandidates(candidates)[i];
    MergedMembers(candidates, x);
    var p :| 0 <= p < |Values(g)| && Values(g)[p] == x;
    assert g.byContent[g.keys[p]] == x;
  }

  /**
   * A series whose candidates are all for different episodes: its merged item is the
   * most recently updated of them.
   */
  lemma MergedNewestEpisode(entries: seq<WatchProgressEntry>, options: ContinueWatchingOptions, i: nat, c: ContinueWatchingItem)
    requires i < |Merged(entries, options)| && Merged(entries, options)[i].mediaType == Series
    requires EpisodesDiffer(Candidates(entries, options), KeyOf(Merged(entries, options)[i]))
    requires c in Candidates(entries, options) && KeyOf(c) == KeyOf(Merged(entries, options)[i])
    ensures c.lastUpdated <= Merged(entries, options)[i].lastUpdated
  {
    MergeNewestEpisode(Candidates(entries, options), i, c);
  }

  lemma MergeNewestEpisode(candidates: seq<ContinueWatchingItem>, i: nat, c: ContinueWatchingItem)
    requires forall i :: 0 <= i < |candidates| ==> !candidates[i].isPlaceholder
    requires i < |MergeCandidates(candidates)| && MergeCandidates(candidates)[i].mediaType == Series
    requires EpisodesDiffer(candidates, KeyOf(MergeCandidates(candidates)[i]))
    requires c in candidates && KeyOf(c) == KeyOf(MergeCandidates(candidates)[i])
    ensures c.lastUpdated <= MergeCandidates(candidates)[i].lastUpdated
  {
    var g := GroupByContent(candidates);
    var x := MergeCandidates(candidates)[i];
    MergedMembers(candidates, x);
    var p :| 0 <= p < |Values(g)| && Values(g)[p] == x;
    assert g.byContent[g.keys[p]] == x;
    GroupNewestEpisode(candidates, KeyOf(x));
  }

  /**
   * A series whose candidates are all for one episode: its merged item has the highest
   * progress of them.
   */
  lemma MergedFurthestEpisode(entries: seq<WatchProgressEntry>, options: ContinueWatchingOptions, i: nat, c: ContinueWatchingItem)
    requires i < |Merged(entries, options)| && Merged(entries, options)[i].mediaType == Series
    requires EpisodesAgree(Candidates(entries, options), KeyOf(Merged(entries, options)[i]))
    requires c in Candidates(entries, options) && KeyOf(c) == KeyOf(Merged(entries, options)[i])
    ensures c.progressPercent <= Merged(entries, options)[i].progressPercent
  {
    MergeFurthestEpisode(Candidates(entries, options), i, c);
  }

  lemma MergeFurthestEpisode(candidates: seq<ContinueWatchingItem>, i: nat, c: ContinueWatchingItem)
    requires forall i :: 0 <= i < |candidates| ==> !candidates[i].isPlaceholder
    requires i < |MergeCandidates(candidates)| && MergeCandidates(candidates)[i].mediaType == Series
    requires EpisodesAgree(candidates, KeyOf(MergeCandidates(candidates)[i]))
    requires c in candidates && KeyOf(c) == KeyOf(MergeCandidates(candidates)[i])
    ensures c.progressPercent <= MergeCandidates(candidates)[i].progressPercent
  {
    var g := GroupByContent(candidates);
    var x := MergeCandidates(candidates)[i];
    MergedMembers(candidates, x);
    var p :| 0 <= p < |Values(g)| && Values(g)[p] == x;
    assert g.byContent[g.keys[p]] == x;
    GroupBestProgressEpisode(candidates, KeyOf(x));
  }

  /** Every item of the merged list comes from one of the entries. */
  lemma MergedFromEntries(entries: seq<WatchProgressEntry>, options: ContinueWatchingOptions, i: nat)
    requires i < |Merged(entries, options)|
    ensures exists j :: 0 <= j < |entries| && ToContinueWatchingItem(entries[j], options) == Some(Merged(entries, options)[i])
  {
    MergedFromCandidates(entries, options);
    CandidateFromEntry(entries, options, Merged(entries, options)[i]);
  }

  /**
   * `mergeContinueWatching`: collects the candidates, keeps the better item per title in
   * first-seen order and sorts the result.
   */
  method MergeContinueWatching(entries: seq<WatchProgressEntry>, options: ContinueWatchingOptions)
    returns (out: seq<ContinueWatchingItem>)
    ensures out == Merged(entries, options)
    ensures forall i, j :: 0 <= i < j < |out| ==> KeyOf(out[i]) != KeyOf(out[j])
    ensures forall i :: 0 <= i < |out| ==> !CompletedMovie(out[i])
  {
    var candidates := CollectCandidates(entries, options);
    var g := GroupCandidates(candidates);
    GroupByContentSpec(candidates);
    out := SortContinueWatching(Values(g));
    MergedUniqueKeys(entries, options);
    MergedFromCandidates(entries, options);
  }

  /** The first loop of `mergeContinueWatching`: each entry's item, unless absent or a completed movie. */
  method CollectCandidates(entries: seq<WatchProgressEntry>, options: ContinueWatchingOptions)
    returns (candidates: seq<ContinueWatchingItem>)
    ensures candidates == Candidates(entries, options)
  {
    ghost var items := Items(entries, options);
    candidates := [];
    for i := 0 to |entries|
      invariant candidates == KeepCandidates(items[..i])
    {
      KeepCandidatesStep(items, i);
      var item := ToContinueWatchingItem(entries[i], options);
      assert item == items[i];
      if item.Some? && !(item.value.mediaType == Movie && item.value.isCompleted) {
        candidates := candidates + [item.value];
      }
    }
    assert items[..|entries|] == items;
  }

  /** The second loop: a new key is appended to `byContent`, a known one keeps the better item. */
  method GroupCandidates(candidates: seq<ContinueWatchingItem>) returns (g: Grouping)
    ensures g == GroupByContent(candidates)
  {
    var keys: seq<ContentKey> := [];
    var byContent: map<ContentKey, ContinueWatchingItem> := map[];
    for i := 0 to |candidates|
      invariant Grouping(keys, byContent) == GroupByContent(candidates[..i])
    {
      assert candidates[..i + 1][..i] == candidates[..i];
      var item := candidates[i];
      var key := ContentKey(item.mediaType, item.id);
      if key in byContent {
        byContent := byContent[key := PickBetterCandidate(byContent[key], item)];
      } else {
        keys := keys + [key];
        byContent := byContent[key := item];
      }
    }
    assert candidates[..|candidates|] == candidates;
    g := Grouping(keys, byContent);
  }

  /** The default thresholds: at least 2% watched, completed from 85%. */
  lemma DefaultThresholds(entry: WatchProgressEntry, nowMs: real)
    ensures var options := ContinueWatchingOptions(nowMs, None, None, None);
            var r := ToContinueWatchingItem(entry, options);
            (r.Some? ==> r.value.progressPercent >= 2.0 && (r.value.isCompleted <==> r.value.progressPercent >= 85.0))
            && ((Trim(entry.id) != "" && entry.lastUpdated.Finite? && nowMs - entry.lastUpdated.value <= 2592000000.0
                 && ComputeProgressPercent(entry.currentTime, entry.duration) >= 2.0) ==> r.Some?)
  {
  }

  // Up Next

  /** `episodeKey`: `<season>:<episode>`. */
  function EpisodeKey(ep: EpisodeNumber): string {
    IntStr(ep.season) + ":" + IntStr(ep.episode)
  }

  /** Two positive episode numbers have the same key exactly when they are the same episode. */
  lemma EpisodeKeyInjective(a: EpisodeNumber, b: EpisodeNumber)
    requires a.season > 0 && a.episode > 0 && b.season > 0 && b.episode > 0
    ensures EpisodeKey(a) == EpisodeKey(b) <==> a == b
  {
    if EpisodeKey(a) == EpisodeKey(b) {
      KeySplits(a);
      KeySplits(b);
      NatStrValue(a.season);
      NatStrValue(a.episode);
      NatStrValue(b.season);
      NatStrValue(b.episode);
    }
  }

  /** The key of a positive episode number splits at `:` into its two digit strings. */
  lemma KeySplits(ep: EpisodeNumber)
    requires ep.season > 0 && ep.episode > 0
    ensures Split(EpisodeKey(ep)) == [NatStr(ep.season), NatStr(ep.episode)]
  {
    DigitsNoColon(NatStr(ep.season));
    DigitsNoColon(NatStr(ep.episode));
    SplitCons(NatStr(ep.season), NatStr(ep.episode));
  }

  datatype UpNextOptions = UpNextOptions(nowMs: real, watchedEpisodeKeys: Option<set<string>>)

  /** `toEpisodeNumber`: both numbers present and positive. */
  function ToEpisodeNumber(v: Video): (r: Option<EpisodeNumber>)
    ensures r.Some? <==> v.season.Some? && v.episode.Some? && v.season.value > 0 && v.episode.value > 0
    ensures r.Some? ==> r.value == EpisodeNumber(v.season.value, v.episode.value)
  {
    if v.season.None? || v.episode.None? then None
    else if v.season.value <= 0 || v.episode.value <= 0 then None
    else Some(EpisodeNumber(v.season.value, v.episode.value))
  }

  /**
   * `parseReleasedToMs`: nothing for a missing or empty date; otherwise what `parseDate`
   * (the model of `Date.parse`, `None` for NaN) gives.
   */
  function ParseReleasedToMs(value: Option<string>, parseDate: string -> Option<real>): (r: Option<real>)
    ensures r.Some? <==> value.Some? && value.value != "" && parseDate(value.value).Some?
    ensures r.Some? ==> r == parseDate(value.value)
  {
    if value.None? || value.value == "" then None else parseDate(value.value)
  }

  datatype NumberedVideo = NumberedVideo(ep: EpisodeNumber, releasedMs: Option<real>)

  /** The numbered videos, in input order. */
  function Numbered(videos: seq<Video>, parseDate: string -> Option<real>): (r: seq<NumberedVideo>)
    ensures forall k :: 0 <= k < |r| ==> r[k].ep.season > 0 && r[k].ep.episode > 0
  {
    if |videos| == 0 then []
    else
      var rest := Numbered(videos[..|videos| - 1], parseDate);
      var v := videos[|videos| - 1];
      var ep := ToEpisodeNumber(v);
      if ep.Some? then rest + [NumberedVideo(ep.value, ParseReleasedToMs(v.released, parseDate))] else rest
  }

  /** `bySeasonEpisode(a, b) < 0`. */
  predicate EpisodeBefore(a: EpisodeNumber, b: EpisodeNumber) {
    a.season < b.season || (a.season == b.season && a.episode < b.episode)
  }

  function EpisodeOrder(n: NumberedVideo): SortKey {
    SortKey(n.ep.season, n.ep.episode as real)
  }

  /** After the given episode, released by now, and not watched. */
  predicate Eligible(n: NumberedVideo, afterEpisode: EpisodeNumber, options: UpNextOptions) {
    EpisodeBefore(afterEpisode, n.ep)
    && !(n.releasedMs.Some? && n.releasedMs.value > options.nowMs)
    && !(options.watchedEpisodeKeys.Some? && EpisodeKey(n.ep) in options.watchedEpisodeKeys.value)
  }

  /** The video seen as a numbered video, when it has positive numbers. */
  predicate EligibleVideo(v: Video, afterEpisode: EpisodeNumber, options: UpNextOptions, parseDate: string -> Option<real>) {
    ToEpisodeNumber(v).Some?
    && Eligible(NumberedVideo(ToEpisodeNumber(v).value, ParseReleasedToMs(v.released, parseDate)), afterEpisode, options)
  }

  function FirstEligible(s: seq<NumberedVideo>, afterEpisode: EpisodeNumber, options: UpNextOptions): (r: Option<nat>)
    ensures r.None? ==> forall k :: 0 <= k < |s| ==> !Eligible(s[k], afterEpisode, options)
    ensures r.Some? ==> r.value < |s| && Eligible(s[r.value], afterEpisode, options)
                        && forall k :: 0 <= k < r.value ==> !Eligible(s[k], afterEpisode, options)
  {
    if |s| == 0 then None
    else if Eligible(s[0], afterEpisode, options) then Some(0)
    else
      var r := FirstEligible(s[1..], afterEpisode, options);
      if r.None? then None else Some(r.value + 1)
  }

  /** The episode `findUpNextEpisode` returns: the first eligible one in episode order. */
  function UpNext(videos: seq<Video>, afterEpisode: EpisodeNumber, options: UpNextOptions, parseDate: string -> Option<real>): (r: Option<EpisodeNumber>)
    ensures r.Some? ==> r.value.season > 0 && r.value.episode > 0 && EpisodeBefore(afterEpisode, r.value)
  {
    var numbered := Numbered(videos, parseDate);
    var sorted := SortBy(numbered, EpisodeOrder);
    var first := FirstEligible(sorted, afterEpisode, options);
    if first.None? then None
    else
      SortByMembers(numbered, EpisodeOrder, sorted[first.value]);
      Some(sorted[first.value].ep)
  }

  /** A numbered video comes from a video with the same numbers and date, and back. */
  lemma {:induction false} NumberedMembers(videos: seq<Video>, parseDate: string -> Option<real>, n: NumberedVideo)
    ensures n in Numbered(videos, parseDate) <==>
              exists i :: 0 <= i < |videos| && ToEpisodeNumber(videos[i]) == Some(n.ep)
                          && ParseReleasedToMs(videos[i].released, parseDate) == n.releasedMs
  {
    if |videos| > 0 {
      var init := videos[..|videos| - 1];
      NumberedMembers(init, parseDate, n);
      forall i | 0 <= i < |init|
        ensures init[i] == videos[i]
      {
      }
    }
  }

  /**
   * `findUpNextEpisode` finds the smallest eligible episode: nothing exactly when no video
   * is eligible; otherwise an eligible video's numbers, with no eligible video before them.
   */
  lemma UpNextSpec(videos: seq<Video>, afterEpisode: EpisodeNumber, options: UpNextOptions, parseDate: string -> Option<real>)
    ensures var r := UpNext(videos, afterEpisode, options, parseDate);
            (r.None? <==> forall i :: 0 <= i < |videos| ==> !EligibleVideo(videos[i], afterEpisode, options, parseDate))
            && (r.Some? ==> exists i :: 0 <= i < |videos| && EligibleVideo(videos[i], afterEpisode, options, parseDate)
                                        && ToEpisodeNumber(videos[i]) == r)
            && (r.Some? ==> forall i :: 0 <= i < |videos| && EligibleVideo(videos[i], afterEpisode, options, parseDate)
                                        ==> !EpisodeBefore(ToEpisodeNumber(videos[i]).value, r.value))
  {
    var numbered := Numbered(videos, parseDate);
    var sorted := SortBy(numbered, EpisodeOrder);
    var first := FirstEligible(sorted, afterEpisode, options);
    forall i | 0 <= i < |videos| && EligibleVideo(videos[i], afterEpisode, options, parseDate)
      ensures first.Some?
      ensures first.Some? ==> !EpisodeBefore(ToEpisodeNumber(videos[i]).value, sorted[first.value].ep)
    {
      var n := NumberedVideo(ToEpisodeNumber(videos[i]).value, ParseReleasedToMs(videos[i].released, parseDate));
      NumberedMembers(videos, parseDate, n);
      SortByMembers(numbered, EpisodeOrder, n);
      var j :| 0 <= j < |sorted| && sorted[j] == n;
      if first.Some? && j > first.value {
        assert !KeyLess(EpisodeOrder(sorted[j]), EpisodeOrder(sorted[first.value]));
      }
    }
    if first.Some? {
      var n := sorted[first.value];
      SortByMembers(numbered, EpisodeOrder, n);
      NumberedMembers(videos, parseDate, n);
    }
  }

  /** `findUpNextEpisode`: sorts the numbered videos by episode and returns the first eligible one. */
  method FindUpNextEpisode(videos: seq<Video>, afterEpisode: EpisodeNumber, options: UpNextOptions, parseDate: string -> Option<real>)
    returns (r: Option<EpisodeNumber>)
    ensures r == UpNext(videos, afterEpisode, options, parseDate)
    ensures r.None? <==> forall i :: 0 <= i < |videos| ==> !EligibleVideo(videos[i], afterEpisode, options, parseDate)
  {
    var numbered := Numbered(videos, parseDate);
    numbered := SortBy(numbered, EpisodeOrder);
    UpNextSpec(videos, afterEpisode, options, parseDate);
    for i := 0 to |numbered|
      invariant forall k :: 0 <= k < i ==> !Eligible(numbered[k], afterEpisode, options)
    {
      if Eligible(numbered[i], afterEpisode, options) {
        return Some(numbered[i].ep);
      }
    }
    return None;
  }

  /**
   * `createUpNextPlaceholder`: nothing without a next episode or with a blank show id;
   * otherwise a zero-progress placeholder for the next episode, which is never in progress,
   * comes after `afterEpisode`, and whose episode id parses back into the show and episode.
   */
  function CreateUpNextPlaceholder(showId: string, lastUpdated: real, afterEpisode: EpisodeNumber, videos: seq<Video>,
                                   options: UpNextOptions, parseDate: string -> Option<real>): (r: Option<ContinueWatchingItem>)
    ensures r.None? <==> UpNext(videos, afterEpisode, options, parseDate).None? || Trim(showId) == ""
    ensures r.Some? ==>
              var next := UpNext(videos, afterEpisode, options, parseDate).value;
              r.value.mediaType == Series && r.value.id == showId && r.value.episode == Some(next)
              && r.value.lastUpdated == lastUpdated && r.value.progressPercent == 0.0
              && r.value.isPlaceholder && !r.value.isCompleted && !InProgress(r.value)
              && EpisodeBefore(afterEpisode, next)
              && r.value.episodeId.Some?
              && ParseEpisodeIdSuffix(r.value.episodeId.value) == EpisodeIdSuffix(Trim(showId), Some(next.season), Some(next.episode))
  {
    var next := UpNext(videos, afterEpisode, options, parseDate);
    if next.None? then None
    else
      var episodeId := BuildEpisodeId(showId, next.value.season, next.value.episode);
      if episodeId.None? then None
      else
        EpisodeIdRoundTrip(showId, next.value.season, next.value.episode);
        Some(ContinueWatchingItem(Series, showId, Finite(0.0), Finite(0.0), lastUpdated, Some(next.value), None,
                                  0.0, true, false, episodeId))
  }
}
