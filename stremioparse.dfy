/**
 * Parsing of Stremio addon responses (`src/stremio/parse.ts`): untyped values become meta
 * previews, metas, videos, streams and subtitles, and catalog entries are deduplicated by id.
 */
module StremioParse {
  import opened Wrappers
  import opened Strings
  import opened Media
  import opened Json
  import opened ExternalId
  import opened StremioId
  import opened StremioTypes

  /** The parse options; the numeric-id assumption has no effect on the parse and is not modelled. */
  datatype ParseStremioOptions = ParseStremioOptions(looseImdb: bool, defaultType: Option<MediaType>)

  /** `asStringArray`: the trimmed non-empty strings of an array, or nothing when there are none. */
  function AsStringArray(v: Option<Json>): (r: Option<seq<string>>)
    ensures r.Some? ==> |r.value| > 0 && forall i :: 0 <= i < |r.value| ==> r.value[i] != "" && Trim(r.value[i]) == r.value[i]
  {
    var items := AsArray(v);
    if items.None? then None
    else
      var out := TrimmedStrings(items.value);
      if |out| == 0 then None else Some(out)
  }

  function TrimmedStrings(items: seq<Json>): (r: seq<string>)
    ensures forall i :: 0 <= i < |r| ==> r[i] != "" && Trim(r[i]) == r[i]
  {
    if |items| == 0 then []
    else
      var rest := TrimmedStrings(items[..|items| - 1]);
      var last := items[|items| - 1];
      if last.JStr? && Trim(last.s) != "" then
        TrimIdempotent(last.s);
        rest + [Trim(last.s)]
      else rest
  }

  /**
   * `normalizeType`: a non-empty string type decides alone, and may be rejected; the
   * default applies only to a missing, empty or non-string type.
   */
  function NormalizeType(typeValue: Option<Json>, defaultType: Option<MediaType>): (r: Option<MediaType>)
    ensures NonEmptyString(typeValue).Some? ==> r == NormalizeMediaType(NonEmptyString(typeValue))
    ensures NonEmptyString(typeValue).None? ==> r == defaultType
  {
    var t := NonEmptyString(typeValue);
    if t.Some? then NormalizeMediaType(t) else defaultType
  }

  /** An explicit type that is not a media type is rejected even with a default. */
  lemma RejectedTypeIgnoresDefault(t: string, defaultType: Option<MediaType>)
    requires t != "" && NormalizeMediaType(Some(t)).None?
    ensures NormalizeType(Some(JStr(t)), defaultType).None?
  {
  }

  /** `normalizeId`: string and number ids are normalised as Stremio ids; any other has none. */
  function NormalizeId(idValue: Option<Json>, looseImdb: bool): Option<string> {
    if idValue.Some? && idValue.value.JStr? then NormalizeStremioId(Text(idValue.value.s), looseImdb)
    else if idValue.Some? && idValue.value.JNum? then NormalizeStremioId(Number(idValue.value.n), looseImdb)
    else None
  }

  /**
   * The id a record gets: its normalised id, else its trimmed `String()` form, else empty.
   * A number always normalises, so the fallback only applies to a blank string.
   * The id is empty exactly when the value is neither a number nor a non-blank string.
   */
  function RecordId(idValue: Option<Json>, looseImdb: bool): (id: string)
    ensures id != "" <==> idValue.Some? && (idValue.value.JNum? || (idValue.value.JStr? && Trim(idValue.value.s) != ""))
    ensures id != "" ==> NormalizeId(idValue, looseImdb) == Some(id)
  {
    var normalized := NormalizeId(idValue, looseImdb);
    if normalized.Some? then normalized.value
    else if idValue.Some? && idValue.value.JStr? then Trim(idValue.value.s)
    else ""
  }

  /** A positive number id becomes a tmdb id. */
  lemma NumberRecordId(n: PosInt, looseImdb: bool)
    ensures RecordId(Some(JNum(n)), looseImdb) == "tmdb:" + NatStr(n)
  {
  }

  /** The name of a preview: `name`, else `title` when `name` is not a string, trimmed. */
  function PreviewName(value: Json): string {
    var name := AsString(Get(value, "name"));
    Trim(if name.Some? then name.value else AsString(Get(value, "title")).GetOr(""))
  }

  /** `runtime` and `imdbRating` are kept when they are strings or numbers. */
  function StringOrNumber(v: Option<Json>): Option<Json> {
    if v.Some? && (v.value.JStr? || v.value.JNum?) then v else None
  }

  /**
   * `parseStremioMetaPreview`: a record with an id, a resolvable type and a non-blank name
   * becomes a preview carrying those; anything else is rejected.
   */
  function ParseStremioMetaPreview(value: Json, options: ParseStremioOptions): (r: Option<MetaPreview>)
    ensures r.Some? <==>
              IsRecord(value) && RecordId(Get(value, "id"), options.looseImdb) != ""
              && NormalizeType(Get(value, "type"), options.defaultType).Some? && PreviewName(value) != ""
    ensures r.Some? ==>
              r.value.id == RecordId(Get(value, "id"), options.looseImdb)
              && Some(r.value.mediaType) == NormalizeType(Get(value, "type"), options.defaultType)
              && r.value.name == PreviewName(value) && Trim(r.value.name) == r.value.name
  {
    if !IsRecord(value) then None
    else
      var id := RecordId(Get(value, "id"), options.looseImdb);
      if id == "" then None
      else
        var t := NormalizeType(Get(value, "type"), options.defaultType);
        if t.None? then None
        else
          var name := PreviewName(value);
          if name == "" then None
          else
            TrimIdempotent(if AsString(Get(value, "name")).Some? then AsString(Get(value, "name")).value
                           else AsString(Get(value, "title")).GetOr(""));
            Some(MetaPreview(
              id, t.value, name,
              NonEmptyString(Get(value, "poster")),
              NonEmptyString(Get(value, "posterShape")),
              NonEmptyString(Get(value, "background")),
              NonEmptyString(Get(value, "logo")),
              NonEmptyString(Get(value, "description")),
              NonEmptyString(Get(value, "releaseInfo")),
              AsStringArray(Get(value, "genres")),
              StringOrNumber(Get(value, "runtime")),
              StringOrNumber(Get(value, "imdbRating")),
              NonEmptyString(Get(value, "imdb_id")),
              AsRecord(Get(value, "behaviorHints"))))
  }

  /** A string `name` wins over `title` even when it is empty, which rejects the record. */
  lemma EmptyNameHidesTitle(fields: map<string, Json>, options: ParseStremioOptions)
    requires "name" in fields && fields["name"] == JStr("")
    ensures ParseStremioMetaPreview(JObj(fields), options).None?
  {
  }

  /** The title of a video: `title`, else `name` when `title` is not a string, when non-empty. */
  function VideoTitle(value: Json): Option<string> {
    var title := AsString(Get(value, "title"));
    var t := if title.Some? then title else AsString(Get(value, "name"));
    if t.Some? && t.value != "" then t else None
  }

  /**
   * `parseStremioVideo`: a record with an id becomes a video whose season and episode are
   * its numeric fields, or else those of the id's `:s:e` suffix.
   */
  function ParseStremioVideo(value: Json, options: ParseStremioOptions): (r: Option<Video>)
    ensures r.Some? <==> IsRecord(value) && RecordId(Get(value, "id"), options.looseImdb) != ""
    ensures r.Some? ==>
              var suffix := ParseEpisodeIdSuffix(r.value.id);
              r.value.id == RecordId(Get(value, "id"), options.looseImdb)
              && r.value.season == AsNumber(Get(value, "season")).OrElse(if suffix.season.Some? then Some(suffix.season.value as int) else None)
              && r.value.episode == AsNumber(Get(value, "episode")).OrElse(if suffix.episode.Some? then Some(suffix.episode.value as int) else None)
  {
    if !IsRecord(value) then None
    else VideoWithId(value, RecordId(Get(value, "id"), options.looseImdb))
  }

  /** The video of a record once its id is read: none for an empty id. */
  function VideoWithId(value: Json, id: string): (r: Option<Video>)
    ensures r.Some? <==> id != ""
    ensures r.Some? ==>
              var suffix := ParseEpisodeIdSuffix(id);
              r.value.id == id
              && r.value.season == AsNumber(Get(value, "season")).OrElse(if suffix.season.Some? then Some(suffix.season.value as int) else None)
              && r.value.episode == AsNumber(Get(value, "episode")).OrElse(if suffix.episode.Some? then Some(suffix.episode.value as int) else None)
  {
    if id == "" then None
    else
      var suffix := ParseEpisodeIdSuffix(id);
      var season := AsNumber(Get(value, "season"));
      var episode := AsNumber(Get(value, "episode"));
      Some(Video(
        id, VideoTitle(value),
        if season.Some? then season else if suffix.season.Some? then Some(suffix.season.value as int) else None,
        if episode.Some? then episode else if suffix.episode.Some? then Some(suffix.episode.value as int) else None,
        NonEmptyString(Get(value, "released")),
        NonEmptyString(Get(value, "overview")),
        NonEmptyString(Get(value, "thumbnail")),
        StringOrNumber(Get(value, "runtime")),
        StringOrNumber(Get(value, "imdbRating")),
        AsRecord(Get(value, "behaviorHints"))))
  }

  /** An IMDb episode id is its own record id. */
  lemma ImdbEpisodeRecordId(c: string, s: PosInt, e: PosInt, looseImdb: bool)
    requires IsImdbId(c)
    ensures RecordId(Some(JStr(c + ":" + NatStr(s) + ":" + NatStr(e))), looseImdb) == c + ":" + NatStr(s) + ":" + NatStr(e)
  {
    var x := c + ":" + NatStr(s) + ":" + NatStr(e);
    ImdbEpisodeNormalizes(c, s, e, looseImdb);
    assert NormalizeId(Some(JStr(x)), looseImdb) == Some(x);
  }

  lemma ImdbEpisodeNormalizes(c: string, s: PosInt, e: PosInt, looseImdb: bool)
    requires IsImdbId(c)
    ensures var x := c + ":" + NatStr(s) + ":" + NatStr(e);
            NormalizeStremioId(Text(x), looseImdb) == Some(x)
  {
    ImdbIdFixed(c);
    assert BuildEpisodeId(c, s, e) == Some(c + ":" + NatStr(s) + ":" + NatStr(e));
    NormalizeStremioEpisode(c, s, e, looseImdb);
    ImdbCanonicalBase(c, looseImdb);
  }

  lemma ImdbCanonicalBase(c: string, looseImdb: bool)
    requires IsImdbId(c)
    ensures CanonicalBase(c, looseImdb) == Some(c)
  {
    ImdbIdFixed(c);
    CombinedIdsValue(c, looseImdb);
    ParseImdb(c);
  }

  /** An IMDb episode id splits back into the IMDb id, the season and the episode. */
  lemma ImdbEpisodeSuffix(c: string, s: PosInt, e: PosInt)
    requires IsImdbId(c)
    ensures ParseEpisodeIdSuffix(c + ":" + NatStr(s) + ":" + NatStr(e)) == EpisodeIdSuffix(c, Some(s), Some(e))
  {
    ImdbIdFixed(c);
    assert BuildEpisodeId(c, s, e) == Some(c + ":" + NatStr(s) + ":" + NatStr(e));
    EpisodeIdRoundTrip(c, s, e);
  }

  /** A record with a usable id and no numeric season or episode takes both from the id's suffix. */
  lemma VideoNumbersFromSuffix(v: Json, id: string, s: PosInt, e: PosInt)
    requires id != "" && Get(v, "season").None? && Get(v, "episode").None?
    requires ParseEpisodeIdSuffix(id) == EpisodeIdSuffix(ParseEpisodeIdSuffix(id).baseId, Some(s), Some(e))
    ensures VideoWithId(v, id).Some?
    ensures VideoWithId(v, id).value.id == id
    ensures VideoWithId(v, id).value.season == Some(s as int)
    ensures VideoWithId(v, id).value.episode == Some(e as int)
  {
  }

  /**
   * A video record whose id is an IMDb episode id and which has no season or episode field
   * gets its season and episode from the id.
   */
  lemma VideoNumbersFromId(c: string, s: PosInt, e: PosInt, fields: map<string, Json>, options: ParseStremioOptions)
    requires IsImdbId(c)
    requires "id" in fields && fields["id"] == JStr(c + ":" + NatStr(s) + ":" + NatStr(e))
    requires "season" !in fields && "episode" !in fields
    ensures ParseStremioVideo(JObj(fields), options).Some?
    ensures ParseStremioVideo(JObj(fields), options).value.id == c + ":" + NatStr(s) + ":" + NatStr(e)
    ensures ParseStremioVideo(JObj(fields), options).value.season == Some(s as int)
    ensures ParseStremioVideo(JObj(fields), options).value.episode == Some(e as int)
  {
    var x := c + ":" + NatStr(s) + ":" + NatStr(e);
    ImdbEpisodeRecordId(c, s, e, options.looseImdb);
    VideoOfRecordId(JObj(fields), options, x);
    EpisodeVideo(c, s, e, JObj(fields));
  }

  lemma VideoOfRecordId(v: Json, options: ParseStremioOptions, id: string)
    requires IsRecord(v) && RecordId(Get(v, "id"), options.looseImdb) == id
    ensures ParseStremioVideo(v, options) == VideoWithId(v, id)
  {
  }

  lemma EpisodeVideo(c: string, s: PosInt, e: PosInt, v: Json)
    requires IsImdbId(c)
    requires Get(v, "season").None? && Get(v, "episode").None?
    ensures var x := c + ":" + NatStr(s) + ":" + NatStr(e);
            VideoWithId(v, x).Some? && VideoWithId(v, x).value.id == x
            && VideoWithId(v, x).value.season == Some(s as int) && VideoWithId(v, x).value.episode == Some(e as int)
  {
    ImdbEpisodeSuffix(c, s, e);
    VideoNumbersFromSuffix(v, c + ":" + NatStr(s) + ":" + NatStr(e), s, e);
  }

  /** The parsed values of an array, with the rejected ones dropped, in order. */
  function Previews(items: seq<Json>, options: ParseStremioOptions): seq<MetaPreview> {
    if |items| == 0 then []
    else
      var rest := Previews(items[..|items| - 1], options);
      var p := ParseStremioMetaPreview(items[|items| - 1], options);
      if p.Some? then rest + [p.value] else rest
  }

  function Videos(items: seq<Json>, options: ParseStremioOptions): seq<Video> {
    if |items| == 0 then []
    else
      var rest := Videos(items[..|items| - 1], options);
      var v := ParseStremioVideo(items[|items| - 1], options);
      if v.Some? then rest + [v.value] else rest
  }

  // ---------------------------------------------------------------------------
  // dedupeStremioMetas

  function IdsOf(items: seq<MetaPreview>): set<string> {
    set i | 0 <= i < |items| :: items[i].id
  }

  /** What `dedupeStremioMetas` returns: each item whose id was not seen before, in order. */
  function DedupedMetas(items: seq<MetaPreview>): (r: seq<MetaPreview>)
    ensures IdsOf(r) == IdsOf(items)
  {
    if |items| == 0 then []
    else
      var init := items[..|items| - 1];
      var d := DedupedMetas(init);
      var last := items[|items| - 1];
      assert items == init + [last];
      IdsOfSnoc(init, last);
      if last.id in IdsOf(d) then d
      else
        IdsOfSnoc(d, last);
        d + [last]
  }

  /** The index of the first item with an id. */
  function FirstIndex(items: seq<MetaPreview>, id: string): (k: nat)
    requires id in IdsOf(items)
    ensures k < |items| && items[k].id == id
    ensures forall j :: 0 <= j < k ==> items[j].id != id
  {
    var init := items[..|items| - 1];
    if id in IdsOf(init) then
      var k := FirstIndex(init, id);
      assert items[k] == init[k];
      k
    else
      assert forall j :: 0 <= j < |init| ==> items[j] == init[j];
      |items| - 1
  }

  lemma IdsOfSnoc(items: seq<MetaPreview>, x: MetaPreview)
    ensures IdsOf(items + [x]) == IdsOf(items) + {x.id}
  {
    var xs := items + [x];
    forall id | id in IdsOf(items) ensures id in IdsOf(xs) {
      var i :| 0 <= i < |items| && items[i].id == id;
      assert xs[i] == items[i];
    }
    assert xs[|items|] == x;
  }

  lemma FirstIndexSnoc(items: seq<MetaPreview>, x: MetaPreview, id: string)
    requires id in IdsOf(items)
    ensures id in IdsOf(items + [x]) && FirstIndex(items + [x], id) == FirstIndex(items, id)
  {
    IdsOfSnoc(items, x);
    assert (items + [x])[..|items|] == items;
  }

  /** Each item of the deduplicated list is the first item with its id. */
  lemma {:induction false} DedupedMetasFirst(items: seq<MetaPreview>)
    ensures forall i :: 0 <= i < |DedupedMetas(items)| ==> DedupedMetas(items)[i] == items[FirstIndex(items, DedupedMetas(items)[i].id)]
  {
    if |items| > 0 {
      var init := items[..|items| - 1];
      var last := items[|items| - 1];
      var d := DedupedMetas(init);
      DedupedMetasFirst(init);
      assert items == init + [last];
      IdsOfSnoc(init, last);
      var r := DedupedMetas(items);
      forall i | 0 <= i < |d|
        ensures FirstIndex(items, d[i].id) == FirstIndex(init, d[i].id)
      {
        FirstIndexSnoc(init, last, d[i].id);
      }
      if last.id !in IdsOf(d) {
        IdsOfSnoc(d, last);
        assert FirstIndex(items, last.id) == |items| - 1;
      }
    }
  }

  /** No id occurs twice, and the items are ordered by where their ids first occur. */
  lemma DedupedMetasOrder(items: seq<MetaPreview>)
    ensures forall i, j :: 0 <= i < j < |DedupedMetas(items)| ==> DedupedMetas(items)[i].id != DedupedMetas(items)[j].id
    ensures forall i, j :: 0 <= i < j < |DedupedMetas(items)| ==>
              FirstIndex(items, DedupedMetas(items)[i].id) < FirstIndex(items, DedupedMetas(items)[j].id)
  {
    DedupedMetasIncreasing(items);
  }

  /** The ids of `r` occur in `items`, and their first occurrences there strictly increase along `r`. */
  predicate Increasing(items: seq<MetaPreview>, r: seq<MetaPreview>) {
    (forall i :: 0 <= i < |r| ==> r[i].id in IdsOf(items))
    && forall i, j :: 0 <= i < j < |r| ==> FirstIndex(items, r[i].id) < FirstIndex(items, r[j].id)
  }

  /** The first occurrences of the deduplicated items' ids strictly increase. */
  lemma {:induction false} DedupedMetasIncreasing(items: seq<MetaPreview>)
    ensures Increasing(items, DedupedMetas(items))
  {
    if |items| > 0 {
      var init := items[..|items| - 1];
      var last := items[|items| - 1];
      var d := DedupedMetas(init);
      DedupedMetasIncreasing(init);
      assert items == init + [last];
      if last.id !in IdsOf(d) {
        IncreasingSnoc(init, last, d);
        assert DedupedMetas(items) == d + [last];
      } else {
        IncreasingKeep(init, last, d);
        assert DedupedMetas(items) == d;
      }
    }
  }

  lemma IncreasingKeep(init: seq<MetaPreview>, last: MetaPreview, d: seq<MetaPreview>)
    requires Increasing(init, d)
    ensures Increasing(init + [last], d)
  {
    forall i | 0 <= i < |d|
      ensures d[i].id in IdsOf(init + [last]) && FirstIndex(init + [last], d[i].id) == FirstIndex(init, d[i].id)
    {
      FirstIndexSnoc(init, last, d[i].id);
    }
  }

  lemma IncreasingSnoc(init: seq<MetaPreview>, last: MetaPreview, d: seq<MetaPreview>)
    requires Increasing(init, d) && last.id !in IdsOf(init)
    ensures Increasing(init + [last], d + [last])
  {
    var items := init + [last];
    var r := d + [last];
    IncreasingKeep(init, last, d);
    IdsOfSnoc(init, last);
    assert FirstIndex(items, last.id) == |items| - 1;
    forall i | 0 <= i < |d|
      ensures FirstIndex(items, d[i].id) < |items| - 1
    {
      FirstIndexSnoc(init, last, d[i].id);
    }
    forall i, j | 0 <= i < j < |r|
      ensures FirstIndex(items, r[i].id) < FirstIndex(items, r[j].id)
    {
      assert r[i] == d[i];
      if j < |d| {
        assert r[j] == d[j];
      } else {
        assert r[j] == last;
      }
    }
    assert forall i :: 0 <= i < |r| ==> r[i].id in IdsOf(items) by {
      forall i | 0 <= i < |r| ensures r[i].id in IdsOf(items) {
        if i < |d| { assert r[i] == d[i]; } else { assert r[i] == last; }
      }
    }
  }

  /**
   * The deduplicated list has the input's ids, each once; it holds exactly the first item
   * of each id, ordered by where each id first occurs.
   */
  lemma DedupedMetasSpec(items: seq<MetaPreview>)
    ensures IdsOf(DedupedMetas(items)) == IdsOf(items)
    ensures forall i, j :: 0 <= i < j < |DedupedMetas(items)| ==> DedupedMetas(items)[i].id != DedupedMetas(items)[j].id
    ensures forall i :: 0 <= i < |DedupedMetas(items)| ==> DedupedMetas(items)[i] == items[FirstIndex(items, DedupedMetas(items)[i].id)]
    ensures forall i, j :: 0 <= i < j < |DedupedMetas(items)| ==>
              FirstIndex(items, DedupedMetas(items)[i].id) < FirstIndex(items, DedupedMetas(items)[j].id)
  {
    DedupedMetasFirst(items);
    DedupedMetasOrder(items);
  }

  /** `dedupeStremioMetas`: one pass with a `seen` set. */
  method DedupeStremioMetas(items: seq<MetaPreview>) returns (out: seq<MetaPreview>)
    ensures out == DedupedMetas(items)
    ensures forall i, j :: 0 <= i < j < |out| ==> out[i].id != out[j].id
    ensures IdsOf(out) == IdsOf(items)
  {
    var seen: set<string> := {};
    out := [];
    for i := 0 to |items|
      invariant out == DedupedMetas(items[..i])
      invariant seen == IdsOf(out)
    {
      var item := items[i];
      assert items[..i + 1][..i] == items[..i];
      if item.id !in seen {
        seen := seen + {item.id};
        IdsOfSnoc(out, item);
        out := out + [item];
      }
    }
    assert items[..|items|] == items;
    DedupedMetasSpec(items);
  }

  /**
   * `parseStremioCatalogResponse`: a record whose `metas` is an array gives its valid
   * previews, deduplicated by id; anything else gives nothing.
   */
  function ParseStremioCatalogResponse(value: Json, options: ParseStremioOptions): (r: Option<seq<MetaPreview>>)
    ensures r.Some? <==> IsRecord(value) && AsArray(Get(value, "metas")).Some?
    ensures r.Some? ==> r.value == DedupedMetas(Previews(AsArray(Get(value, "metas")).value, options))
  {
    if !IsRecord(value) then None
    else
      var metas := AsArray(Get(value, "metas"));
      if metas.None? then None else Some(DedupedMetas(Previews(metas.value, options)))
  }

  /** Each catalog entry is a valid preview of one of the inputs, and no id repeats. */
  lemma CatalogSpec(value: Json, options: ParseStremioOptions)
    requires ParseStremioCatalogResponse(value, options).Some?
    ensures var metas := ParseStremioCatalogResponse(value, options).value;
            var raw := AsArray(Get(value, "metas")).value;
            (forall i, j :: 0 <= i < j < |metas| ==> metas[i].id != metas[j].id)
            && IdsOf(metas) == IdsOf(Previews(raw, options))
            && (forall i :: 0 <= i < |metas| ==> metas[i] in Previews(raw, options))
  {
    var raw := AsArray(Get(value, "metas")).value;
    var previews := Previews(raw, options);
    DedupedMetasSpec(previews);
  }

  /** Parsing a list element by element keeps its order: parsing distributes over concatenation. */
  lemma {:induction false} PreviewsAppend(a: seq<Json>, b: seq<Json>, options: ParseStremioOptions)
    ensures Previews(a + b, options) == Previews(a, options) + Previews(b, options)
  {
    if |b| > 0 {
      var b' := b[..|b| - 1];
      assert (a + b)[..|a + b| - 1] == a + b';
      assert (a + b)[|a + b| - 1] == b[|b| - 1];
      var p := ParseStremioMetaPreview(b[|b| - 1], options);
      var last := if p.Some? then [p.value] else [];
      assert Previews(a + b, options) == Previews(a + b', options) + last;
      assert Previews(b, options) == Previews(b', options) + last;
      PreviewsAppend(a, b', options);
      AppendAssoc(Previews(a, options), Previews(b', options), last);
    } else {
      assert a + b == a;
    }
  }

  // ---------------------------------------------------------------------------
  // parseStremioMeta

  /** A link with a non-empty name and url; its category only when non-empty. */
  function ParseLink(l: Json): Option<Link> {
    if !IsRecord(l) then None
    else
      var name := NonEmptyString(Get(l, "name"));
      var url := NonEmptyString(Get(l, "url"));
      if name.None? || url.None? then None
      else Some(Link(name.value, url.value, NonEmptyString(Get(l, "category"))))
  }

  function Links(items: seq<Json>): seq<Link> {
    if |items| == 0 then []
    else
      var rest := Links(items[..|items| - 1]);
      var l := ParseLink(items[|items| - 1]);
      if l.Some? then rest + [l.value] else rest
  }

  /** The list when it has elements. */
  function NonEmptyList<T>(xs: Option<seq<T>>): (r: Option<seq<T>>)
    ensures r.Some? <==> xs.Some? && |xs.value| > 0
  {
    if xs.Some? && |xs.value| > 0 then xs else None
  }

  /**
   * `parseStremioMeta`: a valid preview with its cast, directors, parsed videos and links;
   * the video and link lists are kept only when they are non-empty.
   */
  function ParseStremioMeta(value: Json, options: ParseStremioOptions): (r: Option<Meta>)
    ensures r.Some? <==> ParseStremioMetaPreview(value, options).Some?
    ensures r.Some? ==>
              r.value.preview == ParseStremioMetaPreview(value, options).value
              && (r.value.videos.Some? <==> AsArray(Get(value, "videos")).Some? && |Videos(AsArray(Get(value, "videos")).value, options)| > 0)
              && (r.value.videos.Some? ==> r.value.videos.value == Videos(AsArray(Get(value, "videos")).value, options))
  {
    var preview := ParseStremioMetaPreview(value, options);
    if preview.None? then None
    else
      var videosRaw := AsArray(Get(value, "videos"));
      var linksRaw := AsArray(Get(value, "links"));
      Some(Meta(
        preview.value,
        AsStringArray(Get(value, "cast")),
        AsStringArray(Get(value, "director")),
        NonEmptyList(if videosRaw.Some? then Some(Videos(videosRaw.value, options)) else None),
        NonEmptyList(if linksRaw.Some? then Some(Links(linksRaw.value)) else None)))
  }

  /** `parseStremioMetaResponse`: the meta under `meta`. */
  function ParseStremioMetaResponse(value: Json, options: ParseStremioOptions): (r: Option<Meta>)
    ensures r.Some? <==> IsRecord(value) && Get(value, "meta").Some? && ParseStremioMeta(Get(value, "meta").value, options).Some?
  {
    if !IsRecord(value) then None
    else
      var meta := Get(value, "meta");
      if meta.None? then None else ParseStremioMeta(meta.value, options)
  }

  // ---------------------------------------------------------------------------
  // streams and subtitles

  /** A stream record with a non-blank name, the name stored trimmed. */
  function ParseStream(s: Json): (r: Option<Stream>)
    ensures r.Some? <==> IsRecord(s) && AsString(Get(s, "name")).Some? && Trim(AsString(Get(s, "name")).value) != ""
    ensures r.Some? ==> r.value.name == Trim(AsString(Get(s, "name")).value)
  {
    if !IsRecord(s) then None
    else
      var name := AsString(Get(s, "name"));
      if name.None? || Trim(name.value) == "" then None
      else
        Some(Stream(Trim(name.value),
                    NonEmptyString(Get(s, "title")),
                    NonEmptyString(Get(s, "url")),
                    NonEmptyString(Get(s, "infoHash")),
                    AsRecord(Get(s, "behaviorHints"))))
  }

  /** The streams of the records, in input order. */
  function Streams(items: seq<Json>): (r: seq<Stream>)
    ensures |r| <= |items|
    ensures forall i :: 0 <= i < |r| ==> r[i].name != "" && Trim(r[i].name) == r[i].name
  {
    if |items| == 0 then []
    else
      var rest := Streams(items[..|items| - 1]);
      var s := ParseStream(items[|items| - 1]);
      if s.Some? then
        TrimIdempotent(AsString(Get(items[|items| - 1], "name")).value);
        rest + [s.value]
      else rest
  }

  /** Order is kept: the streams of a concatenation are the concatenated streams. */
  lemma {:induction false} StreamsAppend(a: seq<Json>, b: seq<Json>)
    ensures Streams(a + b) == Streams(a) + Streams(b)
  {
    if |b| > 0 {
      var b' := b[..|b| - 1];
      assert (a + b)[..|a + b| - 1] == a + b';
      StreamsAppend(a, b');
    } else {
      assert a + b == a;
    }
  }

  lemma StreamsStep(items: seq<Json>, i: nat)
    requires i < |items|
    ensures var s := ParseStream(items[i]);
            Streams(items[..i + 1]) == Streams(items[..i]) + (if s.Some? then [s.value] else [])
  {
    assert items[..i + 1][..i] == items[..i];
    assert items[..i + 1][i] == items[i];
  }

  /** `parseStremioStreamResponse`: the streams of the `streams` array. */
  method ParseStremioStreamResponse(value: Json) returns (r: Option<seq<Stream>>)
    ensures r.Some? <==> IsRecord(value) && AsArray(Get(value, "streams")).Some?
    ensures r.Some? ==> r.value == Streams(AsArray(Get(value, "streams")).value)
  {
    if !IsRecord(value) {
      return None;
    }
    var raw := AsArray(Get(value, "streams"));
    if raw.None? {
      return None;
    }
    var items := raw.value;
    var streams: seq<Stream> := [];
    for i := 0 to |items|
      invariant streams == Streams(items[..i])
    {
      StreamsStep(items, i);
      var stream := ParseStream(items[i]);
      if stream.Some? {
        streams := streams + [stream.value];
      }
    }
    assert items[..|items|] == items;
    return Some(streams);
  }

  /** A subtitle record with a non-blank url and language, both trimmed; its id when non-empty. */
  function ParseSubtitle(s: Json): (r: Option<Subtitle>)
    ensures r.Some? <==>
              IsRecord(s) && AsString(Get(s, "url")).Some? && Trim(AsString(Get(s, "url")).value) != ""
              && AsString(Get(s, "lang")).Some? && Trim(AsString(Get(s, "lang")).value) != ""
    ensures r.Some? ==>
              r.value.url == Trim(AsString(Get(s, "url")).value) && r.value.lang == Trim(AsString(Get(s, "lang")).value)
              && r.value.id == NonEmptyString(Get(s, "id"))
  {
    if !IsRecord(s) then None
    else
      var url := AsString(Get(s, "url"));
      var lang := AsString(Get(s, "lang"));
      if url.None? || Trim(url.value) == "" || lang.None? || Trim(lang.value) == "" then None
      else Some(Subtitle(NonEmptyString(Get(s, "id")), Trim(url.value), Trim(lang.value)))
  }

  function Subtitles(items: seq<Json>): (r: seq<Subtitle>)
    ensures |r| <= |items|
    ensures forall i :: 0 <= i < |r| ==> r[i].url != "" && r[i].lang != ""
  {
    if |items| == 0 then []
    else
      var rest := Subtitles(items[..|items| - 1]);
      var s := ParseSubtitle(items[|items| - 1]);
      if s.Some? then rest + [s.value] else rest
  }

  /** Order is kept: the subtitles of a concatenation are the concatenated subtitles. */
  lemma {:induction false} SubtitlesAppend(a: seq<Json>, b: seq<Json>)
    ensures Subtitles(a + b) == Subtitles(a) + Subtitles(b)
  {
    if |b| > 0 {
      var b' := b[..|b| - 1];
      assert (a + b)[..|a + b| - 1] == a + b';
      SubtitlesAppend(a, b');
    } else {
      assert a + b == a;
    }
  }

  lemma SubtitlesStep(items: seq<Json>, i: nat)
    requires i < |items|
    ensures var s := ParseSubtitle(items[i]);
            Subtitles(items[..i + 1]) == Subtitles(items[..i]) + (if s.Some? then [s.value] else [])
  {
    assert items[..i + 1][..i] == items[..i];
    assert items[..i + 1][i] == items[i];
  }

  /** `parseStremioSubtitlesResponse`: the subtitles of the `subtitles` array. */
  method ParseStremioSubtitlesResponse(value: Json) returns (r: Option<seq<Subtitle>>)
    ensures r.Some? <==> IsRecord(value) && AsArray(Get(value, "subtitles")).Some?
    ensures r.Some? ==> r.value == Subtitles(AsArray(Get(value, "subtitles")).value)
  {
    if !IsRecord(value) {
      return None;
    }
    var raw := AsArray(Get(value, "subtitles"));
    if raw.None? {
      return None;
    }
    var items := raw.value;
    var subtitles: seq<Subtitle> := [];
    for i := 0 to |items|
      invariant subtitles == Subtitles(items[..i])
    {
      SubtitlesStep(items, i);
      var subtitle := ParseSubtitle(items[i]);
      if subtitle.Some? {
        subtitles := subtitles + [subtitle.value];
      }
    }
    assert items[..|items|] == items;
    return Some(subtitles);
  }
}
