/** Memory search: an oversampled window of the ranking, filtered and cut, and the full-text path. */
module Search {
  import opened Wrappers
  import opened Scopes
  import opened MemoryTypes

  /** `top_k * 3` without overflow, and never below `top_k`. */
  function Window(k: Usize): (w: Usize)
    ensures k <= w && (3 * k < USIZE_LIMIT ==> w == 3 * k) && (3 * k >= USIZE_LIMIT ==> w == USIZE_LIMIT - 1)
  {
    var tripled := if 3 * k < USIZE_LIMIT then 3 * k else USIZE_LIMIT - 1;
    if tripled < k then k else tripled
  }

  predicate MetadataMatches(metadata: Json, filter: Json) {
    filter.Object? ==>
      forall key | key in filter.fields ::
        metadata.Object? && key in metadata.fields && metadata.fields[key] == filter.fields[key]
  }

  datatype Hit = Hit(id: Uuid, content: string, metadata: Json)

  datatype MemoryRecord = MemoryRecord(id: Uuid, idText: string, content: string, memoryType: string, tags: seq<string>)

  function TagList(tags: seq<string>): seq<Json> {
    seq(|tags|, i requires 0 <= i < |tags| => Json.String(tags[i]))
  }

  /** What a filter sees of a core record. */
  function View(record: MemoryRecord): Json {
    Object(map[
      "id" := Json.String(record.idText), "content" := Json.String(record.content),
      "memory_type" := Json.String(record.memoryType), "tags" := Json.Array(TagList(record.tags))])
  }

  predicate RecordMatches(record: MemoryRecord, filter: Json) {
    MetadataMatches(View(record), filter)
  }

  // ---------------------------------------------------------------- filter, then take

  function Filtered<T>(items: seq<T>, keep: T -> bool): (kept: seq<T>)
    ensures |kept| <= |items|
    ensures forall x | x in kept :: x in items && keep(x)
    ensures forall x | x in items :: keep(x) ==> x in kept
  {
    if items == [] then []
    else (if keep(items[0]) then [items[0]] else []) + Filtered(items[1..], keep)
  }

  function Taken<T>(items: seq<T>, k: nat): seq<T> {
    if k < |items| then items[..k] else items
  }

  /** The results a caller would expect: filter the whole ranking, then keep the best `k`. */
  function Ideal<T>(ranking: seq<T>, keep: T -> bool, k: nat): seq<T> {
    Taken(Filtered(ranking, keep), k)
  }

  predicate Prefix<T(==)>(a: seq<T>, b: seq<T>) {
    |a| <= |b| && a == b[..|a|]
  }

  lemma {:induction false} FilteredBoth<T>(a: seq<T>, b: seq<T>, keep: T -> bool)
    ensures Filtered(a + b, keep) == Filtered(a, keep) + Filtered(b, keep)
  {
    if a == [] {
      assert a + b == b;
    } else {
      assert (a + b)[1..] == a[1..] + b;
      FilteredBoth(a[1..], b, keep);
    }
  }

  /**
   * Filtering a window of the ranking gives a prefix of the ideal results; it gives all of them
   * exactly when the window holds `k` matches or no match lies beyond it.
   */
  lemma WindowedSearch<T>(ranking: seq<T>, keep: T -> bool, w: nat, k: nat)
    ensures var window := Taken(ranking, w);
            && Prefix(Ideal(window, keep, k), Ideal(ranking, keep, k))
            && (Ideal(window, keep, k) == Ideal(ranking, keep, k)
                <==> |Filtered(window, keep)| >= k || Filtered(ranking[|window|..], keep) == [])
  {
    var window := Taken(ranking, w);
    assert ranking == window + ranking[|window|..];
    FilteredBoth(window, ranking[|window|..], keep);
  }

  lemma {:induction false} FilteredAll<T>(items: seq<T>, keep: T -> bool)
    requires forall x | x in items :: keep(x)
    ensures Filtered(items, keep) == items
  {
    if items != [] {
      FilteredAll(items[1..], keep);
      assert items == [items[0]] + items[1..];
    }
  }

  /** Without a filter the window is always wide enough. */
  lemma UnfilteredSearchIsExact<T>(ranking: seq<T>, keep: T -> bool, k: Usize)
    requires forall x | x in ranking :: keep(x)
    ensures Ideal(Taken(ranking, Window(k)), keep, k) == Taken(ranking, k)
  {
    FilteredAll(ranking, keep);
    FilteredAll(Taken(ranking, Window(k)), keep);
  }

  // ---------------------------------------------------------------- filters

  /** A filter that is not an object is ignored, and so is one without fields. */
  lemma OnlyObjectsFilter(metadata: Json, filter: Json)
    ensures !filter.Object? || filter.fields == map[] ==> MetadataMatches(metadata, filter)
    ensures filter.Object? && filter.fields != map[] && !metadata.Object? ==> !MetadataMatches(metadata, filter)
  {
    if filter.Object? && filter.fields != map[] {
      var key :| key in filter.fields;
    }
  }

  /** The metadata is an object with that value under that key. */
  predicate HasField(metadata: Json, key: string, value: Json) {
    match metadata
    case Object(fields) => key in fields && fields[key] == value
    case _ => false
  }

  /** A filter with one field asks for exactly that field and that value. */
  lemma OneFieldFilter(metadata: Json, key: string, value: Json)
    ensures MetadataMatches(metadata, Object(map[key := value])) <==> HasField(metadata, key, value)
  {
    assert key in map[key := value];
  }

  /** A filter with any number of fields asks for all of them. */
  lemma FilterAsksForItsFields(metadata: Json, fields: map<string, Json>)
    ensures MetadataMatches(metadata, Object(fields)) <==>
            forall key | key in fields :: HasField(metadata, key, fields[key])
  {
  }

  /** So every object matches itself, and no longer once the filter asks for another value of some field. */
  lemma ObjectMatchesItself(fields: map<string, Json>, key: string, value: Json)
    ensures MetadataMatches(Object(fields), Object(fields))
    ensures MetadataMatches(Object(fields), Object(fields[key := value])) <==> HasField(Object(fields), key, value)
  {
    FilterAsksForItsFields(Object(fields), fields);
    FilterAsksForItsFields(Object(fields), fields[key := value]);
    hide MetadataMatches;
    assert fields[key := value][key] == value;
  }

  /** On the full-text path a filter field is compared with the record's own. */
  lemma OneFieldOfRecord(record: MemoryRecord, key: string, value: Json)
    ensures RecordMatches(record, Object(map[key := value])) <==>
            || (key == "id" && value == Json.String(record.idText))
            || (key == "content" && value == Json.String(record.content))
            || (key == "memory_type" && value == Json.String(record.memoryType))
            || (key == "tags" && value.Array? && |value.items| == |record.tags|
                && forall i | 0 <= i < |record.tags| :: value.items[i] == Json.String(record.tags[i]))
  {
    OneFieldFilter(View(record), key, value);
    if value.Array? && |value.items| == |record.tags|
       && forall i | 0 <= i < |record.tags| :: value.items[i] == Json.String(record.tags[i]) {
      assert value.items == TagList(record.tags);
    }
  }

  /** The metadata with which the engine hands an entry to the vector engine. */
  function StoredMetadata(entry: Entry, idText: string): Json {
    Object(map[
      "memory_id" := Json.String(idText), "memory_type" := Json.String(NameOf(entry.record.memoryType)),
      "tags" := Json.Array(TagList(entry.record.tags)), "metadata" := entry.metadata])
  }

  /**
   * So a filter on a field of the metadata that the caller gave does not find the memory: it is compared
   * with the four fields around that metadata, which can only be asked for as a whole.
   */
  lemma OwnMetadataIsNested(entry: Entry, idText: string, key: string, value: Json)
    ensures MetadataMatches(StoredMetadata(entry, idText), Object(map[key := value])) <==>
            || (key == "memory_id" && value == Json.String(idText))
            || (key == "memory_type" && value == Json.String(NameOf(entry.record.memoryType)))
            || (key == "tags" && value == Json.Array(TagList(entry.record.tags)))
            || (key == "metadata" && value == entry.metadata)
  {
    OneFieldFilter(StoredMetadata(entry, idText), key, value);
    hide MetadataMatches;
  }

  /** A filter is the conjunction of its parts. */
  lemma FiltersCombine(metadata: Json, a: map<string, Json>, b: map<string, Json>)
    requires forall key | key in a && key in b :: a[key] == b[key]
    ensures MetadataMatches(metadata, Object(a + b))
       <==> MetadataMatches(metadata, Object(a)) && MetadataMatches(metadata, Object(b))
  {
    var both := Object(a + b);
    if MetadataMatches(metadata, both) {
      assert forall key | key in a :: key in both.fields && both.fields[key] == a[key];
      assert forall key | key in b :: key in both.fields && both.fields[key] == b[key];
    }
  }

  /** On the full-text path a filter on anything but the record's own four fields finds nothing. */
  lemma FullTextKnowsFourFields(records: seq<MemoryRecord>, filter: Json, key: string)
    requires filter.Object? && key in filter.fields
    requires key !in {"id", "content", "memory_type", "tags"}
    ensures Filtered(records, ByRecord(Some(filter))) == []
  {
    assert forall record | record in records :: key !in View(record).fields;
    FilteredNone(records, ByRecord(Some(filter)));
  }

  lemma {:induction false} FilteredNone<T>(items: seq<T>, keep: T -> bool)
    requires forall x | x in items :: !keep(x)
    ensures Filtered(items, keep) == []
  {
    if items != [] {
      FilteredNone(items[1..], keep);
    }
  }

  // ---------------------------------------------------------------- the program

  datatype SearchError = SessionInvalid | PermissionDenied | EngineFailed

  /** The engines behind a search, each answering with a ranking or with an error. */
  datatype Engines = Engines(
    ranking: Option<string -> Option<seq<Hit>>>,
    fullText: string -> Option<seq<MemoryRecord>>)

  function HitOf(record: MemoryRecord): Hit {
    Hit(record.id, record.content, Null)
  }

  function Hits(records: seq<MemoryRecord>): seq<Hit> {
    seq(|records|, i requires 0 <= i < |records| => HitOf(records[i]))
  }

  function ByMetadata(filter: Option<Json>): Hit -> bool {
    (hit: Hit) => filter.Some? ==> MetadataMatches(hit.metadata, filter.value)
  }

  function ByRecord(filter: Option<Json>): MemoryRecord -> bool {
    (record: MemoryRecord) => filter.Some? ==> RecordMatches(record, filter.value)
  }

  /** What the caller asked for, over the whole ranking or over all full-text matches. */
  function Expected(engines: Engines, query: string, k: Usize, semantic: bool, filter: Option<Json>): Option<seq<Hit>> {
    if semantic && engines.ranking.Some? then
      var ranking := engines.ranking.value(query);
      if ranking.None? then None
      else Some(Ideal(ranking.value, ByMetadata(filter), k))
    else
      var records := engines.fullText(query);
      if records.None? then None
      else Some(Hits(Ideal(records.value, ByRecord(filter), k)))
  }

  /** A hit has every field of the filter, with the filter's value. */
  predicate Satisfies(hit: Hit, filter: Option<Json>) {
    filter.Some? && filter.value.Object? ==>
      forall key | key in filter.value.fields :: HasField(hit.metadata, key, filter.value.fields[key])
  }

  /** A hit made of a full-text match: its identifier and content, without metadata. */
  ghost predicate FromRecord(hit: Hit, records: seq<MemoryRecord>, filter: Option<Json>) {
    && hit.metadata == Null
    && exists record | record in records ::
         && hit.id == record.id && hit.content == record.content
         && (filter.Some? ==> RecordMatches(record, filter.value))
  }

  lemma SemanticHits(ranking: seq<Hit>, filter: Option<Json>, k: nat)
    ensures forall hit | hit in Ideal(ranking, ByMetadata(filter), k) :: hit in ranking && Satisfies(hit, filter)
    ensures |Ideal(ranking, ByMetadata(filter), k)| <= k
  {
    var kept := Filtered(ranking, ByMetadata(filter));
    hide Filtered, MetadataMatches;
    forall hit | hit in kept
      ensures hit in ranking && Satisfies(hit, filter)
    {
      if filter.Some? && filter.value.Object? {
        FilterAsksForItsFields(hit.metadata, filter.value.fields);
      }
    }
  }

  lemma FullTextHits(records: seq<MemoryRecord>, filter: Option<Json>, k: nat)
    ensures forall hit | hit in Hits(Ideal(records, ByRecord(filter), k)) :: FromRecord(hit, records, filter)
    ensures |Hits(Ideal(records, ByRecord(filter), k))| <= k
  {
    hide Filtered, RecordMatches;
    var ideal := Ideal(records, ByRecord(filter), k);
    forall hit | hit in Hits(ideal)
      ensures FromRecord(hit, records, filter)
    {
      var i :| 0 <= i < |ideal| && hit == HitOf(ideal[i]);
      assert ideal[i] in Filtered(records, ByRecord(filter));
    }
  }

  /** Keeps in `items` what `keep` accepts, in order. */
  method Retain<T>(items: seq<T>, keep: T -> bool) returns (kept: seq<T>)
    ensures kept == Filtered(items, keep)
  {
    hide Filtered;
    kept := [];
    assert items[0..] == items && [] + Filtered(items, keep) == Filtered(items, keep);
    for i := 0 to |items|
      invariant kept + Filtered(items[i..], keep) == Filtered(items, keep)
    {
      FilteredFrom(items, keep, i, kept);
      if keep(items[i]) {
        kept := kept + [items[i]];
      }
    }
    NothingFiltered(items, keep, kept);
  }

  lemma FilteredFrom<T>(items: seq<T>, keep: T -> bool, i: nat, kept: seq<T>)
    requires i < |items|
    ensures kept + Filtered(items[i..], keep) ==
            (if keep(items[i]) then kept + [items[i]] else kept) + Filtered(items[i + 1..], keep)
  {
    assert items[i..][1..] == items[i + 1..];
  }

  lemma NothingFiltered<T>(items: seq<T>, keep: T -> bool, kept: seq<T>)
    ensures kept + Filtered(items[|items|..], keep) == kept
  {
  }

  /**
   * The session's guard token is `valid` or not.  The vector engine answers with a window of its
   * ranking; the results are a prefix of what was asked for, and all of it without a filter, on the
   * full-text path, or when the window holds enough matches.
   */
  method SearchWithOptions(
    engines: Engines, valid: bool, granted: seq<string>, query: string, k: Usize, semantic: bool, filter: Option<Json>)
    returns (r: Result<seq<Hit>, SearchError>)
    ensures r == Err(SessionInvalid) <==> !valid
    ensures r == Err(PermissionDenied) <==> valid && !Accepts(granted, ["memory:read", "memory:search"])
    ensures r == Err(EngineFailed) <==>
              && valid && Accepts(granted, ["memory:read", "memory:search"])
              && Expected(engines, query, k, semantic, filter).None?
    ensures r.Ok? ==> var expected := Expected(engines, query, k, semantic, filter);
              && expected.Some? && Prefix(r.value, expected.value)
              && (filter.None? || engines.ranking.None? || !semantic ==> r.value == expected.value)
    ensures r.Ok? && semantic && engines.ranking.Some? ==>
              var ranking := engines.ranking.value(query).value;
              var window := Taken(ranking, Window(k));
              r.value == Ideal(ranking, ByMetadata(filter), k)
              <==> || |Filtered(window, ByMetadata(filter))| >= k
                   || Filtered(ranking[|window|..], ByMetadata(filter)) == []
    ensures r.Ok? ==> |r.value| <= k
    ensures r.Ok? && semantic && engines.ranking.Some? ==>
              forall hit | hit in r.value :: hit in engines.ranking.value(query).value && Satisfies(hit, filter)
    ensures r.Ok? && !(semantic && engines.ranking.Some?) ==>
              forall hit | hit in r.value :: FromRecord(hit, engines.fullText(query).value, filter)
  {
    if !valid {
      return Err(SessionInvalid);
    }
    FallbacksAreRedundant(granted);
    if !Accepts(granted, SEARCH_MEMORY) {
      return Err(PermissionDenied);
    }
    hide Accepts, Filtered, MetadataMatches, RecordMatches, Satisfies, FromRecord;
    if semantic && engines.ranking.Some? {
      var answer := engines.ranking.value(query);
      if answer.None? {
        return Err(EngineFailed);
      }
      var results := Taken(answer.value, Window(k));
      WindowedSearch(answer.value, ByMetadata(filter), Window(k), k);
      SemanticHits(results, filter, k);
      if filter.Some? {
        results := Retain(results, ByMetadata(filter));
      } else {
        FilteredAll(results, ByMetadata(filter));
        UnfilteredSearchIsExact(answer.value, ByMetadata(filter), k);
        FilteredAll(answer.value, ByMetadata(filter));
      }
      return Ok(Taken(results, k));
    }
    var records := engines.fullText(query);
    if records.None? {
      return Err(EngineFailed);
    }
    FullTextHits(records.value, filter, k);
    var kept := Retain(records.value, ByRecord(filter));
    r := Ok(Hits(Taken(kept, k)));
  }
}
