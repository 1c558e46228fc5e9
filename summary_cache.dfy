/** The cache of chunk summaries (src/layer3/cache.py). The cache file is
    represented by what reading it gives and by the value last written to
    it; paths, directories and encodings are not modelled. */
module SummaryCache {
  import opened Common
  import opened JsonValue
  import opened Layer3Models

  /** What `_load` finds: no file, a file that cannot be read or decoded,
      or the decoded contents. */
  datatype CacheFile = Missing | Unreadable | Decoded(contents: Json)

  /** The dictionary `set` stores for a summary. */
  function EncodeSummary(s: ChunkSummary): Json
  {
    JObject(map[ThemeIdKey := JString(s.themeId), ThemeNameKey := JString(s.themeName),
                KeyPointsKey := JArray(JsonStrings(s.keyPoints)),
                CandidateQuotesKey := JArray(JsonStrings(s.candidateQuotes))],
            [ThemeIdKey, ThemeNameKey, KeyPointsKey, CandidateQuotesKey])
  }

  /** The summary `get` builds from a stored payload: none for a falsy
      payload, `KeyError` without an id or a name, `TypeError` for a payload
      that cannot be indexed by a string, and missing lists read as empty.
      A payload whose fields are not strings and lists of strings is
      reported as `Err("field type")`. */
  function DecodeSummary(payload: Json): (r: Result<Option<ChunkSummary>>)
    ensures !Truthy(payload) ==> r == Ok(None)
    ensures r == Ok(None) ==> !Truthy(payload)
    ensures Truthy(payload) && payload.JObject? && (ThemeIdKey !in payload.fields || ThemeNameKey !in payload.fields)
            ==> r == Err("KeyError")
    ensures Truthy(payload) && !payload.JObject? ==> r == Err("TypeError")
  {
    if !Truthy(payload) then Ok(None)
    else if !payload.JObject? then Err("TypeError")
    else
      var f := payload.fields;
      if ThemeIdKey !in f || ThemeNameKey !in f then Err("KeyError")
      else if !f[ThemeIdKey].JString? || !f[ThemeNameKey].JString? then Err("field type")
      else
        match (StringList(Get(f, KeyPointsKey, JArray([]))), StringList(Get(f, CandidateQuotesKey, JArray([]))))
        case (Some(points), Some(quotes)) =>
          Ok(Some(ChunkSummary(f[ThemeIdKey].s, f[ThemeNameKey].s, points, quotes)))
        case _ => Err("field type")
  }

  /** A stored summary reads back as the same four fields. */
  lemma DecodeEncode(s: ChunkSummary)
    ensures DecodeSummary(EncodeSummary(s)) == Ok(Some(s))
  {
    StringsOfJsonStrings(s.keyPoints);
    StringsOfJsonStrings(s.candidateQuotes);
    assert Truthy(EncodeSummary(s)) by {
      assert ThemeIdKey in EncodeSummary(s).fields;
    }
  }

  /** A payload without the list keys reads them as empty lists. */
  lemma DecodeDefaults(themeId: string, themeName: string)
    ensures DecodeSummary(JObject(map[ThemeIdKey := JString(themeId), ThemeNameKey := JString(themeName)],
                                  [ThemeIdKey, ThemeNameKey]))
            == Ok(Some(ChunkSummary(themeId, themeName, [], [])))
  {
    var f := map[ThemeIdKey := JString(themeId), ThemeNameKey := JString(themeName)];
    assert KeyPointsKey !in f && CandidateQuotesKey !in f;
    assert Truthy(JObject(f, [ThemeIdKey, ThemeNameKey])) by {
      assert ThemeIdKey in f;
    }
  }

  /** `get(key)` on a store: `store.get(key)` is `None` for a missing key,
      and a store that is not a dictionary has no `get`. */
  function CacheGet(store: Json, key: string): Result<Option<ChunkSummary>>
  {
    if store.JObject? then DecodeSummary(Get(store.fields, key, JNull)) else Err("AttributeError")
  }

  /** `set(key, summary)` on a store; only a dictionary accepts it. */
  function CacheSet(store: Json, key: string, s: ChunkSummary): Result<Json>
  {
    if store.JObject? then Ok(Assign(store.fields, store.keys, key, EncodeSummary(s))) else Err("TypeError")
  }

  /** `get` after `set` returns the summary that was set. */
  lemma GetAfterSet(store: Json, key: string, s: ChunkSummary)
    requires store.JObject?
    ensures CacheSet(store, key, s).Ok?
    ensures CacheGet(CacheSet(store, key, s).value, key) == Ok(Some(s))
  {
    DecodeEncode(s);
  }

  /** `set` leaves every other key as it was. */
  lemma SetKeepsOthers(store: Json, key: string, s: ChunkSummary, other: string)
    requires store.JObject? && other != key
    ensures CacheSet(store, key, s).value.fields.Keys == store.fields.Keys + {key}
    ensures other in store.fields ==> CacheSet(store, key, s).value.fields[other] == store.fields[other]
    ensures CacheGet(CacheSet(store, key, s).value, other) == CacheGet(store, other)
  {
  }

  /** A missing key reads as no summary. */
  lemma GetMissing(store: Json, key: string)
    requires store.JObject? && key !in store.fields
    ensures CacheGet(store, key) == Ok(None)
  {
  }

  /** The summary cache: its store, whether it changed since it was loaded
      or persisted, and what the cache file holds after the last persist
      (`None` before any). */
  class ChunkSummaryCache {
    var store: Json
    var dirty: bool
    var saved: Option<Json>

    /** `__init__` and `_load`: no file, or a file that fails to load, gives
        an empty store; the cache starts clean. */
    constructor (file: CacheFile)
      ensures store == (if file.Decoded? then file.contents else JObject(map[], []))
      ensures !dirty && saved == None
    {
      store := JObject(map[], []);
      dirty := false;
      saved := None;
      if file.Decoded? {
        store := file.contents;
      }
    }

    /** `get` reads the store and changes nothing. */
    method Get(key: string) returns (r: Result<Option<ChunkSummary>>)
      ensures r == CacheGet(store, key)
      ensures store.JObject? && (key !in store.fields || !Truthy(store.fields[key])) ==> r == Ok(None)
    {
      if !store.JObject? {
        return Err("AttributeError");
      }
      var payload := JsonValue.Get(store.fields, key, JNull);
      r := DecodeSummary(payload);
    }

    /** `set` stores the summary under `key`, leaves every other key alone,
        and marks the cache dirty. */
    method Set(key: string, summary: ChunkSummary) returns (r: Result<()>)
      modifies this
      ensures old(store).JObject? ==>
                r == Ok(()) && store == CacheSet(old(store), key, summary).value && dirty
      ensures !old(store).JObject? ==> r.Err? && store == old(store) && dirty == old(dirty)
      ensures saved == old(saved)
    {
      if !store.JObject? {
        return Err("TypeError");
      }
      store := Assign(store.fields, store.keys, key, EncodeSummary(summary));
      dirty := true;
      r := Ok(());
    }

    /** `persist` writes the store only when dirty, and leaves the cache
        clean. */
    method Persist()
      modifies this
      ensures store == old(store) && !dirty
      ensures old(dirty) ==> saved == Some(old(store))
      ensures !old(dirty) ==> saved == old(saved)
    {
      if !dirty {
        return;
      }
      saved := Some(store);
      dirty := false;
    }
  }
}
