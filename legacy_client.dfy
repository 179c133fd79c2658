/**
 * The legacy Brave Search client: the same TTL cache and key as the current
 * one, but `_set_cache` writes the file at once on every call, with no
 * debounce. The environment variable `BRAVE_API_KEY` is a parameter.
 */
module LegacyClient {
  import opened Wrappers
  import opened Text
  import opened Json
  import opened Foreign
  import opened Domain
  import opened Folds
  import opened SearchCache

  class LegacySearchClient {
    /** `api_key or os.getenv("BRAVE_API_KEY")`; the empty string when neither is set. */
    const apiKey: string
    const cacheTtl: int
    const cacheFile: bool
    var cache: Cache
    /** The snapshots `_save_cache_file` wrote, oldest first. */
    var writes: seq<Cache>
    var requests: nat

    constructor(lib: Library, apiKey: string, envKey: string, cacheTtl: int, cacheFile: bool,
                fileText: Option<string>, now: real)
      ensures this.apiKey == (if apiKey != "" then apiKey else envKey)
      ensures this.cacheTtl == cacheTtl && this.cacheFile == cacheFile
      ensures cache == (if cacheFile then LoadCache(lib, fileText, now, cacheTtl) else map[])
      ensures writes == [] && requests == 0
    {
      this.apiKey := if apiKey != "" then apiKey else envKey;
      this.cacheTtl := cacheTtl;
      this.cacheFile := cacheFile;
      cache := map[];
      writes := [];
      requests := 0;
      new;
      if cacheFile {
        var loaded := ReadCacheFile(lib, fileText, now, cacheTtl);
        cache := loaded;
      }
    }

    /** `_get_from_cache(key)` at time `now`: lazy eviction of an expired entry. */
    method GetFromCache(key: string, now: real) returns (r: Option<seq<SearchResult>>)
      modifies this
      ensures (r, cache) == Lookup(old(cache), key, now, cacheTtl)
      ensures writes == old(writes) && requests == old(requests)
    {
      r := None;
      if key in cache {
        if Expired(cache[key], now, cacheTtl) {
          cache := cache - {key};
        } else {
          r := Some(cache[key].results);
        }
      }
    }

    /** `_set_cache(key, results)` at time `now`: the entry is stored, and with a cache file written immediately. */
    method SetCache(key: string, results: seq<SearchResult>, now: real)
      modifies this
      ensures cache == old(cache)[key := Entry(now, results)]
      ensures writes == old(writes) + (if cacheFile then [cache] else [])
      ensures requests == old(requests)
    {
      cache := cache[key := Entry(now, results)];
      if cacheFile {
        writes := writes + [cache];
      }
    }

    /**
     * One attempt of `search` (the `@retry` around it is not modelled): a
     * hit makes no request; a keyless miss caches and returns the
     * placeholder; otherwise one request, whose well-formed results are
     * cached and returned.
     */
    method Search(lib: Library, query: string, count: int, lang: string, start: real, finish: real,
                  response: Result<Json, string>) returns (r: Result<seq<SearchResult>, string>)
      modifies this
      ensures var (hit, c) := Lookup(old(cache), CacheKey(query, count, lang), start, cacheTtl);
              && (hit.Some? ==> r == Success(hit.value) && cache == c && requests == old(requests) && writes == old(writes))
              && (hit.None? && apiKey == "" ==> r == Placeholder(lib) && requests == old(requests))
              && (hit.None? && apiKey != "" ==> r == Fetched(lib, response, finish - start) && requests == old(requests) + 1)
              && (hit.None? && r.Success? ==>
                    cache == c[CacheKey(query, count, lang) := Entry(finish, r.value)]
                    && writes == old(writes) + (if cacheFile then [cache] else []))
              && (r.Failure? ==> cache == c && writes == old(writes))
    {
      var key := CacheKey(query, count, lang);
      var cached := GetFromCache(key, start);
      ghost var c := cache;
      if cached.Some? {
        return Success(cached.value);
      }
      if apiKey == "" {
        r := Placeholder(lib);
        if r.Success? {
          SetCache(key, r.value, finish);
        }
        return;
      }
      requests := requests + 1;
      assert cache == c && writes == old(writes);
      if response.Failure? {
        return Failure(response.error);
      }
      var web := WebItems(response.value);
      if web.Failure? {
        assert Fetched(lib, response, finish - start) == Failure(web.error);
        return Failure(web.error);
      }
      var results := MapResultList(lib, web.value, finish - start);
      assert Fetched(lib, response, finish - start) == Success(results);
      SetCache(key, results, finish);
      return Success(results);
    }
  }

  /**
   * The legacy `_load_cache_file` loop on a fresh cache, written with an
   * explicit cursor that stops at the first value that raises.
   */
  method ReadCacheFile(lib: Library, fileText: Option<string>, now: real, ttl: int) returns (cache: Cache)
    ensures cache == LoadCache(lib, fileText, now, ttl)
  {
    cache := map[];
    if fileText.None? || Loads(lib, fileText.value).Failure? || !Loads(lib, fileText.value).value.JObject? {
      return;
    }
    var fields := Loads(lib, fileText.value).value.fields;
    var i := 0;
    var stopped := false;
    while i < |fields| && !stopped
      invariant i <= |fields|
      invariant LoadFields(lib, fields[..i], now, ttl) == Loaded(cache, stopped)
      decreases |fields| - i
    {
      assert fields[..i + 1][..i] == fields[..i];
      match EntryOf(lib, fields[i].1) {
        case Failure(_) =>
          stopped := true;
        case Success(e) =>
          if !Expired(e, now, ttl) {
            cache := cache[fields[i].0 := e];
          }
      }
      i := i + 1;
    }
    if stopped {
      LoadWithStays(Decoder(lib), fields, i, now, ttl);
    } else {
      assert fields[..|fields|] == fields;
    }
  }
}
