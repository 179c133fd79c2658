/**
 * The current Brave Search client: an in-memory TTL cache with an optional
 * file behind it, whose writes are debounced. The debounce is a state machine
 * over the dirty flag, the time of the last write and a pending write task;
 * the clock and the presence of an event loop are parameters, and the task
 * created by a schedule runs when the caller says so (`RunPendingWrite`).
 */
module BraveClient {
  import opened Wrappers
  import opened Text
  import opened Json
  import opened Foreign
  import opened Domain
  import opened Folds
  import opened SearchCache

  /** A write is skipped when the last one is less than this many seconds old. */
  const DebounceSeconds: real := 2.0

  /** `_cache_dirty`, `_last_cache_write_time` and whether `_pending_cache_write` is a task not yet done. */
  datatype Debounce = Debounce(dirty: bool, lastWrite: real, pending: bool)

  /** The state after one step, and whether the step wrote the cache file. */
  datatype Step = Step(next: Debounce, writes: bool)

  /**
   * `_schedule_cache_write()` at time `now`: nothing within the debounce
   * window; with an event loop, a task is created unless one is pending;
   * without one, a dirty cache is written at once.
   */
  function Schedule(d: Debounce, now: real, loopRunning: bool): Step {
    if now - d.lastWrite < DebounceSeconds then Step(d, false)
    else if loopRunning then
      if d.pending then Step(d, false) else Step(d.(pending := true), false)
    else if d.dirty then Step(Debounce(false, now, d.pending), true)
    else Step(d, false)
  }

  /** The body of the scheduled task, run at time `now`: it writes only a dirty cache, then the task is done. */
  function RunPending(d: Debounce, now: real): Step {
    if !d.pending then Step(d, false)
    else if d.dirty then Step(Debounce(false, now, false), true)
    else Step(d.(pending := false), false)
  }

  /** Within two seconds of the last write, scheduling changes nothing and writes nothing. */
  lemma ScheduleDebounced(d: Debounce, now: real, loopRunning: bool)
    requires now - d.lastWrite < DebounceSeconds
    ensures Schedule(d, now, loopRunning) == Step(d, false)
  {
  }

  /** While a task is pending, a second one is never created and scheduling writes nothing. */
  lemma ScheduleOneTask(d: Debounce, now: real)
    requires d.pending
    ensures Schedule(d, now, true).next == d && !Schedule(d, now, true).writes
  {
  }

  /**
   * A step writes only when the cache is dirty, and after a write the cache
   * is clean and the last-write time is now.
   */
  lemma WriteOnlyWhenDirty(d: Debounce, now: real, loopRunning: bool)
    ensures Schedule(d, now, loopRunning).writes ==> d.dirty && !Schedule(d, now, loopRunning).next.dirty
                                                     && Schedule(d, now, loopRunning).next.lastWrite == now
    ensures RunPending(d, now).writes ==> d.dirty && !RunPending(d, now).next.dirty
                                           && RunPending(d, now).next.lastWrite == now
    ensures !Schedule(d, now, loopRunning).writes ==> Schedule(d, now, loopRunning).next.dirty == d.dirty
    ensures !RunPending(d, now).writes ==> RunPending(d, now).next.dirty == d.dirty
  {
  }

  /**
   * The debounce drops writes: a change made within two seconds of the last
   * write, with no task pending, leaves the cache dirty with nothing
   * scheduled, and running the (absent) task never writes it; only a later
   * `_set_cache` can.
   */
  lemma DebounceDropsWrite(d: Debounce, now: real, later: real, loopRunning: bool)
    requires !d.pending && now - d.lastWrite < DebounceSeconds
    ensures var s := Schedule(d.(dirty := true), now, loopRunning);
            s.next.dirty && !s.next.pending && !s.writes
            && RunPending(s.next, later) == Step(s.next, false)
  {
  }

  /** A pending task eventually writes what a dirty cache holds, whatever the time. */
  lemma PendingTaskWrites(d: Debounce, now: real)
    requires d.pending && d.dirty
    ensures RunPending(d, now) == Step(Debounce(false, now, false), true)
  {
  }

  /** `BraveSearchClient`: its cache, its debounce state and the file writes made so far. */
  class BraveSearchClient {
    /** `api_key`; the empty string when it is not configured (falsy). */
    const apiKey: string
    const cacheTtl: int
    /** Whether `cache_file` is set. */
    const cacheFile: bool
    var cache: Cache
    var dirty: bool
    var lastWrite: real
    var pending: bool
    /** The snapshots `_save_cache_file` wrote, oldest first. */
    var writes: seq<Cache>
    /** The number of HTTP requests made. */
    var requests: nat

    function State(): Debounce
      reads this
    {
      Debounce(dirty, lastWrite, pending)
    }

    /**
     * `BraveSearchClient(api_key, http_client, cache_ttl, cache_file)`: an
     * empty cache, loaded from the file's text when a file is configured.
     */
    constructor(lib: Library, apiKey: string, cacheTtl: int, cacheFile: bool, fileText: Option<string>, now: real)
      ensures this.apiKey == apiKey && this.cacheTtl == cacheTtl && this.cacheFile == cacheFile
      ensures cache == (if cacheFile then LoadCache(lib, fileText, now, cacheTtl) else map[])
      ensures State() == Debounce(false, 0.0, false) && writes == [] && requests == 0
    {
      this.apiKey := apiKey;
      this.cacheTtl := cacheTtl;
      this.cacheFile := cacheFile;
      cache := map[];
      dirty := false;
      lastWrite := 0.0;
      pending := false;
      writes := [];
      requests := 0;
      new;
      if cacheFile {
        LoadCacheFile(lib, fileText, now);
      }
    }

    /** `_load_cache_file()`: the `for k, v in raw.items()` loop over the decoded file. */
    method LoadCacheFile(lib: Library, fileText: Option<string>, now: real)
      modifies this
      ensures cache == old(cache) + LoadCache(lib, fileText, now, cacheTtl)
      ensures State() == old(State()) && writes == old(writes) && requests == old(requests)
    {
      if fileText.None? {
        return;
      }
      var decoded := Loads(lib, fileText.value);
      if decoded.Failure? || !decoded.value.JObject? {
        assert cache == old(cache) + map[];
        return;
      }
      var fields := decoded.value.fields;
      for i := 0 to |fields|
        invariant !LoadFields(lib, fields[..i], now, cacheTtl).aborted
        invariant cache == old(cache) + LoadFields(lib, fields[..i], now, cacheTtl).cache
        invariant State() == old(State()) && writes == old(writes) && requests == old(requests)
      {
        LoadWithStep(Decoder(lib), fields, i, now, cacheTtl, old(cache));
        var (k, v) := fields[i];
        var e := EntryOf(lib, v);
        if e.Failure? {
          LoadWithStays(Decoder(lib), fields, i + 1, now, cacheTtl);
          return;
        }
        if !Expired(e.value, now, cacheTtl) {
          cache := cache[k := e.value];
        }
      }
      assert fields[..|fields|] == fields;
    }

    /** `_get_from_cache(key)` at time `now`. */
    method GetFromCache(key: string, now: real) returns (r: Option<seq<SearchResult>>)
      modifies this
      ensures (r, cache) == Lookup(old(cache), key, now, cacheTtl)
      ensures State() == old(State()) && writes == old(writes) && requests == old(requests)
    {
      if key !in cache {
        return None;
      }
      var entry := cache[key];
      if now - entry.ts > cacheTtl as real {
        cache := cache - {key};
        return None;
      }
      return Some(entry.results);
    }

    /** `_schedule_cache_write()` at time `now`. */
    method ScheduleCacheWrite(now: real, loopRunning: bool)
      modifies this
      ensures State() == Schedule(old(State()), now, loopRunning).next
      ensures writes == old(writes) + (if Schedule(old(State()), now, loopRunning).writes then [cache] else [])
      ensures cache == old(cache) && requests == old(requests)
    {
      if now - lastWrite < DebounceSeconds {
        return;
      }
      if loopRunning {
        if pending {
          return;
        }
        pending := true;
      } else if dirty {
        writes := writes + [cache];
        dirty := false;
        lastWrite := now;
      }
    }

    /** The scheduled `write_cache_after_delay` task, run at time `now`. */
    method RunPendingWrite(now: real)
      modifies this
      ensures State() == RunPending(old(State()), now).next
      ensures writes == old(writes) + (if RunPending(old(State()), now).writes then [cache] else [])
      ensures cache == old(cache) && requests == old(requests)
    {
      if !pending {
        return;
      }
      if dirty {
        writes := writes + [cache];
        dirty := false;
        lastWrite := now;
      }
      pending := false;
    }

    /**
     * `_set_cache(key, results)` at time `now`: only that key is overwritten;
     * with a cache file the cache is marked dirty and a write scheduled.
     */
    method SetCache(key: string, results: seq<SearchResult>, now: real, loopRunning: bool)
      modifies this
      ensures cache == old(cache)[key := Entry(now, results)]
      ensures !cacheFile ==> State() == old(State()) && writes == old(writes)
      ensures cacheFile ==> State() == Schedule(old(State()).(dirty := true), now, loopRunning).next
      ensures cacheFile ==> writes == old(writes) + (if Schedule(old(State()).(dirty := true), now, loopRunning).writes then [cache] else [])
      ensures requests == old(requests)
    {
      cache := cache[key := Entry(now, results)];
      if cacheFile {
        dirty := true;
        ScheduleCacheWrite(now, loopRunning);
      }
    }

    /**
     * One attempt of `search(query, count, search_lang)`, started at `start`
     * and finished at `finish`, where `response` is what the HTTP request
     * would give. A cache hit returns the stored list with no request; with
     * no API key a miss caches and returns the placeholder; otherwise one
     * request is made and its well-formed results are cached and returned.
     */
    method Search(lib: Library, query: string, count: int, lang: string, start: real, finish: real,
                  loopRunning: bool, response: Result<Json, string>) returns (r: Result<seq<SearchResult>, string>)
      modifies this
      ensures var (hit, c) := Lookup(old(cache), CacheKey(query, count, lang), start, cacheTtl);
              && (hit.Some? ==> r == Success(hit.value) && cache == c && requests == old(requests)
                                && writes == old(writes) && State() == old(State()))
              && (hit.None? && apiKey == "" ==> r == Placeholder(lib) && requests == old(requests))
              && (hit.None? && apiKey != "" ==> r == Fetched(lib, response, finish - start) && requests == old(requests) + 1)
              && (hit.None? && r.Success? ==> cache == c[CacheKey(query, count, lang) := Entry(finish, r.value)])
              && (r.Failure? ==> cache == c && writes == old(writes) && State() == old(State()))
      ensures var (hit, _) := Lookup(old(cache), CacheKey(query, count, lang), start, cacheTtl);
              var step := Schedule(old(State()).(dirty := true), finish, loopRunning);
              && (hit.None? && r.Success? && cacheFile ==>
                    State() == step.next && writes == old(writes) + (if step.writes then [cache] else []))
              && (hit.None? && r.Success? && !cacheFile ==> State() == old(State()) && writes == old(writes))
      ensures requests <= old(requests) + 1
    {
      var key := CacheKey(query, count, lang);
      var cached := GetFromCache(key, start);
      if cached.Some? {
        return Success(cached.value);
      }
      r := SearchMiss(lib, key, start, finish, loopRunning, response);
    }

    /**
     * The part of `search` after a cache miss on `key`: the placeholder
     * without an API key, otherwise one request whose well-formed results
     * are cached under `key` and returned.
     */
    method SearchMiss(lib: Library, key: string, start: real, finish: real, loopRunning: bool,
                      response: Result<Json, string>) returns (r: Result<seq<SearchResult>, string>)
      modifies this
      ensures apiKey == "" ==> r == Placeholder(lib) && requests == old(requests)
      ensures apiKey != "" ==> r == Fetched(lib, response, finish - start) && requests == old(requests) + 1
      ensures r.Success? ==> cache == old(cache)[key := Entry(finish, r.value)]
      ensures var step := Schedule(old(State()).(dirty := true), finish, loopRunning);
              && (r.Success? && cacheFile ==> State() == step.next && writes == old(writes) + (if step.writes then [cache] else []))
              && (r.Success? && !cacheFile ==> State() == old(State()) && writes == old(writes))
      ensures r.Failure? ==> cache == old(cache) && writes == old(writes) && State() == old(State())
    {
      if apiKey == "" {
        var placeholder := Placeholder(lib);
        if placeholder.Failure? {
          return placeholder;
        }
        SetCache(key, placeholder.value, finish, loopRunning);
        return placeholder;
      }
      requests := requests + 1;
      if response.Failure? {
        return Failure(response.error);
      }
      var web := WebItems(response.value);
      if web.Failure? {
        assert Fetched(lib, response, finish - start) == Failure(web.error);
        return Failure(web.error);
      }
      var results := MapResultList(lib, web.value, finish - start);
      assert Fetched(lib, response, finish - start) == Success(results);
      SetCache(key, results, finish, loopRunning);
      return Success(results);
    }

    /**
     * `search` under `@retry(stop=stop_after_attempt(3), reraise=True)`: the
     * attempt is repeated while it raises, at most three times in all, and the
     * last exception is re-raised. `responses(k)` is the HTTP outcome of the
     * k-th attempt.
     */
    method SearchWithRetry(lib: Library, query: string, count: int, lang: string, start: real, finish: real,
                           loopRunning: bool, responses: nat -> Result<Json, string>)
      returns (r: Result<seq<SearchResult>, string>, attempts: nat)
      modifies this
      ensures 1 <= attempts <= 3
      ensures r.Failure? ==> attempts == 3
      ensures attempts < 3 ==> r.Success?
      ensures requests <= old(requests) + attempts
    {
      attempts := 0;
      r := Failure("");
      while attempts < 3
        invariant attempts <= 3
        invariant requests <= old(requests) + attempts
        invariant attempts == 0 || r.Failure?
        decreases 3 - attempts
      {
        r := Search(lib, query, count, lang, start, finish, loopRunning, responses(attempts));
        attempts := attempts + 1;
        if r.Success? {
          return;
        }
      }
    }
  }
}
