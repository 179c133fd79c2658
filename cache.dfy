/**
 * The evidence cache shared by both Brave Search clients: the normalised
 * cache key, the TTL lookup with lazy eviction, loading a cache file, and the
 * mapping of an API response to search results.
 */
module SearchCache {
  import opened Wrappers
  import opened Text
  import opened Json
  import opened Foreign
  import opened Domain
  import opened Folds

  // ---------------------------------------------------------------------------
  // The cache key

  /** `f"{query.strip().lower()}::count={count}::lang={search_lang}"` */
  function CacheKey(query: string, count: int, lang: string): string {
    ToLower(Strip(query)) + "::count=" + IntToString(count) + "::lang=" + lang
  }

  /** Queries that differ only in the case of ASCII letters or in surrounding whitespace share a key. */
  lemma CacheKeyIgnoresCaseAndSpace(w1: string, q: string, w2: string, q': string, count: int, lang: string)
    requires IsBlank(w1) && IsBlank(w2)
    requires ToLower(q) == ToLower(q')
    ensures CacheKey(w1 + q + w2, count, lang) == CacheKey(q', count, lang)
  {
    var lw1, lw2 := ToLower(w1), ToLower(w2);
    assert ToLower(w1 + q + w2) == lw1 + ToLower(q) + lw2;
    forall k | 0 <= k < |lw1| ensures IsSpace(lw1[k]) { LowerCharSpace(w1[k]); }
    forall k | 0 <= k < |lw2| ensures IsSpace(lw2[k]) { LowerCharSpace(w2[k]); }
    StripLower(w1 + q + w2);
    StripLower(q');
    StripSurrounding(lw1, ToLower(q), lw2);
  }

  /** For one query, the key determines the count and the language. */
  lemma CacheKeyDistinguishes(q: string, c1: int, l1: string, c2: int, l2: string)
    requires CacheKey(q, c1, l1) == CacheKey(q, c2, l2)
    ensures c1 == c2 && l1 == l2
  {
    var p := ToLower(Strip(q)) + "::count=";
    var i1, i2 := IntToString(c1), IntToString(c2);
    var x1, x2 := "::lang=" + l1, "::lang=" + l2;
    assert CacheKey(q, c1, l1) == p + (i1 + x1);
    assert CacheKey(q, c2, l2) == p + (i2 + x2);
    assert (p + (i1 + x1))[|p|..] == i1 + x1;
    assert (p + (i2 + x2))[|p|..] == i2 + x2;
    IntToStringChars(c1);
    IntToStringChars(c2);
    SplitAtColon(i1, x1, i2, x2);
    IntToStringInjective(c1, c2);
    assert x1[7..] == l1 && x2[7..] == l2;
  }

  /** Two colon-free prefixes each followed by a colon: equal concatenations have equal parts. */
  lemma SplitAtColon(a: string, x: string, b: string, y: string)
    requires forall k | 0 <= k < |a| :: a[k] != ':'
    requires forall k | 0 <= k < |b| :: b[k] != ':'
    requires |x| > 0 && x[0] == ':' && |y| > 0 && y[0] == ':'
    requires a + x == b + y
    ensures a == b && x == y
  {
    var s := a + x;
    assert forall k | 0 <= k < |a| :: s[k] == a[k];
    assert forall k | 0 <= k < |b| :: s[k] == b[k];
    assert s[|a|] == ':' && s[|b|] == ':';
    assert |a| == |b|;
    assert a == s[..|a|] && b == s[..|b|];
    assert x == s[|a|..] && y == s[|b|..];
  }

  // ---------------------------------------------------------------------------
  // Entries and lookup

  /** `(ts, results)` */
  datatype Entry = Entry(ts: real, results: seq<SearchResult>)

  type Cache = map<string, Entry>

  /** `now - ts > cache_ttl` */
  predicate Expired(e: Entry, now: real, ttl: int) {
    now - e.ts > ttl as real
  }

  /**
   * `_get_from_cache(key)` at time `now`: the answer and the cache after it.
   * A missing key misses; an expired entry is deleted and misses; otherwise
   * the stored list is returned and nothing changes.
   */
  function Lookup(cache: Cache, key: string, now: real, ttl: int): (r: (Option<seq<SearchResult>>, Cache))
    ensures r.0.Some? <==> key in cache && !Expired(cache[key], now, ttl)
    ensures r.0.Some? ==> r.0.value == cache[key].results
    ensures r.1.Keys <= cache.Keys
    ensures forall k | k in r.1 :: r.1[k] == cache[k]
    ensures forall k | k in cache && k !in r.1 :: k == key && Expired(cache[key], now, ttl)
  {
    if key !in cache then (None, cache)
    else if Expired(cache[key], now, ttl) then (None, cache - {key})
    else (Some(cache[key].results), cache)
  }

  /** An entry exactly `ttl` old is still a hit: only strictly older entries expire. */
  lemma LookupAtTtl(cache: Cache, key: string, ttl: int)
    requires key in cache
    ensures Lookup(cache, key, cache[key].ts + ttl as real, ttl) == (Some(cache[key].results), cache)
  {
  }

  /** What `_set_cache` stores is found again by a lookup within the TTL, and the lookup changes nothing. */
  lemma StoreThenLookup(cache: Cache, key: string, t: real, results: seq<SearchResult>, now: real, ttl: int)
    requires now - t <= ttl as real
    ensures var c := cache[key := Entry(t, results)];
            Lookup(c, key, now, ttl) == (Some(results), c)
  {
  }

  /** Looking up twice at the same time gives the same answer as once, and the second changes nothing. */
  lemma LookupIdempotent(cache: Cache, key: string, now: real, ttl: int)
    ensures var (a, c) := Lookup(cache, key, now, ttl);
            Lookup(c, key, now, ttl) == (a, c)
  {
  }

  // ---------------------------------------------------------------------------
  // Iteration over decoded values

  /**
   * `for x in v` on a decoded value: a list yields its items, a string its
   * characters, a dict its keys; anything else is a TypeError.
   */
  function Iterate(v: Json): (r: Result<seq<Json>, string>)
    ensures r.Failure? <==> !(v.JArray? || v.JString? || v.JObject?)
    ensures v.JArray? ==> r == Success(v.items)
    ensures (v.JString? || v.JObject?) ==> forall k | 0 <= k < |r.value| :: r.value[k].JString?
  {
    match v
    case JArray(items) => Success(items)
    case JString(s) => Success(seq(|s|, k requires 0 <= k < |s| => JString([s[k]])))
    case JObject(fields) => Success(seq(|fields|, k requires 0 <= k < |fields| => JString(fields[k].0)))
    case _ => Failure("'" + TypeName(v) + "' object is not iterable")
  }

  // ---------------------------------------------------------------------------
  // Loading the cache file

  /** What one stored item contributes: `SearchResult(**itm)`, or nothing where that raises. */
  function StoredItem(lib: Library, item: Json): seq<SearchResult> {
    match SearchResultFromFields(lib, item)
    case Some(r) => [r]
    case None => []
  }

  /** The results of one stored entry, skipping the items that do not construct. */
  function StoredResults(lib: Library, items: seq<Json>): seq<SearchResult> {
    FlatMap(item => StoredItem(lib, item), items)
  }

  /** The stored results come from the items in order, at most one each, and only from items that construct. */
  lemma StoredResultsSpec(lib: Library, items: seq<Json>)
    ensures |StoredResults(lib, items)| <= |items|
    ensures forall r | r in StoredResults(lib, items) :: exists k | 0 <= k < |items| :: SearchResultFromFields(lib, items[k]) == Some(r)
    ensures (forall k | 0 <= k < |items| :: SearchResultFromFields(lib, items[k]).Some?) ==> |StoredResults(lib, items)| == |items|
  {
    var f := item => StoredItem(lib, item);
    assert StoredResults(lib, items) == FlatMap(f, items);
    FlatMapAtMostOne(f, items);
    forall r | r in StoredResults(lib, items)
      ensures exists k | 0 <= k < |items| :: SearchResultFromFields(lib, items[k]) == Some(r)
    {
      var k :| 0 <= k < |items| && f(items[k]) == [r];
      assert SearchResultFromFields(lib, items[k]) == Some(r);
    }
  }

  /**
   * One value of the cache file: `ts = float(v.get("ts", 0))`, then the
   * items of `v.get("results", []) or []`. Raises when `v` is not a dict, the
   * time does not convert, or the items are not iterable.
   */
  function EntryOf(lib: Library, v: Json): Result<Entry, string> {
    if !v.JObject? then Failure(NoAttribute(v, "get"))
    else
      match PyFloat(lib, GetOr(v.fields, "ts", JInt(0)))
      case Failure(e) => Failure(e)
      case Success(ts) =>
        match Iterate(Or(GetOr(v.fields, "results", JArray([])), JArray([])))
        case Failure(e) => Failure(e)
        case Success(items) => Success(Entry(ts, StoredResults(lib, items)))
  }

  /** The cache a load has built so far, and whether an exception ended it. */
  datatype Loaded = Loaded(cache: Cache, aborted: bool)

  /** The decoding `_load_cache_file` applies to each value of the file. */
  function Decoder(lib: Library): Json -> Result<Entry, string> {
    v => EntryOf(lib, v)
  }

  /**
   * The `for k, v in raw.items()` loop, for a decoding `decode` of the
   * values: each unexpired entry is stored under its key; the first value
   * that raises ends the loop, keeping what was stored before it.
   */
  function LoadWith(decode: Json -> Result<Entry, string>, fields: seq<(string, Json)>, now: real, ttl: int): Loaded {
    if fields == [] then Loaded(map[], false)
    else
      var prev := LoadWith(decode, fields[..|fields| - 1], now, ttl);
      var (k, v) := fields[|fields| - 1];
      if prev.aborted then prev
      else
        match decode(v)
        case Failure(_) => Loaded(prev.cache, true)
        case Success(e) => if Expired(e, now, ttl) then prev else Loaded(prev.cache[k := e], false)
  }

  /** The loop of `_load_cache_file` over the fields of the decoded file. */
  function LoadFields(lib: Library, fields: seq<(string, Json)>, now: real, ttl: int): Loaded {
    LoadWith(Decoder(lib), fields, now, ttl)
  }

  /** A load keeps only unexpired entries. */
  lemma {:induction false} LoadWithFresh(decode: Json -> Result<Entry, string>, fields: seq<(string, Json)>, now: real, ttl: int)
    ensures forall k | k in LoadWith(decode, fields, now, ttl).cache :: !Expired(LoadWith(decode, fields, now, ttl).cache[k], now, ttl)
  {
    if fields != [] {
      var init := fields[..|fields| - 1];
      LoadWithFresh(decode, init, now, ttl);
      var p := LoadWith(decode, init, now, ttl);
      var (k, v) := fields[|fields| - 1];
      assert forall x | x in p.cache :: !Expired(p.cache[x], now, ttl);
      if !p.aborted && decode(v).Success? && !Expired(decode(v).value, now, ttl) {
        var c := p.cache[k := decode(v).value];
        assert LoadWith(decode, fields, now, ttl).cache == c;
        assert forall x | x in c :: !Expired(c[x], now, ttl);
      } else {
        assert LoadWith(decode, fields, now, ttl).cache == p.cache;
      }
    }
  }

  /** Each loaded entry is the decoded value of a field with that key. */
  lemma {:induction false} LoadWithFrom(decode: Json -> Result<Entry, string>, fields: seq<(string, Json)>, now: real, ttl: int)
    ensures forall k | k in LoadWith(decode, fields, now, ttl).cache :: exists j | 0 <= j < |fields| ::
              fields[j].0 == k && decode(fields[j].1) == Success(LoadWith(decode, fields, now, ttl).cache[k])
  {
    if fields != [] {
      var init := fields[..|fields| - 1];
      LoadWithFrom(decode, init, now, ttl);
      var l, p := LoadWith(decode, fields, now, ttl), LoadWith(decode, init, now, ttl);
      var (key, v) := fields[|fields| - 1];
      assert l.cache == p.cache || (decode(v).Success? && l.cache == p.cache[key := decode(v).value]);
      forall k | k in l.cache
        ensures exists j | 0 <= j < |fields| :: fields[j].0 == k && decode(fields[j].1) == Success(l.cache[k])
      {
        if k != key || l.cache == p.cache {
          assert k in p.cache && l.cache[k] == p.cache[k];
          var j :| 0 <= j < |init| && init[j].0 == k && decode(init[j].1) == Success(p.cache[k]);
          assert fields[j] == init[j];
        } else {
          assert fields[|fields| - 1].0 == k;
        }
      }
    }
  }

  /** A load is cut short exactly when some value raises. */
  lemma {:induction false} LoadWithAborts(decode: Json -> Result<Entry, string>, fields: seq<(string, Json)>, now: real, ttl: int)
    ensures LoadWith(decode, fields, now, ttl).aborted <==> exists j | 0 <= j < |fields| :: decode(fields[j].1).Failure?
  {
    if fields != [] {
      var init := fields[..|fields| - 1];
      LoadWithAborts(decode, init, now, ttl);
      assert forall j | 0 <= j < |init| :: init[j] == fields[j];
    }
  }

  /**
   * Without an exception, and with the distinct keys a decoded dict has,
   * every unexpired entry of the file is loaded.
   */
  lemma {:induction false} LoadWithComplete(decode: Json -> Result<Entry, string>, fields: seq<(string, Json)>, now: real, ttl: int)
    requires forall i, j | 0 <= i < j < |fields| :: fields[i].0 != fields[j].0
    requires !LoadWith(decode, fields, now, ttl).aborted
    ensures forall j | 0 <= j < |fields| && decode(fields[j].1).Success? && !Expired(decode(fields[j].1).value, now, ttl) ::
              fields[j].0 in LoadWith(decode, fields, now, ttl).cache
              && LoadWith(decode, fields, now, ttl).cache[fields[j].0] == decode(fields[j].1).value
  {
    if fields != [] {
      var init := fields[..|fields| - 1];
      assert !LoadWith(decode, init, now, ttl).aborted;
      LoadWithComplete(decode, init, now, ttl);
      forall j | 0 <= j < |fields| - 1 ensures fields[j] == init[j] && fields[j].0 != fields[|fields| - 1].0 {
      }
    }
  }

  /** One more field: the load stores its unexpired entry, or stops at an exception keeping what it had. */
  lemma LoadWithStep(decode: Json -> Result<Entry, string>, fields: seq<(string, Json)>, i: nat, now: real, ttl: int, base: Cache)
    requires i < |fields|
    requires !LoadWith(decode, fields[..i], now, ttl).aborted
    ensures decode(fields[i].1).Failure? ==>
              LoadWith(decode, fields[..i + 1], now, ttl) == Loaded(LoadWith(decode, fields[..i], now, ttl).cache, true)
    ensures decode(fields[i].1).Success? ==>
              && !LoadWith(decode, fields[..i + 1], now, ttl).aborted
              && base + LoadWith(decode, fields[..i + 1], now, ttl).cache
                 == if Expired(decode(fields[i].1).value, now, ttl) then base + LoadWith(decode, fields[..i], now, ttl).cache
                    else (base + LoadWith(decode, fields[..i], now, ttl).cache)[fields[i].0 := decode(fields[i].1).value]
  {
    assert fields[..i + 1][..i] == fields[..i];
  }

  /** Once a prefix of the fields has aborted the load, the rest of them change nothing. */
  lemma {:induction false} LoadWithStays(decode: Json -> Result<Entry, string>, fields: seq<(string, Json)>, n: nat, now: real, ttl: int)
    requires n <= |fields|
    requires LoadWith(decode, fields[..n], now, ttl).aborted
    ensures LoadWith(decode, fields, now, ttl) == LoadWith(decode, fields[..n], now, ttl)
    decreases |fields| - n
  {
    if n < |fields| {
      assert fields[..n + 1][..n] == fields[..n];
      LoadWithStays(decode, fields, n + 1, now, ttl);
    } else {
      assert fields[..n] == fields;
    }
  }

  /**
   * `_load_cache_file` on an empty cache: nothing when the file does not
   * exist or does not decode to a dict (the error is logged), otherwise the
   * entries the loop stored.
   */
  function LoadCache(lib: Library, fileText: Option<string>, now: real, ttl: int): Cache {
    match fileText
    case None => map[]
    case Some(text) =>
      match Loads(lib, text)
      case Failure(_) => map[]
      case Success(raw) => if raw.JObject? then LoadFields(lib, raw.fields, now, ttl).cache else map[]
  }

  /** A loaded cache holds no expired entry. */
  lemma LoadCacheFresh(lib: Library, fileText: Option<string>, now: real, ttl: int)
    ensures forall k | k in LoadCache(lib, fileText, now, ttl) :: !Expired(LoadCache(lib, fileText, now, ttl)[k], now, ttl)
  {
    if fileText.Some? && Loads(lib, fileText.value).Success? && Loads(lib, fileText.value).value.JObject? {
      var raw := Loads(lib, fileText.value).value;
      LoadWithFresh(Decoder(lib), raw.fields, now, ttl);
      assert LoadCache(lib, fileText, now, ttl) == LoadFields(lib, raw.fields, now, ttl).cache;
    }
  }

  // ---------------------------------------------------------------------------
  // Mapping an API response

  const NoTitle := "No title"
  const NoDescription := "No description available"
  const DefaultUrl := "https://example.com"

  /**
   * One item of `data["web"]["results"]`: a `SearchResult` with the defaults
   * for missing fields and the shared query time, or None for a malformed
   * item (not a dict, or a field that does not validate).
   */
  function MapItem(lib: Library, item: Json, queryTime: real): (r: Option<SearchResult>)
    ensures !item.JObject? ==> r.None?
    ensures r.Some? ==> r.value.queryTime == queryTime
    ensures r.Some? && Get(item.fields, "title").None? ==> r.value.title == NoTitle
    ensures r.Some? && Get(item.fields, "description").None? ==> r.value.description == NoDescription
    ensures r.Some? && Get(item.fields, "url").None? ==> lib.httpUrl(DefaultUrl) == Some(r.value.url)
    ensures (item.JObject? && Get(item.fields, "title").None? && Get(item.fields, "description").None?
             && Get(item.fields, "url").None? && lib.httpUrl(DefaultUrl).Some?) ==> r.Some?
  {
    if !item.JObject? then None
    else
      NewSearchResult(lib, GetOr(item.fields, "title", JString(NoTitle)), GetOr(item.fields, "url", JString(DefaultUrl)),
                      GetOr(item.fields, "description", JString(NoDescription)), JFloat(queryTime))
  }

  function MappedItem(lib: Library, item: Json, queryTime: real): seq<SearchResult> {
    match MapItem(lib, item, queryTime)
    case Some(r) => [r]
    case None => []
  }

  /** The results loop of `search`: one result per well-formed item, in order. */
  function MapResults(lib: Library, items: seq<Json>, queryTime: real): seq<SearchResult> {
    FlatMap(item => MappedItem(lib, item, queryTime), items)
  }

  /**
   * Mapping skips malformed items one at a time and keeps order; every
   * result carries the same query time.
   */
  lemma {:induction false} MapResultsSpec(lib: Library, items: seq<Json>, queryTime: real)
    ensures |MapResults(lib, items, queryTime)| <= |items|
    ensures forall r | r in MapResults(lib, items, queryTime) :: r.queryTime == queryTime
  {
    if items != [] {
      MapResultsSpec(lib, items[..|items| - 1], queryTime);
    }
  }

  /** The results of `a + b` are those of `a` followed by those of `b`. */
  lemma MapResultsConcat(lib: Library, a: seq<Json>, b: seq<Json>, queryTime: real)
    ensures MapResults(lib, a + b, queryTime) == MapResults(lib, a, queryTime) + MapResults(lib, b, queryTime)
  {
    FlatMapConcat(item => MappedItem(lib, item, queryTime), a, b);
  }

  /** The results loop of `search` in both clients, one item at a time. */
  method MapResultList(lib: Library, items: seq<Json>, queryTime: real) returns (results: seq<SearchResult>)
    ensures results == MapResults(lib, items, queryTime)
  {
    results := [];
    for i := 0 to |items|
      invariant results == MapResults(lib, items[..i], queryTime)
    {
      assert items[..i + 1][..i] == items[..i];
      var mapped := MapItem(lib, items[i], queryTime);
      if mapped.Some? {
        results := results + [mapped.value];
      }
    }
    assert items[..|items|] == items;
  }

  /**
   * `data.get("web", {}).get("results", [])`, iterated: raises when the
   * response or its `web` value is not a dict or the results are not
   * iterable.
   */
  function WebItems(data: Json): (r: Result<seq<Json>, string>)
    ensures !data.JObject? ==> r.Failure?
    ensures data.JObject? && Get(data.fields, "web").None? ==> r == Success([])
  {
    if !data.JObject? then Failure(NoAttribute(data, "get"))
    else
      var web := GetOr(data.fields, "web", JObject([]));
      if !web.JObject? then Failure(NoAttribute(web, "get"))
      else Iterate(GetOr(web.fields, "results", JArray([])))
  }

  /** The outcome of one HTTP attempt mapped to results, or the exception `search` lets out. */
  function Fetched(lib: Library, response: Result<Json, string>, queryTime: real): Result<seq<SearchResult>, string> {
    match response
    case Failure(e) => Failure(e)
    case Success(data) =>
      match WebItems(data)
      case Failure(e) => Failure(e)
      case Success(items) => Success(MapResults(lib, items, queryTime))
  }

  const PlaceholderTitle := "Test Result"
  const PlaceholderDescription := "This is a test web search result. Please provide a Brave API key to get real search results."

  /** The one placeholder result returned when no API key is configured, or the ValidationError of building it. */
  function Placeholder(lib: Library): (r: Result<seq<SearchResult>, string>)
    ensures r.Success? <==> lib.httpUrl(DefaultUrl).Some?
    ensures r.Success? ==> |r.value| == 1 && r.value[0].title == PlaceholderTitle
                           && r.value[0].description == PlaceholderDescription && r.value[0].queryTime == 0.0
  {
    match NewSearchResult(lib, JString(PlaceholderTitle), JString(DefaultUrl), JString(PlaceholderDescription), JFloat(0.0))
    case Some(p) => Success([p])
    case None => Failure("1 validation error for SearchResult")
  }
}
