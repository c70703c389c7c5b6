/**
 The time-boxed caches in front of the two optional catalogs
 (`fetchNvisionM3U` and `fetchBdixChannels`, src/server.js). Both share one
 shape: a stored value with an expiry instant. The clock and the catalog
 request are inputs; the cache is a value passed in and handed back.
 */
module Cache {
  import opened Wrappers
  import opened Js

  /** `{ text | data, expiresAt }`. The nvision cache holds the playlist text
      as a string value, the BDIX cache the parsed JSON. */
  datatype CacheState = CacheState(value: Value, expiresAt: int)

  /** Both caches start as `{ null, 0 }`. */
  const Initial: CacheState := CacheState(JNull, 0)

  /** The outcome the catalog request would have if it were made: it failed
      (threw, non-2xx, or the body could not be read or parsed) or yielded a value. */
  datatype SourceFetch = FetchFailed | Fetched(v: Value)

  /** One call of the fetch function: what it returned (or that it threw),
      the cache afterwards, and whether it made the request. */
  datatype Load = Load(result: Completion<Value>, cache: CacheState, requested: bool)

  /** The catalog URL setting is present when it is a non-empty string. */
  predicate Configured(source: Option<string>) {
    source.Some? && source.value != ""
  }

  /** The cached value may be served at `now`. */
  predicate Fresh(c: CacheState, now: int) {
    Truthy(c.value) && c.expiresAt > now
  }

  /** A fetch function called at `now` (milliseconds) with a cache lifetime of
      `ttlSeconds`; `fetch` is what the request yields if it is made. */
  function LoadCached(source: Option<string>, cache: CacheState, now: int, ttlSeconds: int,
                      fetch: SourceFetch): (l: Load)
    // a missing URL setting throws before the cache is looked at
    ensures !Configured(source) ==> l.result.Throw? && l.cache == cache && !l.requested
    // the request is made exactly when the stored value may not be served
    ensures Configured(source) ==> (l.requested <==> !Fresh(cache, now))
    // a served value is the stored one, and nothing changes
    ensures Configured(source) && !l.requested ==> l.result == Normal(cache.value) && l.cache == cache
    // a failed request throws and leaves the cache as it was
    ensures l.requested && fetch.FetchFailed? ==> l.result.Throw? && l.cache == cache
    // a successful request returns its value and stores it until now + TTL
    ensures l.requested && fetch.Fetched?
            ==> l.result == Normal(fetch.v) && l.cache == CacheState(fetch.v, now + ttlSeconds * 1000)
  {
    if !Configured(source) then Load(Throw, cache, false)
    else if Fresh(cache, now) then Load(Normal(cache.value), cache, false)
    else
      match fetch
      case FetchFailed => Load(Throw, cache, true)
      case Fetched(v) => Load(Normal(v), CacheState(v, now + ttlSeconds * 1000), true)
  }

  /** After a refresh that stored a truthy value with a positive lifetime,
      every later call before the expiry is served from the cache, whatever
      the source would now answer. */
  lemma RefreshedValueIsServedUntilExpiry(source: Option<string>, cache: CacheState, now: int,
                                          ttlSeconds: int, v: Value, later: int, fetch: SourceFetch)
    requires Configured(source) && !Fresh(cache, now)
    requires Truthy(v) && now <= later < now + ttlSeconds * 1000
    ensures var l := LoadCached(source, cache, now, ttlSeconds, Fetched(v));
            var l' := LoadCached(source, l.cache, later, ttlSeconds, fetch);
            !l'.requested && l'.result == Normal(v) && l'.cache == l.cache
  {
  }

  /** A falsy value (an empty playlist text, a JSON `null`, `0` or `false`)
      is stored but never served: the next call requests again. */
  lemma FalsyValueIsRequestedAgain(source: Option<string>, cache: CacheState, now: int,
                                   ttlSeconds: int, v: Value, later: int, fetch: SourceFetch)
    requires Configured(source) && !Fresh(cache, now) && !Truthy(v)
    ensures var l := LoadCached(source, cache, now, ttlSeconds, Fetched(v));
            LoadCached(source, l.cache, later, ttlSeconds, fetch).requested
  {
  }

  /** The starting cache is never served: the first call with a configured
      source makes the request. */
  lemma FirstCallRequests(source: Option<string>, now: int, ttlSeconds: int, fetch: SourceFetch)
    requires Configured(source)
    ensures LoadCached(source, Initial, now, ttlSeconds, fetch).requested
  {
  }

  /** Once the expiry instant is reached the source is requested again. */
  lemma ExpiredValueIsRequestedAgain(source: Option<string>, cache: CacheState, now: int,
                                     ttlSeconds: int, fetch: SourceFetch)
    requires Configured(source) && now >= cache.expiresAt
    ensures LoadCached(source, cache, now, ttlSeconds, fetch).requested
  {
  }
}
