/** The stock loader of `src/contexts/StockContext.tsx`: five state cells over
    the single-tier cache, and one load path shared by fetch, refresh and
    ensure. The load suspends at `await stockApi.getAllStocks()`; it is split
    into `BeginLoad` (everything before the await) and `FinishLoad` (the
    settled fetch and the `finally`), so that a second load issued while the
    first is suspended meets the `loading` guard. */
module StockContext {
  import opened JsRuntime
  import opened StockTypes
  import opened SimpleCaches

  const STOCKS_KEY: string := "stocks"
  const TIMESTAMP_KEY: string := "stocks_timestamp"

  /** The message stored when the thrown value is not an `Error`. */
  const FETCH_FAILED: string := "獲取股票資料失敗"

  /** How the part of a load before the await ends: it returned a list (a guard
      or a cache hit), or it is suspended waiting for the fetch. */
  datatype Step = Returned(stocks: seq<Stock>) | AwaitingFetch

  /** `timestamp ? new Date(timestamp) : null`, over a cache read of `'stocks_timestamp'`. */
  function StampOf(ts: Option<Value>): Option<int>
  {
    if ts.Some? && ts.value.Number? && Truthy(ts.value) then Some(ts.value.n) else None
  }

  /** The loader writes `'stocks'` as a list and `'stocks_timestamp'` as a number, and nothing else writes them. */
  ghost predicate WellShaped(m: map<string, Entry<Value>>)
  {
    && (STOCKS_KEY in m ==> m[STOCKS_KEY].data.StockList?)
    && (TIMESTAMP_KEY in m ==> m[TIMESTAMP_KEY].data.Number?)
  }

  /** The cache after a successful fetch at `now`: both keys written with the same `now`. */
  function Saved(m: map<string, Entry<Value>>, data: seq<Stock>, now: int): map<string, Entry<Value>>
  {
    m[STOCKS_KEY := Entry(StockList(data), now)][TIMESTAMP_KEY := Entry(Number(now), now)]
  }

  /** `StockProvider`'s state. `lastUpdated` is kept as the millisecond count the `Date` wraps. */
  class StockProvider {
    var stocks: seq<Stock>
    var loading: bool
    var error: Option<string>
    var lastUpdated: Option<int>
    var isFromCache: bool
    const cache: SimpleCache<Value>

    ghost predicate Valid()
      reads this, cache
    {
      WellShaped(cache.cache)
    }

    constructor (cache: SimpleCache<Value>)
      requires WellShaped(cache.cache)
      ensures Valid() && this.cache == cache
      ensures stocks == [] && !loading && error == None && lastUpdated == None && !isFromCache
    {
      stocks := [];
      loading := false;
      error := None;
      lastUpdated := None;
      isFromCache := false;
      this.cache := cache;
    }

    /** `loadStocks` up to the await. The two guards return the current list
        and change nothing. Past them, `error` is cleared; without `skipCache`
        a hit on `'stocks'` is adopted (with `lastUpdated` from
        `'stocks_timestamp'`, or none) and the load ends there; otherwise the
        load stays `loading` and awaits the fetch. */
    method BeginLoad(skipCache: bool, onlyIfEmpty: bool, now: int) returns (r: Step)
      requires Valid()
      modifies this, cache
      ensures Valid()
      ensures old((onlyIfEmpty && |stocks| > 0) || loading) ==>
        && r == Returned(old(stocks))
        && stocks == old(stocks) && loading == old(loading) && error == old(error)
        && lastUpdated == old(lastUpdated) && isFromCache == old(isFromCache)
        && cache.cache == old(cache.cache)
      ensures !old((onlyIfEmpty && |stocks| > 0) || loading) ==> error == None
      ensures !old((onlyIfEmpty && |stocks| > 0) || loading) && skipCache ==>
        && r == AwaitingFetch && loading
        && stocks == old(stocks) && lastUpdated == old(lastUpdated) && isFromCache == old(isFromCache)
        && cache.cache == old(cache.cache)
      ensures !old((onlyIfEmpty && |stocks| > 0) || loading) && !skipCache ==>
        var hit := Lookup(old(cache.cache), STOCKS_KEY, now);
        if hit.Some? then
          && r == Returned(hit.value.stocks) && !loading
          && stocks == hit.value.stocks && isFromCache
          && lastUpdated == StampOf(Lookup(Pruned(old(cache.cache), STOCKS_KEY, now), TIMESTAMP_KEY, now))
          && cache.cache == Pruned(Pruned(old(cache.cache), STOCKS_KEY, now), TIMESTAMP_KEY, now)
        else
          && r == AwaitingFetch && loading
          && stocks == old(stocks) && lastUpdated == old(lastUpdated) && isFromCache == old(isFromCache)
          && cache.cache == Pruned(old(cache.cache), STOCKS_KEY, now)
    {
      if onlyIfEmpty && |stocks| > 0 {
        return Returned(stocks);
      }
      if loading {
        return Returned(stocks);
      }
      loading := true;
      error := None;
      if !skipCache {
        var cachedData := cache.Get(STOCKS_KEY, now);
        if cachedData.Some? {
          stocks := cachedData.value.stocks;
          var timestamp := cache.Get(TIMESTAMP_KEY, now);
          lastUpdated := StampOf(timestamp);
          isFromCache := true;
          loading := false;
          return Returned(cachedData.value.stocks);
        }
      }
      return AwaitingFetch;
    }

    /** `loadStocks` after the await. A list is adopted and written to both
        cache keys with one `now`; a thrown value leaves the list, `lastUpdated`
        and `isFromCache` as they were, stores its message and is rethrown.
        Either way `loading` ends false. */
    method FinishLoad(outcome: Result<seq<Stock>, Thrown>, now: int) returns (r: Result<seq<Stock>, Thrown>)
      requires Valid() && loading
      modifies this, cache
      ensures Valid() && !loading && r == outcome
      ensures outcome.Ok? ==>
        && stocks == outcome.value && lastUpdated == Some(now) && !isFromCache
        && error == old(error)
        && cache.cache == Saved(old(cache.cache), outcome.value, now)
      ensures outcome.Err? ==>
        && error == Some(MessageOr(outcome.error, FETCH_FAILED))
        && stocks == old(stocks) && lastUpdated == old(lastUpdated) && isFromCache == old(isFromCache)
        && cache.cache == old(cache.cache)
    {
      match outcome
      case Ok(data) =>
        stocks := data;
        cache.Set(STOCKS_KEY, StockList(data), now);
        cache.Set(TIMESTAMP_KEY, Number(now), now);
        lastUpdated := Some(now);
        isFromCache := false;
        loading := false;
        return Ok(data);
      case Err(t) =>
        error := Some(MessageOr(t, FETCH_FAILED));
        loading := false;
        return Err(t);
    }

    /** `fetchStocks`: a load that may use the cache. While a load is in
        flight nothing changes; otherwise a hit on `'stocks'` is adopted with
        its timestamp, and a miss leaves the list, `lastUpdated` and
        `isFromCache` alone and awaits the fetch. */
    method FetchStocks(now: int) returns (r: Step)
      requires Valid()
      modifies this, cache
      ensures Valid()
      ensures old(loading) ==>
        && r == Returned(old(stocks))
        && stocks == old(stocks) && loading && error == old(error)
        && lastUpdated == old(lastUpdated) && isFromCache == old(isFromCache)
        && cache.cache == old(cache.cache)
      ensures !old(loading) ==>
        var hit := Lookup(old(cache.cache), STOCKS_KEY, now);
        && error == None
        && if hit.Some? then
          && r == Returned(hit.value.stocks) && !loading
          && stocks == hit.value.stocks && isFromCache
          && lastUpdated == StampOf(Lookup(Pruned(old(cache.cache), STOCKS_KEY, now), TIMESTAMP_KEY, now))
          && cache.cache == Pruned(Pruned(old(cache.cache), STOCKS_KEY, now), TIMESTAMP_KEY, now)
        else
          && r == AwaitingFetch && loading
          && stocks == old(stocks) && lastUpdated == old(lastUpdated) && isFromCache == old(isFromCache)
          && cache.cache == Pruned(old(cache.cache), STOCKS_KEY, now)
    {
      r := BeginLoad(false, false, now);
    }

    /** `refreshStocks`: both cache keys are deleted first, then a load that bypasses the cache. */
    method RefreshStocks(now: int) returns (r: Step)
      requires Valid()
      modifies this, cache
      ensures Valid()
      ensures cache.cache == old(cache.cache) - {STOCKS_KEY, TIMESTAMP_KEY}
      ensures old(loading) ==> r == Returned(old(stocks)) && loading && error == old(error)
      ensures !old(loading) ==> r == AwaitingFetch && loading && error == None
      ensures stocks == old(stocks) && lastUpdated == old(lastUpdated) && isFromCache == old(isFromCache)
    {
      cache.Delete(STOCKS_KEY);
      cache.Delete(TIMESTAMP_KEY);
      r := BeginLoad(true, false, now);
    }

    /** `ensureStocksLoaded`: a non-empty list is kept with no state or cache
        change; an empty one is loaded as `fetchStocks` loads it. */
    method EnsureStocksLoaded(now: int) returns (r: Step)
      requires Valid()
      modifies this, cache
      ensures Valid()
      ensures |old(stocks)| > 0 || old(loading) ==>
        && r == Returned(old(stocks)) && cache.cache == old(cache.cache)
        && stocks == old(stocks) && loading == old(loading) && error == old(error)
        && lastUpdated == old(lastUpdated) && isFromCache == old(isFromCache)
      ensures |old(stocks)| == 0 && !old(loading) ==>
        var hit := Lookup(old(cache.cache), STOCKS_KEY, now);
        && error == None
        && if hit.Some? then
          && r == Returned(hit.value.stocks) && !loading
          && stocks == hit.value.stocks && isFromCache
          && lastUpdated == StampOf(Lookup(Pruned(old(cache.cache), STOCKS_KEY, now), TIMESTAMP_KEY, now))
          && cache.cache == Pruned(Pruned(old(cache.cache), STOCKS_KEY, now), TIMESTAMP_KEY, now)
        else
          && r == AwaitingFetch && loading
          && stocks == old(stocks) && lastUpdated == old(lastUpdated) && isFromCache == old(isFromCache)
          && cache.cache == Pruned(old(cache.cache), STOCKS_KEY, now)
    {
      r := BeginLoad(false, true, now);
    }

    method ClearError()
      modifies this
      ensures error == None
      ensures stocks == old(stocks) && loading == old(loading)
      ensures lastUpdated == old(lastUpdated) && isFromCache == old(isFromCache)
    {
      error := None;
    }
  }

  // ================================================================ properties

  /** What a successful fetch writes is what the next cache-first load finds:
      within the five-minute ttl both keys read back, and the list is adopted
      with `lastUpdated` equal to the fetch time (when that time is not 0). */
  lemma SavedThenHit(m: map<string, Entry<Value>>, data: seq<Stock>, t: int, t': int)
    requires t' - t <= TTL
    ensures WellShaped(Saved(m, data, t))
    ensures Lookup(Saved(m, data, t), STOCKS_KEY, t') == Some(StockList(data))
    ensures StampOf(Lookup(Pruned(Saved(m, data, t), STOCKS_KEY, t'), TIMESTAMP_KEY, t')) ==
      if t != 0 then Some(t) else None
  {
    assert STOCKS_KEY != TIMESTAMP_KEY;
  }

  /** After the five-minute ttl the saved list is gone: the next cache-first load fetches again. */
  lemma SavedThenExpired(m: map<string, Entry<Value>>, data: seq<Stock>, t: int, t': int)
    requires t' - t > TTL
    ensures Lookup(Saved(m, data, t), STOCKS_KEY, t') == None
  {
    assert STOCKS_KEY != TIMESTAMP_KEY;
  }

  /** A read of a well-shaped cache keeps it well shaped, and a hit on `'stocks'` is a list. */
  lemma ReadKeepsShape(m: map<string, Entry<Value>>, key: string, now: int)
    requires WellShaped(m)
    ensures WellShaped(Pruned(m, key, now))
    ensures Lookup(m, STOCKS_KEY, now).Some? ==> Lookup(m, STOCKS_KEY, now).value.StockList?
  {
  }
}
