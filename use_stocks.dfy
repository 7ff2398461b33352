/** The hooks of `src/hooks/useStocks.ts` over the request state and the
    two-tier cache: the uncapped, order-preserving `useStockFilter`, the
    cache policy of `fetchStocks`/`refreshStocks` (the only callers of the
    cache manager's list keys), and `useStock`'s lookup by exact code. Each
    request runs through `makeRequest` with nothing else dispatched while it
    awaits; the full stock list the API would deliver is a parameter. */
module UseStocks {
  import opened JsRuntime
  import opened StockTypes
  import opened Cache
  import opened ApiContext
  import opened OptimizedSearch

  /** `useStocks`'s request key. */
  const STOCKS_API_KEY: string := "stocks"

  /** `${CACHE_KEYS.ALL_STOCKS}_timestamp` */
  const TIMESTAMP_KEY: string := ALL_STOCKS + "_timestamp"

  /** `useStock`'s request key, `stock_${code}`. */
  function StockRequestKey(code: string): string
  {
    "stock_" + code
  }

  /** The message `useStock` throws when no stock carries the code. */
  function NotFoundMessage(code: string): string
  {
    "找不到股票代號 " + code
  }

  // ---------------------------------------------------------------- useStockFilter

  /** The test applied for the trimmed, lower-cased query `q`: the lower-cased
      code or name contains it. */
  function Matches(q: string): Stock -> bool
  {
    (s: Stock) => Includes(Lower(s.code), q) || Includes(Lower(s.name), q)
  }

  /** `useStockFilter(stocks, initialQuery).filteredStocks` */
  function StockFilter(stocks: seq<Stock>, initialQuery: string): seq<Stock>
  {
    if IsBlank(initialQuery) then stocks else Filter(stocks, Matches(Trim(Lower(initialQuery))))
  }

  /** What `useStockFilter` returns: the filtered list and the query it reports. */
  datatype FilterHook = FilterHook(filteredStocks: seq<Stock>, searchQuery: string)

  function UseStockFilter(stocks: seq<Stock>, initialQuery: string): FilterHook
  {
    FilterHook(StockFilter(stocks, initialQuery), initialQuery)
  }

  /** `setSearchQuery(newQuery)` only logs: the hook's result stays what it was. */
  function SetSearchQuery(h: FilterHook, newQuery: string): FilterHook
  {
    h
  }

  /** A blank query keeps the whole list here, where `filterStocks` returns nothing. */
  lemma BlankQueryRulesDiffer(t: Memo, stocks: seq<Stock>, query: string)
    requires IsBlank(query)
    ensures StockFilter(stocks, query) == stocks
    ensures Searched(t, stocks, query) == []
  {
  }

  /** A non-blank query keeps exactly the stocks whose lower-cased code or
      name contains the trimmed, lower-cased query, each at most as often as
      it occurs in the input. */
  lemma StockFilterMembership(stocks: seq<Stock>, query: string)
    requires !IsBlank(query)
    ensures forall s :: s in StockFilter(stocks, query) <==>
      s in stocks && (Includes(Lower(s.code), Trim(Lower(query))) || Includes(Lower(s.name), Trim(Lower(query))))
    ensures multiset(StockFilter(stocks, query)) <= multiset(stocks)
  {
    FilterSubMultiset(stocks, Matches(Trim(Lower(query))));
  }

  /** The input order is kept: filtering two halves and concatenating is filtering the whole. */
  lemma StockFilterKeepsOrder(a: seq<Stock>, b: seq<Stock>, query: string)
    ensures StockFilter(a + b, query) == StockFilter(a, query) + StockFilter(b, query)
  {
    if !IsBlank(query) {
      FilterAppend(a, b, Matches(Trim(Lower(query))));
    }
  }

  /** There is no cap: when every stock matches, all of them come back. */
  lemma StockFilterUncapped(stocks: seq<Stock>, query: string)
    requires forall s | s in stocks :: Matches(Trim(Lower(query)))(s)
    ensures StockFilter(stocks, query) == stocks
  {
    FilterKeepsAll(stocks, Matches(Trim(Lower(query))));
  }

  /** For a query without surrounding blanks, this filter and the ranked scan
      test the same thing, so their results hold the same stocks whenever
      fewer than 100 match; with more, only the scan stops at 100. */
  lemma {:induction false} SameStocksAsRanked(stocks: seq<Stock>, query: string)
    requires !IsBlank(query) && Trim(Lower(query)) == Lower(query)
    ensures StockFilter(stocks, query) == Filter(stocks, MatchFor(Lower(query)))
    ensures |Filter(stocks, MatchFor(Lower(query)))| < MAX_RESULTS ==>
      multiset(Ranked(stocks, Lower(query))) == multiset(StockFilter(stocks, query))
    ensures |StockFilter(stocks, query)| > MAX_RESULTS ==>
      |Ranked(stocks, Lower(query))| < |StockFilter(stocks, query)|
  {
    var q := Lower(query);
    forall s | s in stocks ensures Matches(q)(s) == MatchFor(q)(s) {
      MatchIsSubstring(s, q);
    }
    FilterSame(stocks, Matches(q), MatchFor(q));
    if |Filter(stocks, MatchFor(q))| < MAX_RESULTS {
      RankedComplete(stocks, q);
    }
    RankedSize(stocks, q);
  }

  /** The hook reports `initialQuery` as its query, and `setSearchQuery` changes neither the query nor the results. */
  lemma SearchQueryEchoes(stocks: seq<Stock>, initialQuery: string, newQuery: string)
    ensures UseStockFilter(stocks, initialQuery).searchQuery == initialQuery
    ensures SetSearchQuery(UseStockFilter(stocks, initialQuery), newQuery) == UseStockFilter(stocks, initialQuery)
  {
  }

  // ---------------------------------------------------------------- the request functions

  /** What `fetchStocks`'s request function settles with: a truthy cached list,
      else the fetched list, else the fetch's rejection. */
  function Served(hit: Option<Value>, fetched: Result<seq<Stock>, Thrown>): Result<Value, Thrown>
  {
    if hit.Some? && Truthy(hit.value) then Ok(hit.value)
    else if fetched.Ok? then Ok(StockList(fetched.value))
    else Err(fetched.error)
  }

  /** The tiers after a fetched list is stored: the list under `all_stocks`,
      then the time under `all_stocks_timestamp`, both with the default ttl. */
  function FetchWritten(c: Tiers<Value>, data: seq<Stock>, now: int): (r: Tiers<Value>)
    requires c.memory.Valid()
    ensures r.memory.Valid() && r.available == c.available
  {
    AfterWrite(AfterWrite(c, ALL_STOCKS, StockList(data), None, now), TIMESTAMP_KEY, Number(now), None, now)
  }

  /** `allStocks.find(stock => stock.Code === code)` */
  function FindByCode(stocks: seq<Stock>, code: string): (r: Option<Stock>)
    ensures r.Some? ==> r.value in stocks && r.value.code == code
    ensures r.None? <==> forall s | s in stocks :: s.code != code
  {
    if stocks == [] then None
    else if stocks[0].code == code then Some(stocks[0])
    else FindByCode(stocks[1..], code)
  }

  /** What `useStock`'s request function settles with: a truthy cached entry,
      else the first stock of the full list with exactly that code, else a
      rejection (the fetch's own, or the not-found error). */
  function Looked(hit: Option<Value>, all: Result<seq<Stock>, Thrown>, code: string): Result<Value, Thrown>
  {
    if hit.Some? && Truthy(hit.value) then Ok(hit.value)
    else if all.Err? then Err(all.error)
    else match FindByCode(all.value, code)
      case Some(s) => Ok(Quote(s))
      case None => Err(ErrorObject(NotFoundMessage(code)))
  }

  /** `useStocks().stocks`: `getData('stocks') || []`. */
  function StocksOf(s: ApiState): seq<Stock>
  {
    var d := GetData(s, STOCKS_API_KEY);
    if d.Some? && d.value.StockList? then d.value.stocks else []
  }

  // ---------------------------------------------------------------- the hooks' operations

  /** The request state and the cache manager that the hooks share. */
  class StockHooks {
    const api: ApiProvider
    const cache: CacheManager<Value>

    ghost predicate Valid()
      reads this, cache, cache.memory
    {
      cache.Valid()
    }

    constructor (api: ApiProvider, cache: CacheManager<Value>)
      requires cache.Valid()
      ensures Valid() && this.api == api && this.cache == cache
    {
      this.api := api;
      this.cache := cache;
    }

    /** `useStocks().fetchStocks(skipCache)`: without `skipCache` a truthy
        `all_stocks` entry is served and the API is not contacted; otherwise the
        fetched list is stored under both keys. A rejection is recorded by
        `makeRequest` and then swallowed. `contacted` says whether the API was asked. */
    method FetchStocks(skipCache: bool, now: int, fetched: Result<seq<Stock>, Thrown>) returns (contacted: bool)
      requires Valid()
      modifies api, cache.memory, cache.persistent
      ensures Valid()
      ensures var hit := if skipCache then None else Read(old(cache.State()), ALL_STOCKS, now);
        && contacted == !(hit.Some? && Truthy(hit.value))
        && api.state == ReduceAll(old(api.state), BeginActions(STOCKS_API_KEY, false)
                                                  + EndActions(STOCKS_API_KEY, false, Served(hit, fetched)))
      ensures var after := if skipCache then old(cache.State()) else AfterRead(old(cache.State()), ALL_STOCKS, now);
        cache.State() == if contacted && fetched.Ok? then FetchWritten(after, fetched.value, now) else after
    {
      ghost var s0 := api.state;
      api.BeginRequest(STOCKS_API_KEY, false, skipCache);
      var hit: Option<Value> := None;
      if !skipCache {
        hit := cache.Get(ALL_STOCKS, now);
      }
      var outcome: Result<Value, Thrown>;
      if hit.Some? && Truthy(hit.value) {
        contacted := false;
        outcome := Ok(hit.value);
      } else {
        contacted := true;
        if fetched.Ok? {
          cache.Set(ALL_STOCKS, StockList(fetched.value), None, now);
          cache.Set(TIMESTAMP_KEY, Number(now), None, now);
          outcome := Ok(StockList(fetched.value));
        } else {
          outcome := Err(fetched.error);
        }
      }
      var settled := api.EndRequest(STOCKS_API_KEY, false, outcome);
      ReduceAllAppend(s0, BeginActions(STOCKS_API_KEY, false), EndActions(STOCKS_API_KEY, false, outcome));
    }

    /** `useStocks().refreshStocks()`: deletes `all_stocks` (the timestamp key
        stays) and fetches bypassing the cache. */
    method RefreshStocks(now: int, fetched: Result<seq<Stock>, Thrown>) returns (contacted: bool)
      requires Valid()
      modifies api, cache.memory, cache.persistent
      ensures Valid() && contacted
      ensures api.state == ReduceAll(old(api.state), BeginActions(STOCKS_API_KEY, false)
                                                     + EndActions(STOCKS_API_KEY, false, Served(None, fetched)))
      ensures cache.State() == if fetched.Ok? then FetchWritten(AfterDelete(old(cache.State()), ALL_STOCKS), fetched.value, now)
                               else AfterDelete(old(cache.State()), ALL_STOCKS)
    {
      var deleted := cache.Delete(ALL_STOCKS);
      contacted := FetchStocks(true, now, fetched);
    }

    /** `useStock(code).refetch()`: a blank code issues no request. Otherwise
        a truthy cached `stock_<code>` entry is served without contacting the
        API; else the stock with exactly that code is taken from the full list
        and cached, or the request fails with the not-found message. */
    method FetchStock(code: string, now: int, all: Result<seq<Stock>, Thrown>) returns (issued: bool, contacted: bool)
      requires Valid()
      modifies api, cache.memory, cache.persistent
      ensures Valid()
      ensures issued == !IsBlank(code)
      ensures !issued ==> !contacted && api.state == old(api.state) && cache.State() == old(cache.State())
      ensures issued ==>
        var hit := Read(old(cache.State()), StockByCodeKey(code), now);
        var after := AfterRead(old(cache.State()), StockByCodeKey(code), now);
        && contacted == !(hit.Some? && Truthy(hit.value))
        && api.state == ReduceAll(old(api.state), BeginActions(StockRequestKey(code), false)
                                                  + EndActions(StockRequestKey(code), false, Looked(hit, all, code)))
        && cache.State() == if contacted && Looked(hit, all, code).Ok?
                            then AfterWrite(after, StockByCodeKey(code), Looked(hit, all, code).value, None, now)
                            else after
    {
      if IsBlank(code) {
        return false, false;
      }
      issued := true;
      ghost var s0 := api.state;
      api.BeginRequest(StockRequestKey(code), false, false);
      var hit := cache.Get(StockByCodeKey(code), now);
      var outcome: Result<Value, Thrown>;
      if hit.Some? && Truthy(hit.value) {
        contacted := false;
        outcome := Ok(hit.value);
      } else {
        contacted := true;
        if all.Err? {
          outcome := Err(all.error);
        } else {
          var found := FindByCode(all.value, code);
          if found.None? {
            outcome := Err(ErrorObject(NotFoundMessage(code)));
          } else {
            cache.Set(StockByCodeKey(code), Quote(found.value), None, now);
            outcome := Ok(Quote(found.value));
          }
        }
      }
      var settled := api.EndRequest(StockRequestKey(code), false, outcome);
      ReduceAllAppend(s0, BeginActions(StockRequestKey(code), false), EndActions(StockRequestKey(code), false, outcome));
    }
  }

  // ---------------------------------------------------------------- properties

  /** The lookup takes the first stock carrying exactly the code. */
  lemma {:induction false} FindByCodeIsFirst(stocks: seq<Stock>, code: string, i: nat)
    requires i < |stocks| && stocks[i].code == code
    requires forall j | 0 <= j < i :: stocks[j].code != code
    ensures FindByCode(stocks, code) == Some(stocks[i])
    decreases i
  {
    if i > 0 {
      FindByCodeIsFirst(stocks[1..], code, i - 1);
    }
  }

  /** On a cache miss and a delivered list, the request succeeds exactly when
      some stock carries the code, with a stock carrying it; otherwise the
      error `makeRequest` records carries the not-found message. */
  lemma LookupOutcome(all: seq<Stock>, code: string)
    ensures Looked(None, Ok(all), code).Ok? <==> exists s | s in all :: s.code == code
    ensures Looked(None, Ok(all), code).Ok? ==>
      Looked(None, Ok(all), code).value.Quote? && Looked(None, Ok(all), code).value.stock in all
      && Looked(None, Ok(all), code).value.stock.code == code
    ensures Looked(None, Ok(all), code).Err? ==>
      RequestError(Looked(None, Ok(all), code).error).message == NotFoundMessage(code)
  {
  }

  /** What `useStocks` shows after a fetch: on success the served list, not
      loading and no error; on failure the earlier list and the recorded error. */
  lemma FetchShowsStocks(s: ApiState, hit: Option<Value>, fetched: Result<seq<Stock>, Thrown>)
    requires hit.Some? ==> hit.value.StockList?
    ensures var t := ReduceAll(s, BeginActions(STOCKS_API_KEY, false) + EndActions(STOCKS_API_KEY, false, Served(hit, fetched)));
      && !IsLoading(t, STOCKS_API_KEY)
      && (Served(hit, fetched).Ok? ==> StocksOf(t) == Served(hit, fetched).value.stocks && GetError(t, STOCKS_API_KEY) == None)
      && (Served(hit, fetched).Err? ==> StocksOf(t) == StocksOf(s) && GetError(t, STOCKS_API_KEY) == Some(RequestError(fetched.error)))
  {
    MakeRequestOutcome(s, STOCKS_API_KEY, false, Served(hit, fetched));
  }

  /** A stored list is what the next cache-first fetch serves: within the
      default ttl, with storage available, reading `all_stocks` returns it;
      without storage the read returns it or misses, never anything else. */
  lemma {:induction false} SavedThenServed(c: Tiers<Value>, data: seq<Stock>, t: int, t': int)
    requires c.memory.Valid() && t' - t <= STOCK_DATA_TTL
    ensures c.available ==> Read(FetchWritten(c, data, t), ALL_STOCKS, t') == Some(StockList(data))
    ensures Read(FetchWritten(c, data, t), ALL_STOCKS, t') in {None, Some(StockList(data))}
  {
    var c1 := AfterWrite(c, ALL_STOCKS, StockList(data), None, t);
    ManagerRoundTrip(c, ALL_STOCKS, StockList(data), None, t, t');
    PersistentRoundTrip(c.available, c.storage, ALL_STOCKS, StockList(data), STOCK_DATA_TTL, t, t');
    assert ALL_STOCKS != TIMESTAMP_KEY by {
      assert |ALL_STOCKS| != |TIMESTAMP_KEY|;
    }
    WriteKeepsOthers(c1, TIMESTAMP_KEY, Number(t), None, t, ALL_STOCKS, t');
  }

  /** `refreshStocks` deletes the list and leaves the timestamp: right after
      the delete `all_stocks` misses while `all_stocks_timestamp` reads as before. */
  lemma RefreshKeepsTimestamp(c: Tiers<Value>, now: int)
    requires c.memory.Valid()
    ensures Read(AfterDelete(c, ALL_STOCKS), ALL_STOCKS, now) == None
    ensures Read(AfterDelete(c, ALL_STOCKS), TIMESTAMP_KEY, now) == Read(c, TIMESTAMP_KEY, now)
  {
    assert ALL_STOCKS != TIMESTAMP_KEY by {
      assert |ALL_STOCKS| != |TIMESTAMP_KEY|;
    }
    assert StorageKey(ALL_STOCKS) != StorageKey(TIMESTAMP_KEY) by {
      assert |StorageKey(ALL_STOCKS)| != |StorageKey(TIMESTAMP_KEY)|;
    }
  }
}
