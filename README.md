# Taiwan stock page: caches, loaders, search and request state in Dafny

This project models the data core of a small React page that lists the day's
Taiwan Stock Exchange quotes:

- `Cache`: the two-tier TTL cache. The memory tier is an insertion-ordered
  `Map` with lazy expiry and oldest-first eviction at 100 entries. The
  persistent tier is a prefixed key-value store that may be unavailable and
  may hold unparsable slots. The `CacheManager` reads memory first and writes
  both tiers.
- `SimpleCaches`: the single-tier five-minute cache the stock loader uses.
- `StockContext`: the stock loader (`loadStocks` and the functions built on
  it). The load is split at its one `await`, so that a second load issued
  while the first is suspended meets the `loading` guard.
- `Api`: `fetchWithRetry`'s retry and error classification. Also the proxy
  loop of `getAllStocks`, the two substring searches and
  `createInitialApiState`.
- `OptimizedSearch`: the ranked, capped scan of `filterStocks`, its
  module-level memo table, and the `useOptimizedSearch` hook's state and
  deferred search.
- `ApiContext`: the per-key request reducer, its getters, and `makeRequest`'s
  sequence of dispatches.
- `UseStocks`: `useStockFilter`, the cache policy of `fetchStocks` and
  `refreshStocks`, and `useStock`'s lookup by code.

`JsRuntime`, `StockTypes` and `OrderedMaps` hold the JavaScript built-ins these
need: `Option`/`Result`, thrown values, `toLowerCase`, `trim`, `includes`,
`Array.prototype.filter`, the `Stock` record and the `Map` key order.

Several things outside the program become parameters:

- The clock (`Date.now()`) is a `now` argument, read once per operation.
- `navigator.onLine` is a boolean.
- The network is an oracle. For each requested URL and request number it gives the
  response or failure that request would meet.
- The stock list the API would deliver is the `fetched`/`all` argument of the
  hooks.

Methods are specified against pure functions of the old state (`Stored`,
`Read`, `Searched`, `ReduceAll`, …), and the properties the code promises are
lemmas about those functions.

The code reads the code and name fields as `code`/`name` in the search hook
and as `Code`/`Name` in `useStocks.ts` and `api.ts`. Here both are the
`code`/`name` fields of `Stock`.

## Model

| member | source | states |
|---|---|---|
| Cache.Evict | src/lib/cache.ts:24-29 | the eviction step keeps the table well formed (each key once, oldest first) |
| Cache.Stored | src/lib/cache.ts:22-36 | the table after `set` is well formed |
| Cache.Expire | src/lib/cache.ts:46-49 | the table after an expired `get` is well formed |
| Cache.Sweep | src/lib/cache.ts:67-74 | the table after `cleanup` is well formed |
| Cache.MemoryCache.constructor | src/lib/cache.ts:20 | starts empty |
| Cache.MemoryCache.Set | src/lib/cache.ts:22-36 | the new table is `Stored(old, key, data, ttl, now)`: evict the oldest truthy key at capacity, then insert or overwrite in place |
| Cache.MemoryCache.Get | src/lib/cache.ts:38-52 | returns the data while `now - timestamp <= ttl`; an expired entry is deleted and reads as null |
| Cache.MemoryCache.Has | src/lib/cache.ts:54-56 | true exactly when `get` returns data, with the same expiry side effect |
| Cache.MemoryCache.Delete | src/lib/cache.ts:58-60 | removes the key and reports whether it was present |
| Cache.MemoryCache.Clear | src/lib/cache.ts:62-64 | empties the table |
| Cache.MemoryCache.Cleanup | src/lib/cache.ts:67-74 | the loop over the entries leaves exactly `Sweep(old, now)`: the unexpired entries in their order |
| Cache.PersistentCache.constructor | src/lib/cache.ts:79-88 | records the store and whether it is available |
| Cache.PersistentCache.Set | src/lib/cache.ts:90-109 | writes the item under the prefixed key when available; otherwise changes nothing |
| Cache.PersistentCache.Get | src/lib/cache.ts:111-136 | returns `Loaded(...)`; a stale (expired or unparsable) slot is removed, an empty one is a miss and stays, and the probe key is gone |
| Cache.PersistentCache.Has | src/lib/cache.ts:138-140 | true exactly when `get` returns data, with the same side effect |
| Cache.PersistentCache.Delete | src/lib/cache.ts:142-153 | removes the prefixed key (and the probe key) and reports true when available; false and no change otherwise |
| Cache.PersistentCache.Clear | src/lib/cache.ts:155-169 | the loop removes every prefixed key and keeps every other key (`Cleared`) |
| Cache.PersistentCache.Cleanup | src/lib/cache.ts:172-200 | the loop removes exactly the stale prefixed slots (`Purged`) |
| Cache.AfterRead | src/lib/cache.ts:213-231 | the tiers after the manager's `get` stay well formed and keep their availability |
| Cache.AfterWrite | src/lib/cache.ts:208-211 | the tiers after the manager's `set` stay well formed and keep their availability |
| Cache.AfterDelete | src/lib/cache.ts:237-241 | the tiers after the manager's `delete` stay well formed and keep their availability |
| Cache.CacheManager.constructor | src/lib/cache.ts:204-206 | an empty memory tier over the given store |
| Cache.CacheManager.Set | src/lib/cache.ts:208-211 | writes through both tiers with the same ttl (`AfterWrite`) |
| Cache.CacheManager.Get | src/lib/cache.ts:213-231 | a memory hit is returned without touching storage; on a miss a stored hit is returned and copied back into memory with the default ttl (`Read`, `AfterRead`) |
| Cache.CacheManager.Has | src/lib/cache.ts:233-235 | memory first; storage is asked only on a memory miss and is not copied back |
| Cache.CacheManager.Delete | src/lib/cache.ts:237-241 | deletes from both tiers; true if either tier did |
| Cache.CacheManager.Clear | src/lib/cache.ts:243-246 | empties memory and clears the prefixed keys |
| Cache.CacheManager.Cleanup | src/lib/cache.ts:248-251 | sweeps memory and purges storage |
| Cache.MemoryRoundTrip | src/lib/cache.ts:22-51 | after `set`, `get` returns the data exactly when `now - t <= ttl` (the boundary is a hit) |
| Cache.ExpireOnlyThatKey | src/lib/cache.ts:46-56 | an expired read deletes only its own key: every other key reads as before and the order is kept |
| Cache.StoredBounded | src/lib/cache.ts:24-35 | `set` never grows the tier past 100 unless the oldest key is `""` and the key is new |
| Cache.EmptyOldestKeyOverflows | src/lib/cache.ts:25-27 | an empty-string oldest key at capacity is never evicted, so a new key makes 101 entries |
| Cache.OverwriteKeepsPlace | src/lib/cache.ts:31-35 | below capacity an overwrite keeps the key order and refreshes timestamp and ttl |
| Cache.OverwriteAtCapacityEvicts | src/lib/cache.ts:24-35 | at capacity even an overwrite evicts the oldest key first |
| Cache.SweepRemovesExactlyExpired | src/lib/cache.ts:67-74 | `cleanup` keeps exactly the unexpired keys and changes no read at `now` |
| Cache.StorageKeyPrefixed | src/lib/cache.ts:103 | every storage key the cache writes starts with `stock_app_cache_` |
| Cache.PersistentRoundTrip | src/lib/cache.ts:90-130 | a stored entry is served exactly within its ttl when available, never otherwise |
| Cache.Unavailable | src/lib/cache.ts:90-200 | without storage, `set`, `get`, `clear` and `cleanup` change nothing, and `get` misses |
| Cache.ClearedForgetsCache | src/lib/cache.ts:155-169 | `clear` removes every key the cache wrote and keeps every foreign key except the probe key `__localStorage_test__`, which is gone |
| Cache.PurgedKeepsForeignKeys | src/lib/cache.ts:172-200 | `cleanup` keeps foreign keys other than the probe key, keeps exactly the non-stale prefixed slots, and changes no read at `now` |
| Cache.WriteKeepsOthers | src/lib/cache.ts:208-211 | a manager write to one key leaves another key's stored read unchanged; its memory read is unchanged or, after an eviction, a miss |
| Cache.ProbeKeyIsForeign | src/lib/cache.ts:79-88 | the probe key is not a cache key, so no cache key is ever lost to the probe |
| Cache.BlankSlotKept | src/lib/cache.ts:117-120 | an empty slot reads as a miss and survives both `get` and `cleanup` (lines 185-186) |
| Cache.StoredHitCopiedBack | src/lib/cache.ts:219-227 | on a memory miss a stored hit is returned and copied into memory with the default ttl, so for five minutes the next `get` is a memory hit with the same data that changes nothing |
| Cache.ManagerRoundTrip | src/lib/cache.ts:208-231 | manager `set` then `get` within the ttl returns the data from memory and changes neither tier |
| SimpleCaches.SimpleCache.constructor | src/lib/simpleCache.ts:8 | starts empty |
| SimpleCaches.SimpleCache.Set | src/lib/simpleCache.ts:11-16 | stores the data stamped with `now`, replacing any entry |
| SimpleCaches.SimpleCache.Get | src/lib/simpleCache.ts:18-29 | returns the data while `now - timestamp <= 5 min`; an expired entry is deleted |
| SimpleCaches.SimpleCache.Has | src/lib/simpleCache.ts:31-33 | true exactly when `get` returns data, with its side effect |
| SimpleCaches.SimpleCache.Delete | src/lib/simpleCache.ts:35-37 | removes the key |
| SimpleCaches.SimpleCache.Clear | src/lib/simpleCache.ts:39-41 | empties the cache |
| SimpleCaches.SetThenGet | src/lib/simpleCache.ts:11-29 | after `set`, `get` hits exactly within five minutes, the boundary included |
| SimpleCaches.MissingKey | src/lib/simpleCache.ts:19-20 | a missing key reads as null and its read changes nothing |
| SimpleCaches.GetTouchesOnlyItsKey | src/lib/simpleCache.ts:18-29 | a read deletes at most its own key, only when it misses; other keys read as before |
| SimpleCaches.SetTouchesOnlyItsKey | src/lib/simpleCache.ts:11-16 | `set` changes no other key and always adds or replaces one key (no size bound) |
| SimpleCaches.DeleteTouchesOnlyItsKey | src/lib/simpleCache.ts:35-37 | the deleted key misses; every other key reads as before |
| StockContext.StockProvider.constructor | src/contexts/StockContext.tsx:23-27 | no stocks, not loading, no error, no timestamp, not from cache |
| StockContext.StockProvider.BeginLoad | src/contexts/StockContext.tsx:30-58 | the `onlyIfEmpty` and `loading` guards return the current list and change nothing; otherwise the error is cleared, and a cache hit is adopted with its timestamp, or the load waits for the fetch |
| StockContext.StockProvider.FinishLoad | src/contexts/StockContext.tsx:60-73 | success adopts the list and writes both keys with one `now`; failure stores the message (or the fixed fallback) and keeps the list; `loading` ends false |
| StockContext.StockProvider.FetchStocks | src/contexts/StockContext.tsx:76-78 | while a load is in flight nothing changes; otherwise the error is cleared and a hit on `stocks` is adopted with `lastUpdated` from the timestamp read and `isFromCache` set, while a miss keeps list, timestamp and flag, drops the expired entry and awaits the fetch |
| StockContext.StockProvider.RefreshStocks | src/contexts/StockContext.tsx:80-84 | deletes both keys, then a load that bypasses the cache |
| StockContext.StockProvider.EnsureStocksLoaded | src/contexts/StockContext.tsx:90-92 | a non-empty list (or a load in flight) changes nothing at all; an empty list is loaded as `fetchStocks` loads it, hit and miss both stated |
| StockContext.StockProvider.ClearError | src/contexts/StockContext.tsx:86-88 | clears the error and nothing else |
| StockContext.SavedThenHit | src/contexts/StockContext.tsx:49-65 | within five minutes of a fetch the next cache-first load adopts the saved list with `lastUpdated` equal to the fetch time |
| StockContext.SavedThenExpired | src/contexts/StockContext.tsx:49-64 | after five minutes the saved list is gone |
| StockContext.ReadKeepsShape | src/contexts/StockContext.tsx:50-54 | reads keep `stocks` a list and `stocks_timestamp` a number |
| Api.RetriedBounded | src/lib/api.ts:43-97 | the retry chain makes between 1 and `retries + 1` requests and returns only ok responses |
| Api.DefaultRetriesAtMostThree | src/lib/api.ts:43-84 | with the default two retries, at most three requests |
| Api.TimeoutNotRetried | src/lib/api.ts:76-78 | an abort ends the chain at once as a 408 `TIMEOUT` error |
| Api.OnlineHttpErrorNotRetried | src/lib/api.ts:64-89 | online, an HTTP error surfaces at once with its status |
| Api.OfflineFailureRetried | src/lib/api.ts:81-84 | offline, any failure but a timeout is retried while retries remain |
| Api.PersistentTypeError | src/lib/api.ts:81-96 | a `TypeError` on every request exhausts the retries and ends as `UNKNOWN` with status 0 |
| Api.OnlyFirstProxyUsesAllOrigins | src/lib/api.ts:6-10 | only the first proxy gets the allorigins treatment |
| Api.EscapeAllEncoded | src/lib/api.ts:119 | percent-escaping bytes yields only `%` and upper-case hex digits (all within the encoded alphabet), three characters per byte |
| Api.EncodedComponentIsSafe | src/lib/api.ts:119 | `encodeURIComponent` yields only unreserved characters and escapes, and never shortens its input |
| Api.ProxyUrlShape | src/lib/api.ts:116-122 | through allorigins the encoded target carries no `:`, `/`, `?`, `&`, `=` or `#` after the proxy prefix; the other proxies get the target verbatim |
| Api.GetAllStocks | src/lib/api.ts:105-158 | the proxy loop settles to `AllStocks(online, net)` |
| Api.FallbackOutcome | src/lib/api.ts:113-157 | a success is the first usable payload with no later proxy contacted; every failure is `ALL_PROXIES_FAILED` after all proxies, so the final `FETCH_ERROR` is unreachable |
| Api.GetAllStocksOutcome | src/lib/api.ts:105-157 | offline: `NO_NETWORK` before any request; online: 1 to 3 proxies contacted, and failure is `ALL_PROXIES_FAILED` |
| Api.FirstProxyWins | src/lib/api.ts:113-145 | a usable first proxy is the only one contacted |
| Api.SearchStocksByCode | src/lib/api.ts:163-168 | a failed load is passed on; otherwise exactly the stocks whose code contains one of the codes (case-sensitive) |
| Api.SearchStocksByName | src/lib/api.ts:173-178 | likewise for names |
| Api.SearchKeepsOrder | src/lib/api.ts:163-178 | both searches keep input order (each distributes over concatenation) |
| Api.CreateInitialApiState | src/lib/api.ts:190-195 | no data, not loading, no error, never updated |
| OptimizedSearch.Scan | src/hooks/useOptimizedSearch.ts:17-40 | the loop builds `Ranked(stocks, q)`: the first 100 matches, exact code matches unshifted to the front |
| OptimizedSearch.MatchIsSubstring | src/hooks/useOptimizedSearch.ts:23-39 | the four tiers together are a substring match of the lower-cased code or name |
| OptimizedSearch.ArrangePermutes | src/hooks/useOptimizedSearch.ts:20-40 | the unshift/push layout is a permutation of the matches |
| OptimizedSearch.RankedSize | src/hooks/useOptimizedSearch.ts:18-20 | at most 100 results, and exactly `min(100, matches)` |
| OptimizedSearch.RankedFromMatches | src/hooks/useOptimizedSearch.ts:20-40 | the results are drawn from the matches, each at most as often |
| OptimizedSearch.RankedSound | src/hooks/useOptimizedSearch.ts:20-40 | every result is a matching input stock |
| OptimizedSearch.RankedComplete | src/hooks/useOptimizedSearch.ts:20-40 | below 100 matches, every match is a result, as often as it occurs |
| OptimizedSearch.RankedExactFirst | src/hooks/useOptimizedSearch.ts:23-25 | no exact code match follows a match of another tier |
| OptimizedSearch.MemoKey | src/hooks/useOptimizedSearch.ts:11 | the memo key is never empty |
| OptimizedSearch.Evicted | src/hooks/useOptimizedSearch.ts:42-47 | eviction keeps the table well formed |
| OptimizedSearch.Memoised | src/hooks/useOptimizedSearch.ts:42-48 | the table after a store stays well formed |
| OptimizedSearch.SearchMemo.constructor | src/hooks/useOptimizedSearch.ts:4 | the memo starts empty |
| OptimizedSearch.SearchMemo.FilterStocks | src/hooks/useOptimizedSearch.ts:6-51 | returns `Searched(old table, stocks, query)` and leaves `Memoised(...)` |
| OptimizedSearch.SearchMemo.Clear | src/hooks/useOptimizedSearch.ts:86 | empties the memo |
| OptimizedSearch.MemoStaysBounded | src/hooks/useOptimizedSearch.ts:42-48 | the table keeps at most 51 non-empty keys of at most 100 stocks, and every answer has at most 100 |
| OptimizedSearch.BlankQuery | src/hooks/useOptimizedSearch.ts:7 | a blank query returns `[]` and leaves the table alone |
| OptimizedSearch.MemoRepeats | src/hooks/useOptimizedSearch.ts:11-15 | a repeated query over any input of the same length gets the memoised answer, whatever the stocks now are |
| OptimizedSearch.MissScans | src/hooks/useOptimizedSearch.ts:11-20 | on a miss the answer is the scan's |
| OptimizedSearch.SearchHook.constructor | src/hooks/useOptimizedSearch.ts:54-58 | not searching, empty query and results, the ref on the given stocks |
| OptimizedSearch.SearchHook.UpdateStocks | src/hooks/useOptimizedSearch.ts:59-61 | the ref follows the latest stocks and nothing else changes |
| OptimizedSearch.SearchHook.ExecuteSearch | src/hooks/useOptimizedSearch.ts:63-79 | a blank query clears results and query; otherwise the search is marked running and scheduled over the given stocks, or else the ref's |
| OptimizedSearch.SearchHook.FireTimer | src/hooks/useOptimizedSearch.ts:74-78 | the oldest scheduled search runs through the memo and its answer is shown |
| OptimizedSearch.SearchHook.ClearSearch | src/hooks/useOptimizedSearch.ts:80-84 | clears results and query and stops searching |
| OptimizedSearch.SearchHook.ClearCache | src/hooks/useOptimizedSearch.ts:85-87 | empties the memo |
| ApiContext.ReducerTouchesOnlyItsKey | src/contexts/ApiContext.tsx:37-56 | `SET_LOADING`/`SET_ERROR`/`SET_DATA`/`CLEAR_ERROR` change only their key in their own record |
| ApiContext.ClearingErrors | src/contexts/ApiContext.tsx:52-61 | `CLEAR_ERROR` keeps the key mapped to null; `CLEAR_ALL_ERRORS` empties the errors; neither touches loading or data |
| ApiContext.UnrecognisedKeepsState | src/contexts/ApiContext.tsx:62-63 | an unknown action returns the state unchanged |
| ApiContext.GetterDefaults | src/contexts/ApiContext.tsx:143-155 | unknown keys are not loading and have no error; a missing or falsy stored value reads as null |
| ApiContext.MakeRequestOutcome | src/contexts/ApiContext.tsx:89-130 | after `makeRequest`, loading ends false (untouched with `skipLoading`); success stores the data and clears the error; failure records the `REQUEST_ERROR` error and leaves the data |
| ApiContext.ApiProvider.constructor | src/contexts/ApiContext.tsx:28-32 | the three records start empty |
| ApiContext.ApiProvider.Dispatch | src/contexts/ApiContext.tsx:86 | one reducer step |
| ApiContext.ApiProvider.BeginRequest | src/contexts/ApiContext.tsx:94-106 | dispatches the actions before the await; `skipCache` changes nothing |
| ApiContext.ApiProvider.EndRequest | src/contexts/ApiContext.tsx:108-129 | stores and returns the result, or records and rethrows the `REQUEST_ERROR` error; then the `finally` |
| ApiContext.ApiProvider.MakeRequest | src/contexts/ApiContext.tsx:89-130 | the whole dispatch sequence, which does not depend on `skipCache` |
| ApiContext.ApiProvider.ClearErrorOf | src/contexts/ApiContext.tsx:133-135 | one `CLEAR_ERROR` step |
| ApiContext.ApiProvider.ClearAll | src/contexts/ApiContext.tsx:138-140 | one `CLEAR_ALL_ERRORS` step |
| UseStocks.BlankQueryRulesDiffer | src/hooks/useStocks.ts:160-162 | a blank query returns the whole list here, while `filterStocks` returns `[]` |
| UseStocks.StockFilterMembership | src/hooks/useStocks.ts:164-168 | exactly the stocks whose lower-cased code or name contains the trimmed lower-cased query, none more often than in the input |
| UseStocks.StockFilterKeepsOrder | src/hooks/useStocks.ts:165-168 | input order is kept |
| UseStocks.StockFilterUncapped | src/hooks/useStocks.ts:159-169 | no cap: if every stock matches, all come back |
| UseStocks.SameStocksAsRanked | src/hooks/useStocks.ts:164-168 | for a trimmed query this filter tests what the ranked scan tests; the same stocks below 100 matches, more than the scan above |
| UseStocks.SearchQueryEchoes | src/hooks/useStocks.ts:171-180 | `searchQuery` is `initialQuery`, and `setSearchQuery` changes nothing |
| UseStocks.FetchWritten | src/hooks/useStocks.ts:73-74 | the two writes keep the tiers well formed |
| UseStocks.FindByCode | src/hooks/useStocks.ts:223 | a found stock is in the list with exactly that code; none is found exactly when no stock has it |
| UseStocks.StockHooks.constructor | src/hooks/useStocks.ts:30 | the shared request state and cache manager |
| UseStocks.StockHooks.FetchStocks | src/hooks/useStocks.ts:54-84 | without `skipCache` a truthy cached list is served and the API is not contacted; otherwise the fetched list is written under `all_stocks` and then `all_stocks_timestamp`; a failure is recorded and swallowed |
| UseStocks.StockHooks.RefreshStocks | src/hooks/useStocks.ts:87-91 | deletes only `all_stocks`, then fetches bypassing the cache |
| UseStocks.StockHooks.FetchStock | src/hooks/useStocks.ts:206-238 | a blank code issues no request; otherwise a cached stock is served, or the exact-code stock from the full list is cached and stored, or the not-found error is recorded |
| UseStocks.FindByCodeIsFirst | src/hooks/useStocks.ts:223 | the lookup returns the first stock with exactly that code |
| UseStocks.LookupOutcome | src/hooks/useStocks.ts:222-227 | on a cache miss the lookup succeeds exactly when some stock has the code; otherwise the recorded message is `找不到股票代號 <code>` |
| UseStocks.FetchShowsStocks | src/hooks/useStocks.ts:35-37 | after a fetch the hook shows the served list, not loading and no error; after a failure the earlier list and the recorded error |
| UseStocks.SavedThenServed | src/hooks/useStocks.ts:60-76 | within the ttl a stored list is what the next cache-first fetch reads (always when storage is available) |
| UseStocks.RefreshKeepsTimestamp | src/hooks/useStocks.ts:87-91 | after the delete `all_stocks` misses while `all_stocks_timestamp` reads as before |
| Cache.Live | src/lib/cache.ts:38-52 | definition of a memory read; its properties are `MemoryRoundTrip`, `ExpireOnlyThatKey` and `SweepRemovesExactlyExpired` |
| Cache.Written | src/lib/cache.ts:90-109 | definition of the stored slots after `set`; `PersistentRoundTrip` and `Unavailable` state what it gives |
| Cache.Loaded | src/lib/cache.ts:111-136 | definition of a persistent read; `PersistentRoundTrip`, `BlankSlotKept` and `ClearedForgetsCache` state what it gives |
| Cache.Dropped | src/lib/cache.ts:142-153 | definition of the store after `delete` |
| Cache.Discarded | src/lib/cache.ts:111-136 | definition of the store after `get`; `Unavailable` and `BlankSlotKept` state what it keeps |
| Cache.Cleared | src/lib/cache.ts:155-169 | definition of the store after `clear`; `ClearedForgetsCache` states what it keeps |
| Cache.Purged | src/lib/cache.ts:172-200 | definition of the store after `cleanup`; `PurgedKeepsForeignKeys` states what it keeps |
| Cache.Read | src/lib/cache.ts:213-231 | definition of the manager's read; `ManagerRoundTrip` and `StoredHitCopiedBack` state what it gives |
| SimpleCaches.Lookup | src/lib/simpleCache.ts:18-29 | definition of a read; `SetThenGet` and `MissingKey` state what it gives |
| SimpleCaches.Pruned | src/lib/simpleCache.ts:18-29 | definition of the cache after a read; `GetTouchesOnlyItsKey` states what it keeps |
| StockContext.Saved | src/contexts/StockContext.tsx:60-65 | definition of the two writes after a fetch; `SavedThenHit` and `SavedThenExpired` state what they give |
| Api.Retried | src/lib/api.ts:43-97 | definition of the retry chain; `RetriedBounded`, `TimeoutNotRetried`, `OnlineHttpErrorNotRetried`, `OfflineFailureRetried` and `PersistentTypeError` state its behaviour |
| Api.Again | src/lib/api.ts:80-84 | the retry step of `Retried` (the same chain one request later, with one retry fewer) |
| Api.ProxyUrl | src/lib/api.ts:116-122 | definition of the address requested through each proxy; `ProxyUrlShape` states its form |
| Api.EncodeURIComponent | src/lib/api.ts:119 | definition of `encodeURIComponent`; `EncodedComponentIsSafe` states its alphabet and length |
| Api.Payload | src/lib/api.ts:126-145 | definition of the usable payload of a response body (the allorigins `contents` unwrapping, the array test) |
| Api.ProxyData | src/lib/api.ts:126-145 | definition of what one proxy yields through its retry chain |
| Api.Fallback | src/lib/api.ts:113-157 | definition of the proxy loop; `FallbackOutcome` and `FirstProxyWins` state its outcome |
| Api.AllStocks | src/lib/api.ts:105-158 | definition of what `getAllStocks` settles to; `GetAllStocksOutcome` states it |
| OptimizedSearch.Arrange | src/hooks/useOptimizedSearch.ts:20-40 | definition of the unshift/push layout; `ArrangePermutes` and `RankedExactFirst` state its properties |
| OptimizedSearch.Ranked | src/hooks/useOptimizedSearch.ts:17-40 | definition of the scan's answer; `RankedSize`, `RankedSound`, `RankedComplete`, `RankedFromMatches` and `RankedExactFirst` state it |
| OptimizedSearch.Searched | src/hooks/useOptimizedSearch.ts:6-51 | definition of `filterStocks`' answer; `BlankQuery`, `MemoRepeats`, `MissScans` and `MemoStaysBounded` state it |
| ApiContext.Reduce | src/contexts/ApiContext.tsx:35-64 | definition of `apiReducer`; `ReducerTouchesOnlyItsKey`, `ClearingErrors` and `UnrecognisedKeepsState` state it |
| ApiContext.ReduceAll | src/contexts/ApiContext.tsx:86 | definition of dispatching several actions in order |
| ApiContext.BeginActions | src/contexts/ApiContext.tsx:94-101 | definition of the dispatches before the await |
| ApiContext.EndActions | src/contexts/ApiContext.tsx:106-129 | definition of the dispatches after the await; `MakeRequestOutcome` states their effect |
| ApiContext.IsLoading | src/contexts/ApiContext.tsx:142-144 | definition of `isLoading`; `GetterDefaults` states its default |
| ApiContext.GetError | src/contexts/ApiContext.tsx:147-149 | definition of `getError`; `GetterDefaults` states its default |
| ApiContext.GetData | src/contexts/ApiContext.tsx:152-154 | definition of `getData`; `GetterDefaults` states its default |
| UseStocks.StockFilter | src/hooks/useStocks.ts:159-169 | definition of the filtered list; `StockFilterMembership`, `StockFilterKeepsOrder`, `StockFilterUncapped` and `SameStocksAsRanked` state it |
| UseStocks.Served | src/hooks/useStocks.ts:58-77 | definition of what the request function of `fetchStocks` resolves to; `FetchShowsStocks` states what the hook then shows |
| UseStocks.Looked | src/hooks/useStocks.ts:212-233 | definition of what the request function of `useStock` resolves to; `LookupOutcome` states it |

## Left out

- Real I/O. `fetch`, `AbortController`, the 15-second timeout timer and the 2-second retry delay are replaced by the oracle of attempts. The same goes for `localStorage`, `JSON.stringify`/`JSON.parse` and the storage probe. A storage slot is a parsed item, the empty string, or unparsable text (a JSON value without `timestamp`/`ttl` fields is not distinguished from an item), and availability is a flag fixed per operation; a successful probe removes `__localStorage_test__`. Storage quota errors (the caught `setItem` failure) are not modelled.
- The ten-minute `setInterval` that calls `cacheManager.cleanup()`. `cleanup` itself is modelled.
- `toLowerCase` folds only the ASCII letters. There is no Unicode case mapping.
- `null` stored as cache data (which the code then reads as a miss) is not modelled. Cached values are lists, stocks or numbers.
- The `Stock` cast of the proxy payload, which does no validation. A payload array is taken as a list of stocks.
- React's mechanics:
  - stale closures (for instance `makeRequest`'s read of `state.data`);
  - effect scheduling, and the mount effects that trigger the first fetch;
  - `useMemo` dependencies;
  - re-render batching;
  - the zero-delay `setTimeout` beyond its first-in-first-out order.

  `useStocks`'s requests run to completion with nothing else dispatched in between.
- `useStocks`'s `lastUpdated` and `isFromCache` (wall-clock `Date` values computed once per mount), `totalCount`, and the whole of `useTopStocks`. The latter ranks by `parseFloat`, which is floating point.
- The `details` field of the context's error record, which nothing sets.
- Console logging, including the proxy host extracted for the log line.
- The rendering components, the duplicate unwired loaders (`SimpleStockContext.tsx`, `useSimpleStocks.ts`, `useStockContext.ts`) and the dev-server proxy configuration.
- Api.OnlyFirstProxyUsesAllOrigins: states the result of `proxy.includes('allorigins.win')` for the three configured proxies. The general substring test is used as written.
- UseStocks.SavedThenServed: when storage is unavailable it states only "the saved list or a miss". The memory tier can evict the list when the timestamp write lands at capacity.
