/** The ranked, capped search of `src/hooks/useOptimizedSearch.ts`: a scan that
    sorts each stock into one of four match tiers, puts exact code matches in
    front, stops at 100 results and memoises each result list under
    `query-length` in a module-level table of bounded size; and the hook's
    three state cells with its deferred search. */
module OptimizedSearch {
  import opened JsRuntime
  import opened StockTypes
  import opened OrderedMaps

  /** `maxResults` */
  const MAX_RESULTS: nat := 100

  /** The memo table evicts once it holds more than this many entries. */
  const MEMO_LIMIT: nat := 50

  /** The four mutually exclusive ways a stock can match a lower-cased query,
      tried in this order, and no match. */
  datatype Tier = ExactCode | CodePrefix | CodeSubstring | NameSubstring | NoMatch

  /** The first tier whose test the stock passes, for a lower-cased query `q`. */
  function TierOf(s: Stock, q: string): Tier
  {
    var code, name := Lower(s.code), Lower(s.name);
    if code == q then ExactCode
    else if StartsWith(code, q) then CodePrefix
    else if Includes(code, q) then CodeSubstring
    else if Includes(name, q) then NameSubstring
    else NoMatch
  }

  function MatchFor(q: string): Stock -> bool
  {
    s => TierOf(s, q) != NoMatch
  }

  function ExactFor(q: string): Stock -> bool
  {
    s => TierOf(s, q) == ExactCode
  }

  function InexactFor(q: string): Stock -> bool
  {
    s => TierOf(s, q) != ExactCode
  }

  /** How the scan lays out the matches `l`, found in that order: the exact code
      matches in reverse order (each was `unshift`ed), then the others in order
      (each was `push`ed). */
  function Arrange(l: seq<Stock>, q: string): seq<Stock>
  {
    Reverse(Filter(l, ExactFor(q))) + Filter(l, InexactFor(q))
  }

  /** The result of a scan for the lower-cased query `q`: the first 100 matches, arranged. */
  function Ranked(stocks: seq<Stock>, q: string): seq<Stock>
  {
    var matches := Filter(stocks, MatchFor(q));
    Arrange(matches[..if |matches| < MAX_RESULTS then |matches| else MAX_RESULTS], q)
  }

  /** Appending one more match to the scanned prefix: an exact match goes in front, any other at the back. */
  lemma ArrangeSnoc(l: seq<Stock>, x: Stock, q: string)
    ensures Arrange(l + [x], q) == if TierOf(x, q) == ExactCode then [x] + Arrange(l, q) else Arrange(l, q) + [x]
  {
    SplitSnoc(l, x, ExactFor(q), InexactFor(q));
  }

  /** One iteration of the scan over `stocks[i]`: a match of the exact tier is
      put in front of what was found so far, a match of another tier at the
      back, and a stock that does not match changes nothing. */
  lemma ScanStep(stocks: seq<Stock>, i: nat, q: string)
    requires i < |stocks|
    ensures var found, x := Filter(stocks[..i], MatchFor(q)), stocks[i];
      Filter(stocks[..i + 1], MatchFor(q)) == (if TierOf(x, q) == NoMatch then found else found + [x])
    ensures var found, x := Filter(stocks[..i], MatchFor(q)), stocks[i];
      Arrange(Filter(stocks[..i + 1], MatchFor(q)), q) ==
        match TierOf(x, q)
        case ExactCode => [x] + Arrange(found, q)
        case NoMatch => Arrange(found, q)
        case _ => Arrange(found, q) + [x]
  {
    FilterSnoc(stocks, i, MatchFor(q));
    ArrangeSnoc(Filter(stocks[..i], MatchFor(q)), stocks[i], q);
  }

  /** The bounded `for` loop of `filterStocks`, building `results` by `unshift` and `push`. */
  method Scan(stocks: seq<Stock>, q: string) returns (results: seq<Stock>)
    ensures results == Ranked(stocks, q)
  {
    results := [];
    var i := 0;
    while i < |stocks| && |results| < MAX_RESULTS
      invariant 0 <= i <= |stocks|
      invariant results == Arrange(Filter(stocks[..i], MatchFor(q)), q)
      invariant |results| == |Filter(stocks[..i], MatchFor(q))| <= MAX_RESULTS
    {
      var stock := stocks[i];
      ScanStep(stocks, i, q);
      var code, name := Lower(stock.code), Lower(stock.name);
      if code == q {
        results := [stock] + results;
      } else if StartsWith(code, q) {
        results := results + [stock];
      } else if Includes(code, q) {
        results := results + [stock];
      } else if Includes(name, q) {
        results := results + [stock];
      }
      i := i + 1;
    }
    ScanDone(stocks, i, q);
  }

  /** Where the scan stops, at the end of the input or at the 100th match, the
      matches it has seen are the first 100 of all matches (or all of them). */
  lemma ScanDone(stocks: seq<Stock>, i: nat, q: string)
    requires i <= |stocks| && |Filter(stocks[..i], MatchFor(q))| <= MAX_RESULTS
    requires i == |stocks| || |Filter(stocks[..i], MatchFor(q))| == MAX_RESULTS
    ensures Arrange(Filter(stocks[..i], MatchFor(q)), q) == Ranked(stocks, q)
  {
    var found, matches := Filter(stocks[..i], MatchFor(q)), Filter(stocks, MatchFor(q));
    FilterPrefix(stocks, i, MatchFor(q));
    if i == |stocks| {
      assert stocks[..i] == stocks;
    }
    assert found == matches[..if |matches| < MAX_RESULTS then |matches| else MAX_RESULTS];
  }

  // ---------------------------------------------------------------- properties of the scan

  /** The tiers describe a case-insensitive substring match of the code or the name. */
  lemma MatchIsSubstring(s: Stock, q: string)
    ensures TierOf(s, q) != NoMatch <==> Includes(Lower(s.code), q) || Includes(Lower(s.name), q)
  {
    var code := Lower(s.code);
    if StartsWith(code, q) {
      assert code[0..] == code;
    }
    if code == q {
      assert StartsWith(code[0..], q);
    }
  }

  /** Arranging reorders the matches without losing or adding any. */
  lemma ArrangePermutes(l: seq<Stock>, q: string)
    ensures multiset(Arrange(l, q)) == multiset(l)
    ensures |Arrange(l, q)| == |l|
  {
    ReversePermutes(Filter(l, ExactFor(q)));
    FilterComplement(l, ExactFor(q), InexactFor(q));
  }

  /** At most 100 results; exactly 100 as soon as 100 stocks match, otherwise all the matches. */
  lemma RankedSize(stocks: seq<Stock>, q: string)
    ensures |Ranked(stocks, q)| <= MAX_RESULTS
    ensures |Ranked(stocks, q)| == if |Filter(stocks, MatchFor(q))| < MAX_RESULTS then |Filter(stocks, MatchFor(q))| else MAX_RESULTS
  {
    var matches := Filter(stocks, MatchFor(q));
    ArrangePermutes(matches[..if |matches| < MAX_RESULTS then |matches| else MAX_RESULTS], q);
  }

  /** Each input position contributes at most once: the results are drawn from the matches. */
  lemma RankedFromMatches(stocks: seq<Stock>, q: string)
    ensures multiset(Ranked(stocks, q)) <= multiset(Filter(stocks, MatchFor(q)))
  {
    var matches := Filter(stocks, MatchFor(q));
    var taken := matches[..if |matches| < MAX_RESULTS then |matches| else MAX_RESULTS];
    ArrangePermutes(taken, q);
    assert matches == taken + matches[|taken|..];
  }

  /** Soundness: every result is an input stock that matches, and no input
      stock appears more often than it occurs. */
  lemma RankedSound(stocks: seq<Stock>, q: string)
    ensures multiset(Ranked(stocks, q)) <= multiset(stocks)
    ensures forall s | s in Ranked(stocks, q) :: s in stocks && TierOf(s, q) != NoMatch
  {
    var matches, r := Filter(stocks, MatchFor(q)), Ranked(stocks, q);
    RankedFromMatches(stocks, q);
    FilterSubMultiset(stocks, MatchFor(q));
    forall s | s in r ensures s in stocks && TierOf(s, q) != NoMatch {
      assert s in multiset(r);
      assert s in matches;
      assert MatchFor(q)(s);
    }
  }

  /** Completeness: when fewer than 100 stocks match, every match is a result, and as often. */
  lemma RankedComplete(stocks: seq<Stock>, q: string)
    requires |Filter(stocks, MatchFor(q))| < MAX_RESULTS
    ensures multiset(Ranked(stocks, q)) == multiset(Filter(stocks, MatchFor(q)))
    ensures forall s | s in stocks && TierOf(s, q) != NoMatch :: s in Ranked(stocks, q)
  {
    var matches := Filter(stocks, MatchFor(q));
    assert matches[..|matches|] == matches;
    ArrangePermutes(matches, q);
    forall s | s in stocks && TierOf(s, q) != NoMatch ensures s in Ranked(stocks, q) {
      assert MatchFor(q)(s);
      assert s in multiset(matches);
    }
  }

  /** Exact code matches come first: no exact match follows a match of another tier. */
  lemma RankedExactFirst(stocks: seq<Stock>, q: string)
    ensures forall i, j | 0 <= i < j < |Ranked(stocks, q)| ::
      TierOf(Ranked(stocks, q)[j], q) == ExactCode ==> TierOf(Ranked(stocks, q)[i], q) == ExactCode
  {
    var matches := Filter(stocks, MatchFor(q));
    var taken := matches[..if |matches| < MAX_RESULTS then |matches| else MAX_RESULTS];
    var ex, rest := Reverse(Filter(taken, ExactFor(q))), Filter(taken, InexactFor(q));
    var r := Ranked(stocks, q);
    assert r == ex + rest;
    forall k | 0 <= k < |ex| ensures TierOf(r[k], q) == ExactCode {
      assert r[k] == ex[k];
      assert ex[k] in Filter(taken, ExactFor(q));
    }
    forall k | |ex| <= k < |r| ensures TierOf(r[k], q) != ExactCode {
      assert r[k] == rest[k - |ex|];
      assert rest[k - |ex|] in rest;
    }
  }

  // ---------------------------------------------------------------- the memo table

  /** `${normalizedQuery}-${stocks.length}` */
  function MemoKey(q: string, n: nat): (k: string)
    ensures k != ""
  {
    q + "-" + NatToString(n)
  }

  type Memo = OrderedMap<string, seq<Stock>>

  /** What the memo table always satisfies: keys are never empty (so the
      eviction's truthiness test always passes), and it holds at most 51
      lists of at most 100 stocks. */
  ghost predicate MemoValid(t: Memo)
  {
    && t.Valid()
    && t.Size() <= MEMO_LIMIT + 1
    && (forall k | k in t.values :: k != "" && |t.values[k]| <= MAX_RESULTS)
  }

  /** What `filterStocks(stocks, query)` returns against the table `t`: `[]` for
      a blank query, else the list stored under the lower-cased, untrimmed
      query and the input's length, else a fresh scan. */
  function Searched(t: Memo, stocks: seq<Stock>, query: string): seq<Stock>
  {
    if IsBlank(query) then []
    else if MemoKey(Lower(query), |stocks|) in t.values then t.values[MemoKey(Lower(query), |stocks|)]
    else Ranked(stocks, Lower(query))
  }

  /** The eviction before a store: the oldest key goes when more than 50 are held (and it is truthy). */
  function Evicted(t: Memo): (r: Memo)
    requires t.Valid()
    ensures r.Valid()
  {
    if t.Size() > MEMO_LIMIT && t.keys[0] != "" then Remove(t, t.keys[0]) else t
  }

  /** The table after `filterStocks(stocks, query)`: only a miss on a non-blank query stores. */
  function Memoised(t: Memo, stocks: seq<Stock>, query: string): (r: Memo)
    requires t.Valid()
    ensures r.Valid()
  {
    if IsBlank(query) || MemoKey(Lower(query), |stocks|) in t.values then t
    else Put(Evicted(t), MemoKey(Lower(query), |stocks|), Ranked(stocks, Lower(query)))
  }

  /** The module-level `searchCache`. */
  class SearchMemo {
    var table: Memo

    ghost predicate Valid()
      reads this
    {
      MemoValid(table)
    }

    constructor ()
      ensures Valid() && table == Empty()
    {
      table := Empty();
    }

    /** `filterStocks(stocks, query)` */
    method FilterStocks(stocks: seq<Stock>, query: string) returns (r: seq<Stock>)
      requires Valid()
      modifies this
      ensures Valid()
      ensures r == Searched(old(table), stocks, query)
      ensures table == Memoised(old(table), stocks, query)
    {
      if IsBlank(query) {
        return [];
      }
      var normalizedQuery := Lower(query);
      var cacheKey := MemoKey(normalizedQuery, |stocks|);
      if cacheKey in table.values {
        return table.values[cacheKey];
      }
      MemoStaysBounded(table, stocks, query);
      r := Scan(stocks, normalizedQuery);
      if table.Size() > MEMO_LIMIT {
        var firstKey := table.keys[0];
        if firstKey != "" {
          table := Remove(table, firstKey);
        }
      }
      table := Put(table, cacheKey, r);
    }

    /** `clearCache` */
    method Clear()
      modifies this
      ensures Valid() && table == Empty()
    {
      table := Empty();
    }
  }

  /** Every `filterStocks` call keeps the table within 51 entries of at most 100
      stocks each, and returns at most 100 stocks. */
  lemma {:induction false} MemoStaysBounded(t: Memo, stocks: seq<Stock>, query: string)
    requires MemoValid(t)
    ensures MemoValid(Memoised(t, stocks, query))
    ensures |Searched(t, stocks, query)| <= MAX_RESULTS
  {
    if !IsBlank(query) && MemoKey(Lower(query), |stocks|) !in t.values {
      RankedSize(stocks, Lower(query));
      if t.Size() > MEMO_LIMIT {
        assert t.keys[0] in t.values;
        RemoveSize(t, t.keys[0]);
      }
    }
  }

  /** A blank or whitespace-only query returns `[]` and neither reads nor writes the table. */
  lemma BlankQuery(t: Memo, stocks: seq<Stock>, query: string)
    requires t.Valid() && IsBlank(query)
    ensures Searched(t, stocks, query) == [] && Memoised(t, stocks, query) == t
  {
  }

  /** The memo: once a non-blank query has been answered, asking again with the
      same query over any input of the same length returns the same list
      without scanning, whatever the stocks now hold. */
  lemma MemoRepeats(t: Memo, stocks: seq<Stock>, query: string, other: seq<Stock>)
    requires t.Valid() && |other| == |stocks|
    ensures Searched(Memoised(t, stocks, query), other, query) == Searched(t, stocks, query)
    ensures Memoised(Memoised(t, stocks, query), other, query) == Memoised(t, stocks, query)
  {
  }

  /** On a miss the answer is the scan's. */
  lemma MissScans(t: Memo, stocks: seq<Stock>, query: string)
    requires !IsBlank(query) && MemoKey(Lower(query), |stocks|) !in t.values
    ensures Searched(t, stocks, query) == Ranked(stocks, Lower(query))
  {
  }

  // ---------------------------------------------------------------- the hook

  /** A search scheduled by `setTimeout(…, 0)`: the stocks and the query it will run on. */
  datatype Job = Job(stocks: seq<Stock>, query: string)

  /** `useOptimizedSearch`'s state: three state cells, the ref that follows the
      `stocks` argument, and the timers not yet fired (zero-delay timers fire
      in the order they were set). */
  class SearchHook {
    var isSearching: bool
    var currentQuery: string
    var filteredStocks: seq<Stock>
    var stocksRef: seq<Stock>
    var pending: seq<Job>
    const memo: SearchMemo

    ghost predicate Valid()
      reads this, memo
    {
      memo.Valid()
    }

    constructor (stocks: seq<Stock>, memo: SearchMemo)
      requires memo.Valid()
      ensures Valid() && this.memo == memo
      ensures !isSearching && currentQuery == "" && filteredStocks == [] && stocksRef == stocks && pending == []
    {
      isSearching := false;
      currentQuery := "";
      filteredStocks := [];
      stocksRef := stocks;
      pending := [];
      this.memo := memo;
    }

    /** The effect that keeps the ref on the latest `stocks`. */
    method UpdateStocks(stocks: seq<Stock>)
      modifies this
      ensures stocksRef == stocks
      ensures isSearching == old(isSearching) && currentQuery == old(currentQuery)
      ensures filteredStocks == old(filteredStocks) && pending == old(pending)
    {
      stocksRef := stocks;
    }

    /** `executeSearch(query, searchStocks)`. A blank query clears the results
        and the query (and leaves `isSearching` and earlier timers alone);
        otherwise the search is marked running and scheduled over the given
        stocks, or over the ref's when none are given. */
    method ExecuteSearch(query: string, searchStocks: Option<seq<Stock>>)
      modifies this
      ensures stocksRef == old(stocksRef)
      ensures IsBlank(query) ==>
        && filteredStocks == [] && currentQuery == ""
        && isSearching == old(isSearching) && pending == old(pending)
      ensures !IsBlank(query) ==>
        && isSearching && currentQuery == query && filteredStocks == old(filteredStocks)
        && pending == old(pending) + [Job(if searchStocks.Some? then searchStocks.value else old(stocksRef), query)]
    {
      if IsBlank(query) {
        filteredStocks := [];
        currentQuery := "";
        return;
      }
      isSearching := true;
      currentQuery := query;
      var stocksToSearch := if searchStocks.Some? then searchStocks.value else stocksRef;
      pending := pending + [Job(stocksToSearch, query)];
    }

    /** The oldest timer fires: its search runs and its result is shown. */
    method FireTimer()
      requires Valid() && pending != []
      modifies this, memo
      ensures Valid()
      ensures pending == old(pending[1..]) && !isSearching
      ensures currentQuery == old(currentQuery) && stocksRef == old(stocksRef)
      ensures filteredStocks == Searched(old(memo.table), old(pending[0].stocks), old(pending[0].query))
      ensures memo.table == Memoised(old(memo.table), old(pending[0].stocks), old(pending[0].query))
    {
      var job := pending[0];
      pending := pending[1..];
      var results := memo.FilterStocks(job.stocks, job.query);
      filteredStocks := results;
      isSearching := false;
    }

    /** `clearSearch` */
    method ClearSearch()
      modifies this
      ensures filteredStocks == [] && currentQuery == "" && !isSearching
      ensures stocksRef == old(stocksRef) && pending == old(pending)
    {
      filteredStocks := [];
      currentQuery := "";
      isSearching := false;
    }

    /** `clearCache`: empties the memo table and nothing else. */
    method ClearCache()
      modifies memo
      ensures Valid() && memo.table == Empty()
    {
      memo.Clear();
    }
  }
}
