/** The request logic of `src/lib/api.ts`: `fetchWithRetry`'s retry and error
    classification, the proxy fallback of `stockApi.getAllStocks`, the two
    substring searches and the initial request state. The network is an
    oracle: `net(k)` is what the k-th request of one proxy's retry chain
    meets, together with what `navigator.onLine` says when its failure is
    handled. */
module Api {
  import opened JsRuntime
  import opened StockTypes

  // API_CONFIG
  const CORS_PROXIES: seq<string> := [
    "https://api.allorigins.win/get?url=",
    "https://cors-anywhere.herokuapp.com/",
    "https://api.codetabs.com/v1/proxy?quest="
  ]
  const TWSE_BASE_URL: string := "https://openapi.twse.com.tw/v1"
  const STOCK_DAY_ALL: string := "/exchangeReport/STOCK_DAY_ALL"
  const RETRY_ATTEMPTS: nat := 2

  const TIMEOUT_MESSAGE: string := "請求超時，請檢查網路連線"
  const UNKNOWN_MESSAGE: string := "未知錯誤"
  const NO_NETWORK_MESSAGE: string := "無網路連線，請檢查網路設定"
  const ALL_PROXIES_MESSAGE: string := "所有代理服務都無法使用，請稍後再試"
  const FETCH_ERROR_MESSAGE: string := "獲取股票資料失敗"

  /** `class ApiError`: a message with an optional HTTP status and an optional code. */
  datatype ApiError = ApiError(message: string, status: Option<int>, code: Option<string>)

  /** An `ApiError` as a thrown value: it is an `Error`, so its message is what callers show. */
  function AsThrown(e: ApiError): Thrown
  {
    ErrorObject(e.message)
  }

  /** What `response.json()` (or `JSON.parse`) yields: an array (which the code
      casts to `Stock[]` without looking inside), an object whose `contents` is
      truthy text (itself JSON) or is not, or anything else. */
  datatype Json = JArray(items: seq<Stock>) | JObject(contents: Option<Body>) | JOther

  /** A response body: JSON text, or text that does not parse. */
  datatype Body = Parsed(value: Json) | Malformed

  datatype Response = Response(status: nat, statusText: string, body: Body)

  /** `response.ok` */
  predicate IsOk(r: Response)
  {
    200 <= r.status <= 299
  }

  /** What one request meets: a response, the 15-second abort, a `TypeError`
      (the browser's network failure), or any other thrown value. */
  datatype Event = Responded(response: Response) | Aborted | NetworkTypeError(message: string) | OtherFailure(thrown: Thrown)

  /** One request and the `navigator.onLine` reading taken if it fails. */
  datatype Attempt = Attempt(event: Event, online: bool)

  /** The outcome of a retry chain and the number of requests it issued. */
  datatype Fetched = Fetched(result: Result<Response, ApiError>, requests: nat)

  /** `new ApiError('HTTP Error: <status> <statusText>', status)` */
  function HttpError(r: Response): ApiError
  {
    ApiError("HTTP Error: " + NatToString(r.status) + " " + r.statusText, Some(r.status), None)
  }

  const TimeoutError: ApiError := ApiError(TIMEOUT_MESSAGE, Some(408), Some("TIMEOUT"))

  /** `fetchWithRetry(url, options, retries)` against the oracle, starting at request `k`.
      A failure is retried while `retries > 0` when the browser reports being
      offline or the failure is a `TypeError`; a timeout never is; an HTTP error
      is rethrown as it is; anything else becomes an `UNKNOWN` error with status 0. */
  function Retried(net: nat -> Attempt, k: nat, retries: nat): Fetched
    decreases retries, 1
  {
    var a := net(k);
    match a.event
    case Responded(resp) =>
      if IsOk(resp) then Fetched(Ok(resp), 1)
      else if retries > 0 && !a.online then Again(net, k, retries)
      else Fetched(Err(HttpError(resp)), 1)
    case Aborted => Fetched(Err(TimeoutError), 1)
    case NetworkTypeError(msg) =>
      if retries > 0 then Again(net, k, retries)
      else Fetched(Err(ApiError(msg, Some(0), Some("UNKNOWN"))), 1)
    case OtherFailure(t) =>
      if retries > 0 && !a.online then Again(net, k, retries)
      else Fetched(Err(ApiError(MessageOr(t, UNKNOWN_MESSAGE), Some(0), Some("UNKNOWN"))), 1)
  }

  /** `return fetchWithRetry(url, options, retries - 1)` after the failed request `k`. */
  function Again(net: nat -> Attempt, k: nat, retries: nat): Fetched
    requires retries > 0
    decreases retries, 0
  {
    var f := Retried(net, k + 1, retries - 1);
    Fetched(f.result, f.requests + 1)
  }

  // ---------------------------------------------------------------- properties of the retry

  /** At most `retries + 1` requests, and at least one; a response is returned only when it is ok. */
  lemma {:induction false} RetriedBounded(net: nat -> Attempt, k: nat, retries: nat)
    ensures 1 <= Retried(net, k, retries).requests <= retries + 1
    ensures Retried(net, k, retries).result.Ok? ==> IsOk(Retried(net, k, retries).result.value)
    decreases retries
  {
    if retries > 0 {
      RetriedBounded(net, k + 1, retries - 1);
    }
  }

  /** With the default of two retries, `fetchWithRetry` issues at most three requests. */
  lemma DefaultRetriesAtMostThree(net: nat -> Attempt)
    ensures Retried(net, 0, RETRY_ATTEMPTS).requests <= 3
  {
    RetriedBounded(net, 0, RETRY_ATTEMPTS);
  }

  /** A timeout ends the chain at once with a 408 `TIMEOUT` error, retries left or not. */
  lemma TimeoutNotRetried(net: nat -> Attempt, k: nat, retries: nat)
    requires net(k).event.Aborted?
    ensures Retried(net, k, retries) == Fetched(Err(ApiError(TIMEOUT_MESSAGE, Some(408), Some("TIMEOUT"))), 1)
  {
  }

  /** While online, an HTTP error surfaces at once with its status. */
  lemma OnlineHttpErrorNotRetried(net: nat -> Attempt, k: nat, retries: nat)
    requires net(k).online && net(k).event.Responded? && !IsOk(net(k).event.response)
    ensures Retried(net, k, retries).requests == 1
    ensures Retried(net, k, retries).result == Err(HttpError(net(k).event.response))
    ensures Retried(net, k, retries).result.error.status == Some(net(k).event.response.status)
  {
  }

  /** While offline, any failure but a timeout (an HTTP error included) is
      retried while retries remain: the chain is the rest of the chain plus one request. */
  lemma OfflineFailureRetried(net: nat -> Attempt, k: nat, retries: nat)
    requires retries > 0 && !net(k).online && !net(k).event.Aborted?
    requires net(k).event.Responded? ==> !IsOk(net(k).event.response)
    ensures Retried(net, k, retries) ==
      Fetched(Retried(net, k + 1, retries - 1).result, Retried(net, k + 1, retries - 1).requests + 1)
  {
  }

  /** A `TypeError` on every request exhausts the retries and ends as an `UNKNOWN`
      error with status 0 and the last request's message. */
  lemma {:induction false} PersistentTypeError(net: nat -> Attempt, k: nat, retries: nat)
    requires forall j | k <= j <= k + retries :: net(j).event.NetworkTypeError?
    ensures Retried(net, k, retries) ==
      Fetched(Err(ApiError(net(k + retries).event.message, Some(0), Some("UNKNOWN"))), retries + 1)
    decreases retries
  {
    if retries > 0 {
      PersistentTypeError(net, k + 1, retries - 1);
    }
  }

  // ---------------------------------------------------------------- proxies

  /** The first proxy is the only one whose address contains `allorigins.win`. */
  predicate UsesAllOrigins(i: nat)
  {
    i < |CORS_PROXIES| && Includes(CORS_PROXIES[i], "allorigins.win")
  }

  lemma OnlyFirstProxyUsesAllOrigins()
    ensures UsesAllOrigins(0) && !UsesAllOrigins(1) && !UsesAllOrigins(2)
  {
    assert StartsWith(CORS_PROXIES[0][12..], "allorigins.win");
    NotIncluded(CORS_PROXIES[1], "allorigins.win");
    NotIncluded(CORS_PROXIES[2], "allorigins.win");
  }

  /** A string holding no `'a'` followed by an `'l'` does not contain a part that starts so. */
  lemma NotIncluded(s: string, part: string)
    requires |part| >= 2 && part[0] == 'a' && part[1] == 'l'
    requires forall i | 0 <= i < |s| - 1 :: !(s[i] == 'a' && s[i + 1] == 'l')
    ensures !Includes(s, part)
  {
    forall i | 0 <= i <= |s| ensures !StartsWith(s[i..], part) {
      if |part| <= |s| - i {
        assert s[i..][..|part|][0] == s[i] && s[i..][..|part|][1] == s[i + 1];
      }
    }
  }

  /** `encodeURIComponent` on one character: the unreserved ones stay, every
      other one becomes the `%XX` escapes of its UTF-8 bytes. */
  predicate Unreserved(c: char)
  {
    ('A' <= c <= 'Z') || ('a' <= c <= 'z') || ('0' <= c <= '9')
    || c == '-' || c == '_' || c == '.' || c == '!' || c == '~' || c == '*' || c == '\'' || c == '(' || c == ')'
  }

  function HexDigit(n: nat): char
    requires n < 16
  {
    "0123456789ABCDEF"[n]
  }

  /** `%XX` for one byte. */
  function Escape(b: nat): string
    requires b < 256
  {
    ['%', HexDigit(b / 16), HexDigit(b % 16)]
  }

  /** The UTF-8 bytes of a Unicode scalar value. */
  function Utf8(c: char): seq<nat>
  {
    var n := c as int;
    if n < 0x80 then [n]
    else if n < 0x800 then [0xC0 + n / 0x40, 0x80 + n % 0x40]
    else if n < 0x1_0000 then [0xE0 + n / 0x1000, 0x80 + (n / 0x40) % 0x40, 0x80 + n % 0x40]
    else [0xF0 + n / 0x4_0000, 0x80 + (n / 0x1000) % 0x40, 0x80 + (n / 0x40) % 0x40, 0x80 + n % 0x40]
  }

  function EscapeAll(bs: seq<nat>): string
    requires forall i | 0 <= i < |bs| :: bs[i] < 256
  {
    if bs == [] then [] else Escape(bs[0]) + EscapeAll(bs[1..])
  }

  lemma Utf8Bytes(c: char)
    ensures forall i | 0 <= i < |Utf8(c)| :: Utf8(c)[i] < 256
  {
  }

  function EncodeChar(c: char): string
  {
    Utf8Bytes(c);
    if Unreserved(c) then [c] else EscapeAll(Utf8(c))
  }

  /** `encodeURIComponent` */
  function EncodeURIComponent(s: string): string
  {
    if s == [] then [] else EncodeChar(s[0]) + EncodeURIComponent(s[1..])
  }

  /** A character that may appear in an encoded component. */
  predicate Encoded(c: char)
  {
    Unreserved(c) || c == '%'
  }

  lemma {:induction false} EscapeAllEncoded(bs: seq<nat>)
    requires forall i | 0 <= i < |bs| :: bs[i] < 256
    ensures forall c | c in EscapeAll(bs) :: c == '%' || ('0' <= c <= '9') || ('A' <= c <= 'F')
    ensures forall c | c in EscapeAll(bs) :: Encoded(c)
    ensures |EscapeAll(bs)| == 3 * |bs|
    decreases |bs|
  {
    if bs != [] {
      EscapeAllEncoded(bs[1..]);
    }
  }

  /** The encoded component holds only unreserved characters and `%`
      escapes, so no `:`, `/`, `?`, `&` or `=` of the target URL can leak into
      the proxy's query string. */
  lemma {:induction false} EncodedComponentIsSafe(s: string)
    ensures forall c | c in EncodeURIComponent(s) :: Encoded(c)
    ensures |EncodeURIComponent(s)| >= |s|
    decreases |s|
  {
    if s != [] {
      EncodedComponentIsSafe(s[1..]);
      Utf8Bytes(s[0]);
      EscapeAllEncoded(Utf8(s[0]));
    }
  }

  /** The target: `${TWSE_BASE_URL}${STOCK_DAY_ALL}`. */
  function TargetUrl(): string
  {
    TWSE_BASE_URL + STOCK_DAY_ALL
  }

  /** The address requested through proxy `i`: the allorigins proxy takes the
      target encoded as a query value, the others take it verbatim. */
  function ProxyUrl(i: nat): string
    requires i < |CORS_PROXIES|
  {
    if UsesAllOrigins(i) then CORS_PROXIES[i] + EncodeURIComponent(TargetUrl())
    else CORS_PROXIES[i] + TargetUrl()
  }

  /** Through allorigins the target travels as one query value: after the
      proxy's own prefix no `:`, `/`, `?`, `&`, `=` or `#` appears. The other
      proxies get the target verbatim after their prefix. */
  lemma ProxyUrlShape(i: nat)
    requires i < |CORS_PROXIES|
    ensures i == 0 ==> forall c | c in ProxyUrl(i)[|CORS_PROXIES[i]|..] ::
      c != ':' && c != '/' && c != '?' && c != '&' && c != '=' && c != '#'
    ensures i > 0 ==> ProxyUrl(i) == CORS_PROXIES[i] + TargetUrl()
  {
    if i == 0 {
      assert UsesAllOrigins(0) by { OnlyFirstProxyUsesAllOrigins(); }
      assert ProxyUrl(0)[|CORS_PROXIES[0]|..] == EncodeURIComponent(TargetUrl());
      EncodedComponentIsSafe(TargetUrl());
    } else {
      OnlyFirstProxyUsesAllOrigins();
    }
  }

  /** The stocks a proxy's response body yields, or none when that proxy fails:
      through allorigins the body must be an object with truthy `contents`
      that itself parses to an array; through the others the body must be an array. */
  function Payload(allOrigins: bool, body: Body): Option<seq<Stock>>
  {
    if allOrigins then
      match body
      case Parsed(JObject(Some(Parsed(JArray(items))))) => Some(items)
      case _ => None
    else
      match body
      case Parsed(JArray(items)) => Some(items)
      case _ => None
  }

  /** The stocks proxy `i` yields under its oracle, or none when its retry chain
      fails or its payload is not usable. */
  function ProxyData(i: nat, net: nat -> Attempt): Option<seq<Stock>>
  {
    var f := Retried(net, 0, RETRY_ATTEMPTS);
    if f.result.Err? then None else Payload(UsesAllOrigins(i), f.result.value.body)
  }

  /** The outcome of a call and the number of proxies it contacted. */
  datatype Loaded = Loaded(result: Result<seq<Stock>, ApiError>, contacted: nat)

  /** The proxy loop from proxy `i` on: the first proxy that yields stocks
      wins; a failure of the last proxy is `ALL_PROXIES_FAILED`. Past the last
      proxy lies the final `FETCH_ERROR` throw. */
  function Fallback(net: string -> nat -> Attempt, i: nat): Loaded
    decreases |CORS_PROXIES| - i
  {
    if i >= |CORS_PROXIES| then Loaded(Err(ApiError(FETCH_ERROR_MESSAGE, Some(0), Some("FETCH_ERROR"))), i)
    else
      var data := ProxyData(i, net(ProxyUrl(i)));
      if data.Some? then Loaded(Ok(data.value), i + 1)
      else if i == |CORS_PROXIES| - 1 then Loaded(Err(ApiError(ALL_PROXIES_MESSAGE, Some(0), Some("ALL_PROXIES_FAILED"))), i + 1)
      else Fallback(net, i + 1)
  }

  /** What `getAllStocks` settles to: offline it throws `NO_NETWORK` before any request. */
  function AllStocks(online: bool, net: string -> nat -> Attempt): Loaded
  {
    if online then Fallback(net, 0) else Loaded(Err(ApiError(NO_NETWORK_MESSAGE, Some(0), Some("NO_NETWORK"))), 0)
  }

  /** `stockApi.getAllStocks()`: `online` is `navigator.onLine` at the call,
      `net(url)` the oracle of the retry chain that requests `url`. */
  method GetAllStocks(online: bool, net: string -> nat -> Attempt) returns (r: Loaded)
    ensures r == AllStocks(online, net)
  {
    if !online {
      return Loaded(Err(ApiError(NO_NETWORK_MESSAGE, Some(0), Some("NO_NETWORK"))), 0);
    }
    var i := 0;
    while i < |CORS_PROXIES|
      invariant 0 <= i <= |CORS_PROXIES|
      invariant Fallback(net, i) == Fallback(net, 0)
    {
      var response := Retried(net(ProxyUrl(i)), 0, RETRY_ATTEMPTS);
      if response.result.Ok? {
        var data := Payload(UsesAllOrigins(i), response.result.value.body);
        if data.Some? {
          return Loaded(Ok(data.value), i + 1);
        }
      }
      if i == |CORS_PROXIES| - 1 {
        return Loaded(Err(ApiError(ALL_PROXIES_MESSAGE, Some(0), Some("ALL_PROXIES_FAILED"))), i + 1);
      }
      i := i + 1;
    }
    return Loaded(Err(ApiError(FETCH_ERROR_MESSAGE, Some(0), Some("FETCH_ERROR"))), i);
  }

  // ---------------------------------------------------------------- properties of the fallback

  /** From proxy `i` on: every failure is `ALL_PROXIES_FAILED`, so the final
      `FETCH_ERROR` throw is never reached; a success returns the first
      usable payload unchanged and contacts no proxy after it. */
  lemma {:induction false} FallbackOutcome(net: string -> nat -> Attempt, i: nat)
    requires i < |CORS_PROXIES|
    ensures var r := Fallback(net, i);
      && i < r.contacted <= |CORS_PROXIES|
      && (r.result.Err? ==> r.result.error.code == Some("ALL_PROXIES_FAILED") && r.contacted == |CORS_PROXIES|
                            && forall j | i <= j < |CORS_PROXIES| :: ProxyData(j, net(ProxyUrl(j))).None?)
      && (r.result.Ok? ==> ProxyData(r.contacted - 1, net(ProxyUrl(r.contacted - 1))) == Some(r.result.value)
                           && forall j | i <= j < r.contacted - 1 :: ProxyData(j, net(ProxyUrl(j))).None?)
    decreases |CORS_PROXIES| - i
  {
    if ProxyData(i, net(ProxyUrl(i))).None? && i < |CORS_PROXIES| - 1 {
      FallbackOutcome(net, i + 1);
    }
  }

  /** Offline, nothing is contacted and the error is `NO_NETWORK`; online, at
      least one proxy is contacted, and a failure is always `ALL_PROXIES_FAILED`
      (never the final `FETCH_ERROR`). */
  lemma GetAllStocksOutcome(online: bool, net: string -> nat -> Attempt)
    ensures !online ==>
      && AllStocks(online, net).contacted == 0 && AllStocks(online, net).result.Err?
      && AllStocks(online, net).result.error.code == Some("NO_NETWORK")
    ensures online ==> 1 <= AllStocks(online, net).contacted <= |CORS_PROXIES|
    ensures online && AllStocks(online, net).result.Err? ==> AllStocks(online, net).result.error.code == Some("ALL_PROXIES_FAILED")
  {
    FallbackOutcome(net, 0);
  }

  /** The first proxy wins whenever it yields stocks: later proxies are not contacted. */
  lemma FirstProxyWins(net: string -> nat -> Attempt)
    requires ProxyData(0, net(ProxyUrl(0))).Some?
    ensures Fallback(net, 0) == Loaded(Ok(ProxyData(0, net(ProxyUrl(0))).value), 1)
  {
  }

  // ---------------------------------------------------------------- searches and initial state

  function CodeMatchesAny(codes: seq<string>): Stock -> bool
  {
    (s: Stock) => exists c | c in codes :: Includes(s.code, c)
  }

  function NameMatchesAny(names: seq<string>): Stock -> bool
  {
    (s: Stock) => exists n | n in names :: Includes(s.name, n)
  }

  /** `searchStocksByCode(codes)` over what `getAllStocks` settled to: a failure
      propagates; otherwise the stocks whose code contains any of the codes, case-sensitively, in order. */
  function SearchStocksByCode(all: Result<seq<Stock>, ApiError>, codes: seq<string>): (r: Result<seq<Stock>, ApiError>)
    ensures all.Err? ==> r == all
    ensures all.Ok? ==> r.Ok? && forall s :: s in r.value <==> s in all.value && exists c | c in codes :: Includes(s.code, c)
  {
    if all.Err? then all else Ok(Filter(all.value, CodeMatchesAny(codes)))
  }

  /** `searchStocksByName(names)`, likewise over names. */
  function SearchStocksByName(all: Result<seq<Stock>, ApiError>, names: seq<string>): (r: Result<seq<Stock>, ApiError>)
    ensures all.Err? ==> r == all
    ensures all.Ok? ==> r.Ok? && forall s :: s in r.value <==> s in all.value && exists n | n in names :: Includes(s.name, n)
  {
    if all.Err? then all else Ok(Filter(all.value, NameMatchesAny(names)))
  }

  /** The searches keep the input order: filtering a concatenation filters each part. */
  lemma SearchKeepsOrder(a: seq<Stock>, b: seq<Stock>, codes: seq<string>, names: seq<string>)
    ensures SearchStocksByCode(Ok(a + b), codes) == Ok(SearchStocksByCode(Ok(a), codes).value + SearchStocksByCode(Ok(b), codes).value)
    ensures SearchStocksByName(Ok(a + b), names) == Ok(SearchStocksByName(Ok(a), names).value + SearchStocksByName(Ok(b), names).value)
  {
    FilterAppend(a, b, CodeMatchesAny(codes));
    FilterAppend(a, b, NameMatchesAny(names));
  }

  /** `ApiState<T>` */
  datatype ApiState<T> = ApiState(data: Option<T>, loading: bool, error: Option<ApiError>, lastUpdated: Option<int>)

  /** `createInitialApiState()`: no data, not loading, no error, never updated. */
  function CreateInitialApiState<T>(): (s: ApiState<T>)
    ensures s.data.None? && !s.loading && s.error.None? && s.lastUpdated.None?
  {
    ApiState(None, false, None, None)
  }
}
