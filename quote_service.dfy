/** `StockService.getStockPrice` from src/stock/stock.service.ts: one GET to the
    Finnhub `Quote` endpoint, a check that the body carries `c`, and a `catch`
    that rewrites every failure into one `HttpException`. The HTTP client is a
    parameter: a function from the requested URL to what the request yields. */
module QuoteService {
  import opened Wrappers
  import opened Exceptions
  import opened Config
  import opened QuoteModel
  import Strings

  /** The service's configuration, read once in its constructor. */
  datatype StockService = StockService(finnhubKey: Option<string>, finnhubUrl: Option<string>)

  /** The constructor: `FINNHUB_KEY` and `FINNHUB_URL` from the configuration. */
  function NewStockService(env: Env): (svc: StockService)
    ensures svc.finnhubKey == Get(env, "FINNHUB_KEY")
    ensures svc.finnhubUrl == Get(env, "FINNHUB_URL")
  {
    StockService(Get(env, "FINNHUB_KEY"), Get(env, "FINNHUB_URL"))
  }

  const QuotePath := "/quote?symbol="
  const TokenParam := "&token="
  const InvalidDataMessage := "Invalid data from Finnhub API"
  const RetrievalErrorMessage := "Error retrieving stock price"

  /** What `lastValueFrom(httpService.get(url))` yields: a response whose body
      is `data` (`None` for a falsy body such as `null`; a body that is not an
      object reads as a quote whose fields are all `undefined`), or a rejection
      whose `error.response?.status` is `responseStatus`. */
  datatype HttpOutcome =
    | Response(data: Option<FinnhubQuote>)
    | RequestFailed(responseStatus: Option<int>)

  /** The value the `catch` block receives. */
  datatype Caught =
    | InvalidData(exception: HttpException)  // thrown by the code itself when `c` is missing
    | RequestError(responseStatus: Option<int>)  // the HTTP client's rejection

  /** The request URL, built by string interpolation: it starts with the
      configured base URL and the quote path, and ends with the token
      parameter carrying the configured key. */
  function QuoteUrl(svc: StockService, symbol: string): (url: string)
    ensures var head := Interpolate(svc.finnhubUrl) + QuotePath;
            |head| <= |url| && url[..|head|] == head
    ensures var tail := TokenParam + Interpolate(svc.finnhubKey);
            |tail| <= |url| && url[|url| - |tail|..] == tail
  {
    Interpolate(svc.finnhubUrl) + QuotePath + symbol + TokenParam + Interpolate(svc.finnhubKey)
  }

  /** `data && data.c !== undefined`. */
  predicate HasCurrentPrice(data: Option<FinnhubQuote>)
  {
    data.Some? && !data.value.c.Undefined?
  }

  /** The `try` block: accept a body with `c`, else throw the invalid-data
      exception; a rejected request propagates its error. */
  function Attempt(outcome: HttpOutcome): (r: Result<StockPrice, Caught>)
    ensures r.Success? <==> outcome.Response? && HasCurrentPrice(outcome.data)
    ensures r.Success? ==> r.value == FromQuote(outcome.data.value)
    ensures outcome.Response? && r.Failure? ==>
              r.error == InvalidData(HttpException(InvalidDataMessage, BadRequest))
    ensures outcome.RequestFailed? ==> r == Failure(RequestError(outcome.responseStatus))
  {
    match outcome
    case Response(data) =>
      if HasCurrentPrice(data) then Success(FromQuote(data.value))
      else Failure(InvalidData(HttpException(InvalidDataMessage, BadRequest)))
    case RequestFailed(s) => Failure(RequestError(s))
  }

  /** `error.response?.status`: a caught `HttpException` keeps its message
      string in its `response` property, and a string has no `status`. */
  function CaughtStatus(c: Caught): (status: Option<int>)
    ensures c.InvalidData? ==> status.None?
    ensures c.RequestError? ==> status == c.responseStatus
  {
    match c
    case InvalidData(_) => None
    case RequestError(s) => s
  }

  /** `status || HttpStatus.INTERNAL_SERVER_ERROR`: a missing or zero status becomes 500. */
  function StatusOr500(s: Option<int>): (code: int)
    ensures s.Some? && s.value != 0 ==> code == s.value
    ensures s.None? || s.value == 0 ==> code == InternalServerError
  {
    if s.Some? && s.value != 0 then s.value else InternalServerError
  }

  /** `getStockPrice(symbol)` as written: the `catch` replaces every error,
      including the invalid-data exception thrown inside the `try`, by
      `HttpException('Error retrieving stock price', status)`. */
  function GetStockPrice(svc: StockService, symbol: string, http: string -> HttpOutcome)
    : (r: Result<StockPrice, HttpException>)
    ensures var outcome := http(QuoteUrl(svc, symbol));
            && (r.Success? <==> outcome.Response? && HasCurrentPrice(outcome.data))
            && (r.Success? ==> r.value == FromQuote(outcome.data.value)
                               && r.value.currentPrice == outcome.data.value.c)
            && (r.Failure? ==> r.error.message == RetrievalErrorMessage)
            && (r.Failure? && outcome.Response? ==> r.error.status == InternalServerError)
            && (outcome.RequestFailed? ==> r.error.status == StatusOr500(outcome.responseStatus))
  {
    match Attempt(http(QuoteUrl(svc, symbol)))
    case Success(p) => Success(p)
    case Failure(c) => Failure(HttpException(RetrievalErrorMessage, StatusOr500(CaughtStatus(c))))
  }

  /** Reads the symbol and the token back from a quote URL whose base is `base`:
      the symbol runs up to the first `&token=`. */
  function ParseQuoteUrl(url: string, base: string): Option<(string, string)>
  {
    var start := |base| + |QuotePath|;
    if start <= |url| && url[..|base|] == base && url[|base|..start] == QuotePath then
      var rest := url[start..];
      var i := Strings.IndexOf(rest, TokenParam);
      if i < 0 then None else Some((rest[..i], rest[i + |TokenParam|..]))
    else
      None
  }

  /** The request URL is exactly base, path, symbol, token parameter and key:
      reading it back yields the symbol and the key, provided the symbol has no
      `&` (the code does not escape it). */
  lemma QuoteUrlRoundTrip(svc: StockService, symbol: string)
    requires '&' !in symbol
    ensures ParseQuoteUrl(QuoteUrl(svc, symbol), Interpolate(svc.finnhubUrl))
            == Some((symbol, Interpolate(svc.finnhubKey)))
  {
    var base, key := Interpolate(svc.finnhubUrl), Interpolate(svc.finnhubKey);
    var url := QuoteUrl(svc, symbol);
    var start := |base| + |QuotePath|;
    assert url == base + QuotePath + (symbol + TokenParam + key);
    assert url[..|base|] == base && url[|base|..start] == QuotePath;
    var rest := url[start..];
    assert rest == symbol + TokenParam + key;
    Strings.ReplaceFirstAfter(symbol, TokenParam, key, "");
    assert Strings.IndexOf(rest, TokenParam) == |symbol|;
    assert rest[..|symbol|] == symbol && rest[|symbol| + |TokenParam|..] == key;
  }

  /** The result depends on the HTTP client only through the one URL it requests. */
  lemma GetStockPriceRequestsQuoteUrlOnly(svc: StockService, symbol: string,
                                          http1: string -> HttpOutcome, http2: string -> HttpOutcome)
    requires http1(QuoteUrl(svc, symbol)) == http2(QuoteUrl(svc, symbol))
    ensures GetStockPrice(svc, symbol, http1) == GetStockPrice(svc, symbol, http2)
  {
  }

  /** Only `c` is checked: a body with `c` (even `null`) succeeds whatever its
      other fields are, and the price is `c`. */
  lemma OnlyCurrentPriceIsChecked(svc: StockService, symbol: string, http: string -> HttpOutcome, q: FinnhubQuote)
    requires http(QuoteUrl(svc, symbol)) == Response(Some(q))
    requires !q.c.Undefined?
    ensures GetStockPrice(svc, symbol, http) == Success(FromQuote(q))
    ensures GetStockPrice(svc, symbol, http).value.currentPrice == q.c
    ensures GetStockPrice(svc, symbol, http).value.timestamp == q.t
  {
  }

  /** A rejected request surfaces as `'Error retrieving stock price'` with the
      upstream status, or 500 without one. */
  lemma RequestFailureKeepsStatus(svc: StockService, symbol: string, http: string -> HttpOutcome, s: Option<int>)
    requires http(QuoteUrl(svc, symbol)) == RequestFailed(s)
    ensures GetStockPrice(svc, symbol, http)
            == Failure(HttpException(RetrievalErrorMessage, if s.Some? && s.value != 0 then s.value else 500))
  {
  }

  /** As written, a reply without a body or whose body lacks `c` does not
      surface the invalid-data exception: the `catch` turns it into a 500
      carrying `'Error retrieving stock price'`. The test case that expects
      `'Invalid data from Finnhub API'` uses such a body: `h`, `l`, `o`, `pc`
      and no `c`. */
  lemma InvalidDataIsRewritten(svc: StockService, symbol: string, http: string -> HttpOutcome)
    requires var outcome := http(QuoteUrl(svc, symbol));
             outcome.Response? && !HasCurrentPrice(outcome.data)
    ensures GetStockPrice(svc, symbol, http) == Failure(HttpException(RetrievalErrorMessage, 500))
    ensures GetStockPrice(svc, symbol, http) != Failure(HttpException(InvalidDataMessage, BadRequest))
  {
    assert RetrievalErrorMessage[0] != InvalidDataMessage[0];
  }

  /** `getStockPrice` as its test and the controller's documented 400 response
      intend it: the `catch` rethrows the invalid-data exception unchanged and
      rewrites only the HTTP client's errors. */
  function GetStockPriceIntended(svc: StockService, symbol: string, http: string -> HttpOutcome)
    : (r: Result<StockPrice, HttpException>)
    ensures var outcome := http(QuoteUrl(svc, symbol));
            && (r.Success? <==> outcome.Response? && HasCurrentPrice(outcome.data))
            && (r.Success? ==> r.value == FromQuote(outcome.data.value))
            && (outcome.Response? && r.Failure? ==>
                  r.error == HttpException(InvalidDataMessage, BadRequest))
            && (outcome.RequestFailed? ==>
                  r.error == HttpException(RetrievalErrorMessage, StatusOr500(outcome.responseStatus)))
  {
    match Attempt(http(QuoteUrl(svc, symbol)))
    case Success(p) => Success(p)
    case Failure(InvalidData(e)) => Failure(e)
    case Failure(RequestError(s)) => Failure(HttpException(RetrievalErrorMessage, StatusOr500(s)))
  }

  /** The two versions differ exactly on replies without `c`. */
  lemma IntendedDiffersOnlyOnInvalidData(svc: StockService, symbol: string, http: string -> HttpOutcome)
    ensures var outcome := http(QuoteUrl(svc, symbol));
            GetStockPriceIntended(svc, symbol, http) == GetStockPrice(svc, symbol, http)
            <==> !(outcome.Response? && !HasCurrentPrice(outcome.data))
  {
    var outcome := http(QuoteUrl(svc, symbol));
    if outcome.Response? && !HasCurrentPrice(outcome.data) {
      assert GetStockPrice(svc, symbol, http).error.message[0] != InvalidDataMessage[0];
    }
  }
}
