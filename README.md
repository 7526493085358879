# Advanced stock price checker — a Dafny model of its polling core

The service polls the Finnhub `Quote` endpoint for every active stock symbol
on a cron schedule and stores one price row per symbol. This project models
the four parts of it that carry logic, and proves what they promise:

- **`StockCron`** (`price_cron.dfy`). The cron-expression default of
  `addCronJob`. The job set-up, whose failures are logged and never
  rethrown. The tick `handleCron`, a class whose price table, log and
  collaborator calls are `seq` fields. Its `for` loop is proved against
  specification functions (`Outcomes`, `SavedRows`, `TickLines`,
  `CreateCalls`, `Codes`), and the properties of the tick are lemmas about
  those functions. What the quote service and the database yield for each
  symbol is an input.
- **`StockService.getStockPrice`** (`quote_service.dfy`). The request URL.
  The check that the body carries `c`. The `catch` that rewrites every
  failure. The HTTP client is a function from URL to outcome.
- **The `StockPrice` constructor** (`quote_model.dfy`). A total
  field-by-field copy of a Finnhub quote. It also holds the conversion of
  epoch seconds to a JavaScript `Date` that the tick performs.
- **`formatUrl`** (`url_utils.dfy`). Two JavaScript `String.replace` calls
  with string patterns, each replacing the first occurrence only. `indexOf`
  and `replace` themselves are in `strings.dfy`.

`wrappers.dfy`, `exceptions.dfy` and `config.dfy` hold the shared types:
- `Option`, `Result` and `Outcome`;
- the values a `catch` block receives;
- configuration lookup and template-literal interpolation.

JavaScript semantics are modelled where the code depends on them:
- `undefined` versus `null` fields: `c !== undefined` accepts `null`;
- the falsy default `status || 500`, under which status 0 also becomes 500;
- `${undefined}` renders as `"undefined"`;
- `new Date(undefined * 1000)` is an Invalid Date, `new Date(null * 1000)` is the epoch, and time values beyond 8.64e15 ms are invalid.

Where the tests and the code disagree, the model follows the code. The test
at `src/stock/stock.service.spec.ts:113-135` expects the message `Invalid
data from Finnhub API` for a body without `c`. The code's own `catch`
replaces that exception, so the model returns `Error retrieving stock
price` with status 500 (see Findings).

## Model

| member | source | states |
|---|---|---|
| Config.Get | src/stock/stock.service.ts:18-19 | a configuration key yields its value if it is set and `undefined` (None) exactly when it is not |
| Config.Interpolate | src/stock/stock.service.ts:23 | a set value is interpolated as is; an unset one renders as the text `undefined` |
| Exceptions.Detail | src/stock/stock.cron.ts:66 | the logged detail of an `Error` is its message, and of any other thrown value its `String(...)` rendering |
| Exceptions.AsThrown | src/stock/stock.service.ts:38-41 | an `HttpException` caught by the tick is an `Error` whose detail is its message |
| Strings.IndexOf | src/utils/url.utils.ts:7 | `indexOf`: the result is -1 or a position where the pattern occurs, and the pattern occurs at no earlier position (none at all when -1) |
| Strings.IndexOfIsFirst | src/utils/url.utils.ts:7 | an occurrence with none before it is exactly the position `indexOf` finds |
| Strings.ReplaceFirst | src/utils/url.utils.ts:7 | `replace` with a string pattern: a string without the pattern is returned unchanged, and one with it changes length by the replacement's length minus the pattern's; `ReplaceFirstPresent` states which span is replaced |
| Strings.ReplaceFirstPresent | src/utils/url.utils.ts:7 | with the pattern present, the occurrence `indexOf` finds, with none before it, is the one replaced and the text before and after it is kept |
| Strings.ReplaceFirstAfter | src/utils/url.utils.ts:7 | in `a + pat + b` where `a` lacks `pat`'s first character, the replaced occurrence is the one after `a`, giving `a + rep + b` |
| UrlUtils.FormatUrl | src/utils/url.utils.ts:6-7 | each loopback host present is rewritten once: the URL grows by four characters when it contains `[::1]` and by two when it contains `0.0.0.0`; `FormatUrlKeepsPlainHost`, `FormatUrlIpv6Only` and `LoopbackStepKeepsFirstZeroHost` state which spans change |
| UrlUtils.ZeroHostAfterLoopback | src/utils/url.utils.ts:7 | after `[::1]` is replaced by `localhost`, `0.0.0.0` occurs at a position exactly when it occurred in the input at that position before the splice, or four positions earlier after it; no span overlapping `localhost` matches |
| UrlUtils.LoopbackStepAddsNoZeroHost | src/utils/url.utils.ts:7 | the first replacement (`[::1]` to `localhost`) cannot create an occurrence of `0.0.0.0` in a URL that has none |
| UrlUtils.LoopbackStepKeepsFirstZeroHost | src/utils/url.utils.ts:7 | for every URL, the first `0.0.0.0` after the `[::1]` step is the input's first `0.0.0.0`: at the same index when it precedes `[::1]` (or there is no `[::1]`), four places later when it follows, and absent exactly when the input has none; so the second `replace` rewrites the `0.0.0.0` that came first in the original URL |
| UrlUtils.FormatUrlKeepsPlainHost | src/utils/url.utils.ts:6-7 | a URL containing neither `[::1]` nor `0.0.0.0` is returned unchanged |
| UrlUtils.FormatUrlIpv6Only | src/utils/url.utils.ts:6-7 | a URL without `0.0.0.0` is changed by the `[::1]` replacement alone |
| UrlUtils.FormatUrlIpv6Host | src/utils/url.utils.spec.ts:6-9 | a URL whose only loopback host is `[::1]` (and which has no `.`) gets `localhost` in its place and is otherwise unchanged |
| UrlUtils.FormatUrlAnyAddressHost | src/utils/url.utils.spec.ts:11-14 | a URL without `[` whose first `0` opens `0.0.0.0` gets `127.0.0.1` in its place and is otherwise unchanged |
| UrlUtils.FormatUrlPlainExample | src/utils/url.utils.spec.ts:16-19 | `http://127.0.0.1:3000` is returned unchanged |
| QuoteModel.FromQuote | src/stock/models/stock-price.class.ts:61-70 | each `StockPrice` field is the quote's corresponding field (`c`, `d`, `dp`, `h`, `l`, `o`, `pc`, and `t` still in seconds), with no validation |
| QuoteModel.FromQuoteIsLossless | src/stock/models/stock-price.class.ts:61-70 | the mapping is a bijection: reading a `StockPrice` back gives the quote, and every `StockPrice` comes from exactly one quote |
| QuoteModel.DateFromSeconds | src/stock/stock.cron.ts:58 | `new Date(t * 1000)`: a defined `t` in range gives whole milliseconds with `ms / 1000 == t`; `undefined` gives an Invalid Date; `null` gives the epoch; values out of range are invalid |
| QuoteService.NewStockService | src/stock/stock.service.ts:18-19 | the service's key and base URL are the `FINNHUB_KEY` and `FINNHUB_URL` settings |
| QuoteService.QuoteUrl | src/stock/stock.service.ts:23 | the request URL starts with the configured base URL and `/quote?symbol=` and ends with `&token=` and the configured key; `QuoteUrlRoundTrip` states that the symbol and key are read back from it |
| QuoteService.HasCurrentPrice | src/stock/stock.service.ts:29 | `data && data.c !== undefined`: a missing body fails it and a `null` `c` passes; `Attempt` and `OnlyCurrentPriceIsChecked` state what the check decides |
| QuoteService.Attempt | src/stock/stock.service.ts:25-36 | the `try` block succeeds exactly on a body with `c`, yielding `StockPrice(data)`; a reply without body or without `c` throws the 400 invalid-data exception; a rejected request propagates its status |
| QuoteService.CaughtStatus | src/stock/stock.service.ts:40 | `error.response?.status`: none for the code's own invalid-data exception, whose `response` is its message string, and the upstream status for a rejected request |
| QuoteService.StatusOr500 | src/stock/stock.service.ts:40 | a present non-zero status is kept; an absent or zero status becomes 500 |
| QuoteService.GetStockPrice | src/stock/stock.service.ts:22-43 | success exactly when the reply to the quote URL has a body with `c`, and then the result is `StockPrice(data)` with `currentPrice == c`; every failure carries `Error retrieving stock price`, with 500 for a bad body and the upstream status (or 500) for a rejected request |
| QuoteService.QuoteUrlRoundTrip | src/stock/stock.service.ts:23 | the request URL is base, `/quote?symbol=`, symbol, `&token=`, key: parsing it back yields the symbol and the key when the symbol has no `&` |
| QuoteService.GetStockPriceRequestsQuoteUrlOnly | src/stock/stock.service.ts:23-26 | the result depends on the HTTP client only through its reply to the one quote URL |
| QuoteService.OnlyCurrentPriceIsChecked | src/stock/stock.service.ts:29-30 | only `c` is checked: any body with `c` (even `null`) succeeds whatever its other fields, with price `c` and timestamp `t` |
| QuoteService.RequestFailureKeepsStatus | src/stock/stock.service.ts:37-41 | a rejected request yields `Error retrieving stock price` with the upstream status, or 500 when it has none or it is 0 |
| QuoteService.InvalidDataIsRewritten | src/stock/stock.service.ts:29-41 | as written, any reply without a body or whose body lacks `c` yields `Error retrieving stock price` with 500, not `Invalid data from Finnhub API` with 400 |
| QuoteService.GetStockPriceIntended | src/stock/stock.service.ts:31-41 | corrected: a reply without `c` yields `Invalid data from Finnhub API` with 400, while rejected requests are rewritten as before |
| QuoteService.IntendedDiffersOnlyOnInvalidData | src/stock/stock.service.ts:31-41 | the written and corrected versions agree exactly on the replies that are not a body lacking `c` |
| PriceCron.CronExpression | src/stock/stock.cron.ts:23 | a set, non-empty `CRON_EXPRESSION` is used; an unset or empty one gives `0 * * * * *`; the result is never empty |
| PriceCron.CronExpressionExamples | src/stock/stock.cron.ts:23 | `*/5 * * * * *` is used as is, an unset or empty setting gives the default, and choosing is idempotent |
| PriceCron.SetupFailure | src/stock/stock.cron.ts:25-35 | set-up succeeds exactly when constructing, registering and starting the job all succeed; otherwise the first failure is the one reported |
| PriceCron.RowFor | src/stock/stock.cron.ts:54-60 | the stored row has the symbol's id, the current price and the quote's seconds turned into a `Date` |
| PriceCron.Process | src/stock/stock.cron.ts:51-68 | a symbol's row is stored exactly when its fetch and its create both succeed; a failed fetch makes no create; the error reported is the one that occurred |
| PriceCron.Outcomes | src/stock/stock.cron.ts:50-69 | the tick treats each symbol in list order, each by `Process` on its own inputs |
| PriceCron.Codes | src/stock/stock.cron.ts:52 | the codes requested from the quote service are the symbols' codes, one each, in list order |
| PriceCron.LogLine | src/stock/stock.cron.ts:62-67 | a symbol's log line is `Price saved: <code> - <price>` exactly when its row was saved; otherwise it is `Error retrieving price: <code>` with the message of the error that occurred |
| PriceCron.TickLines | src/stock/stock.cron.ts:62-67 | the loop logs one line per symbol, in list order |
| PriceCron.SavedRowsCount | src/stock/stock.cron.ts:50-69 | the number of rows a tick stores equals the number of symbols whose fetch and create both succeeded |
| PriceCron.SavedRowsAreSuccesses | src/stock/stock.cron.ts:50-69 | a row is stored by a tick if and only if it is the row of a symbol whose fetch and create both succeeded |
| PriceCron.SavedRowsAppend | src/stock/stock.cron.ts:50-69 | rows are stored in list order: a tick over `a + b` stores `a`'s rows followed by `b`'s |
| PriceCron.FailureIsIsolated | src/stock/stock.cron.ts:63-68 | a symbol whose fetch or create fails changes nothing for the others: the tick stores the same rows as one over the list without it |
| PriceCron.TickLinesMatchRows | src/stock/stock.cron.ts:62-67 | `Price saved: <code> - <price>` is logged for a symbol exactly when its row was stored; every other symbol gets `Error retrieving price: <code>` with, as detail, the message of the error its fetch or else its create raised |
| PriceCron.OneOfTwoFails | src/stock/stock.cron.ts:50-69 | with two symbols whose first fetch fails, only the second's row is stored, and the first's error is logged before the second's `Price saved` |
| PriceCron.FetchResult | src/stock/stock.cron.ts:52 | awaiting `getStockPrice` yields its price, or throws its `HttpException` as an `Error` whose message is the exception's |
| PriceCron.ServiceFailureIsLogged | src/stock/stock.cron.ts:52-67 | whatever the upstream failure, the tick logs the service's message `Error retrieving stock price` under `Error retrieving price: <code>` |
| PriceCron.StockCron.constructor | src/stock/stock.cron.ts:13-20 | construction starts with the given price table and no calls, and sets up the job as `AddCronJob` does |
| PriceCron.StockCron.AddCronJob | src/stock/stock.cron.ts:22-36 | the job uses the chosen expression; it is registered and started only as far as the steps succeed; one line is logged, the set-up message or the invalid-expression error with the first failure; nothing is rethrown |
| PriceCron.StockCron.PollSymbol | src/stock/stock.cron.ts:51-68 | one iteration appends the symbol's code to the quote requests, its row to the create calls unless the fetch failed, the row to the table only when saved, and its one log line |
| PriceCron.StockCron.PollSymbols | src/stock/stock.cron.ts:50-69 | the loop appends exactly `SavedRows`, `CreateCalls`, `Codes` and `TickLines` of the tick's outcomes; existing rows and log lines are kept |
| PriceCron.StockCron.HandleCron | src/stock/stock.cron.ts:38-70 | a tick logs that it runs; with no active symbol it logs so and makes no call; otherwise it polls every symbol as `PollSymbols` states; a failed listing ends the tick with its error and nothing stored |

## Left out

- Process start-up, module wiring, Swagger and the HTTP controller (`src/main.ts`, `src/app.module.ts`, `src/stock/stock.module.ts`, `src/stock/stock.controller.ts`): framework wiring with no logic of their own.
- `activateSymbol`, `getStockData` and `getMovingAverage`: they are exercised by tests but implemented nowhere in the modelled sources, so they are not part of this model.
- The scheduler: when ticks fire, whether two ticks overlap, and the cron syntax itself. Whether an expression is invalid is an input (`construct`).
- HTTP, Prisma and the logger are collaborators. What each call yields is a parameter: a function from URL to outcome for HTTP, and per-symbol `Result`/`Outcome` values for the tick.
- QuoteModel.Price: prices are JavaScript numbers, modelled as `real`. Floating-point rounding, `NaN` and the number-to-text formatting of the `Price saved` line (`150` for `150.0`) are not modelled; the log entry carries the price value instead.
- QuoteModel.DateFromSeconds: timestamps are modelled as whole seconds. A fractional timestamp (such as `Date.now() / 1000`) and `TimeClip`'s truncation to whole milliseconds are not modelled, nor are non-numeric `t` values.
- QuoteService.StatusOr500: statuses are integers; a `NaN` or non-numeric `status`, which `||` would also treat by its truthiness, is not modelled.
- Exceptions.Detail: a thrown `null` or `undefined` reaches `String(error)` and is rendered. Reading `.response` of such a value inside the service's `catch` would raise a `TypeError`, which is not modelled, since the HTTP client never rejects with one.
- QuoteService.QuoteUrl: the symbol is interpolated without URL-encoding, as in the code. The round trip is stated only for symbols without `&`.
- Config.Get: a configuration value is either a string or unset. Non-string values from a `.env` loader are not modelled.
- PriceCron.StockCron.HandleCron: the active-symbol listing is an input. The `isActive: true` filter of the query is done by the database, and is not re-checked by the code.
- UrlUtils.FormatUrlIpv6Host and UrlUtils.FormatUrlAnyAddressHost state the documented `http://[::1]:3000` and `http://0.0.0.0:3000` cases generically, over the text before and after the host, rather than for those literal URLs.

## Findings

| source | as written | input that shows it | evidently intended | confidence | as-written member | corrected member |
|---|---|---|---|---|---|---|
| src/stock/stock.service.ts:29-41 | the `HttpException('Invalid data from Finnhub API', 400)` thrown inside the `try` is caught by the function's own `catch` and replaced by `HttpException('Error retrieving stock price', 500)`: a caught `HttpException`'s `response` is its message string, which has no `status` | a reply whose body is `{ h, l, o, pc }` with no `c` (the body of the test at src/stock/stock.service.spec.ts:113-135) | the invalid-data exception reaches the caller with its message and status 400, as the test expects | not executed | QuoteService.InvalidDataIsRewritten | QuoteService.GetStockPriceIntended |
