/** The Finnhub `Quote` response (src/stock/interfaces/finnhub-quote-response.interface.ts)
    and the `StockPrice` class built from it (src/stock/models/stock-price.class.ts). */
module QuoteModel {

  /** Prices are JavaScript numbers; the code only copies and compares them. */
  type Price = real

  /** A property of a JSON body: missing (`undefined`), `null`, or a value.
      The code tests `c !== undefined`, so `null` counts as present. */
  datatype Field<+T> = Undefined | Null | Defined(value: T)

  /** One body of the `Quote` endpoint: current price `c`, change `d`, percent
      change `dp`, high `h`, low `l`, open `o`, previous close `pc` and the
      timestamp `t` in epoch seconds. Each may be absent in an untrusted reply. */
  datatype FinnhubQuote = FinnhubQuote(
    c: Field<Price>,
    d: Field<Price>,
    dp: Field<Price>,
    h: Field<Price>,
    l: Field<Price>,
    o: Field<Price>,
    pc: Field<Price>,
    t: Field<int>)

  /** The `StockPrice` class: the quote under descriptive names. */
  datatype StockPrice = StockPrice(
    currentPrice: Field<Price>,
    change: Field<Price>,
    percentChange: Field<Price>,
    highPrice: Field<Price>,
    lowPrice: Field<Price>,
    openPrice: Field<Price>,
    previousClosePrice: Field<Price>,
    timestamp: Field<int>)

  /** `new StockPrice(finnhubData)`: copies each field to its named counterpart,
      with no validation and no unit conversion (the timestamp stays in seconds). */
  function FromQuote(q: FinnhubQuote): (p: StockPrice)
    ensures p.currentPrice == q.c
    ensures p.change == q.d && p.percentChange == q.dp
    ensures p.highPrice == q.h && p.lowPrice == q.l
    ensures p.openPrice == q.o && p.previousClosePrice == q.pc
    ensures p.timestamp == q.t
  {
    StockPrice(q.c, q.d, q.dp, q.h, q.l, q.o, q.pc, q.t)
  }

  /** The quote a `StockPrice` was built from, read back field by field. */
  function ToQuote(p: StockPrice): (q: FinnhubQuote)
    ensures q.c == p.currentPrice && q.t == p.timestamp
    ensures q.d == p.change && q.dp == p.percentChange
    ensures q.h == p.highPrice && q.l == p.lowPrice
    ensures q.o == p.openPrice && q.pc == p.previousClosePrice
  {
    FinnhubQuote(p.currentPrice, p.change, p.percentChange, p.highPrice,
                 p.lowPrice, p.openPrice, p.previousClosePrice, p.timestamp)
  }

  /** The mapping loses nothing: it is a bijection between quotes and prices. */
  lemma FromQuoteIsLossless(q: FinnhubQuote, p: StockPrice)
    ensures ToQuote(FromQuote(q)) == q
    ensures FromQuote(ToQuote(p)) == p
    ensures FromQuote(q) == p <==> q == ToQuote(p)
  {
  }

  /** A JavaScript `Date`: a time value in milliseconds, or an Invalid Date. */
  datatype Date = Date(ms: int) | InvalidDate

  /** The largest magnitude of a valid time value (ECMAScript `TimeClip`):
      8.64e15 ms, one hundred million days either side of the epoch. */
  const MaxTimeValue: int := 8_640_000_000_000_000

  /** `new Date(timestamp * 1000)`: `undefined * 1000` is `NaN`, giving an
      Invalid Date; `null * 1000` is 0, the epoch; a time value beyond
      `MaxTimeValue` gives an Invalid Date. */
  function DateFromSeconds(t: Field<int>): (d: Date)
    ensures d.Date? ==> -MaxTimeValue <= d.ms <= MaxTimeValue && d.ms % 1000 == 0
    ensures t.Undefined? ==> d.InvalidDate?
    ensures t.Null? ==> d == Date(0)
    ensures t.Defined? ==> (d.Date? <==> -MaxTimeValue <= t.value * 1000 <= MaxTimeValue)
    ensures t.Defined? && d.Date? ==> d.ms / 1000 == t.value
  {
    match t
    case Undefined => InvalidDate
    case Null => Date(0)
    case Defined(s) =>
      var ms := s * 1000;
      if -MaxTimeValue <= ms <= MaxTimeValue then Date(ms) else InvalidDate
  }
}
