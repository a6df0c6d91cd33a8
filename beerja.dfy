/** The provider-independent domain values every backend delivers. */
module Beerja {
  import opened JsonDom

  datatype Exchange = Exchange(id: string, name: string)

  /** `id` is the trading symbol; `name` and `exchangeId` may be empty. */
  datatype Ticker = Ticker(id: string, name: string, exchangeId: string)

  /** A quote snapshot. Floating-point fields hold the JSON number they were
      read from; a sentinel stands for the -1 the backend writes. */
  datatype Quote = Quote(
    last: Number,
    change: Number,
    changePercent: Number,
    close: Number,
    open: Number,
    high: Number,
    low: Number,
    volume: Number)

  /** One price bar; `timestamp` is seconds since the epoch, `price` the
      volume-weighted average price. */
  datatype Granule = Granule(
    timestamp: int,
    volume: Number,
    open: Number,
    close: Number,
    high: Number,
    low: Number,
    price: Number)

  datatype Granularity = Minute | FiveMinutes | FifteenMinutes | Day

  /** The outcome reported to a callback. */
  datatype Status = Ok | Failure

  /** The float -1 the backend writes for a price it could not read. */
  const MinusOne: Number := Number("-1")

  /** A value-initialised quote, what a failed quote request delivers. */
  const DefaultQuote: Quote :=
    Quote(Number("0"), Number("0"), Number("0"), Number("0"),
          Number("0"), Number("0"), Number("0"), Number("0"))
}
