# Tradier market-data backend, modelled in Dafny

This project models the Tradier backend of the beerja stock screener
(`src/backend/tradier.cpp`). The backend fetches four kinds of market data
and hands each result to a caller-supplied callback:

- the exchange catalogue, a compiled-in table of 22 exchanges;
- a ticker search (`markets/search`);
- a single-symbol quote (`markets/quotes`);
- a historical price series (`markets/timesales`).

Every fetch returns an asynchronous-operation handle that can be cancelled.

The model has these parts:

- **JSON tree** (`json.dfy`, module `JsonDom`): the tree `jsondom::read`
  produces. It has object, array, string, number, boolean and null nodes.
  A number is kept as its literal text. The strict accessors `.object()`,
  `.array()`, `.string()`, `.number()` and `.at(key)` return a `Result` that
  is an `Error` where the C++ would throw. The lenient accessor is `find`.
- **Domain values** (`beerja.dfy`): exchanges, tickers, quotes, granules,
  granularity and the ok/failure status.
- **Parsers** (`tradier_parsers.dfy`). Each parser is a function that states
  what the parse yields. `parse_ticker_list` and `parse_prices` loop over an
  array in the source, so each is also a method with that loop, proved equal
  to its function. The ticker-list parser is lenient: a broken path yields
  the empty list, and unusable elements are skipped. The quote and price
  parsers are strict: one missing key or one node of the wrong kind fails
  the whole parse. The lemmas prove this asymmetry.
- **Transport objects** (`httpc.dfy`, `async.dfy`):
  - the HTTP request object the backend configures and starts;
  - the handle, whose weak link to the request is an `Option`;
  - a `Listener` that stands for the non-null callback. It records every
    call it receives, and says whether a call with ok, or with failure,
    throws.
- **Backend** (`tradier.dfy`):
  - the `Tradier` class, whose one mutable field is the access token;
  - request construction: URLs, headers and the time window;
  - the completion handlers, which turn a finished call into a call of the
    callback. It is called exactly once unless it throws on an ok result;
    the handler then calls it a second time, with failure (see Findings);
  - `Settle`, the case split all three handlers share.

Foreign functions are taken as function-valued parameters, bundled in
`Collaborators`. These are `httpc::escape`, `backend::get_start_time`, the
date library's formatting and the `%FT%T` date parser. The model never
interprets them. The transport's completion is modelled as a call to
`CompleteTickerSearch`, `CompleteQuote` or `CompletePrices`. Each requires
the handle's request to record the callback it was issued for, so it runs
with the callback and the handle that the operation captured.

On these points the model follows the code as written:

- `parse_quote` reads `close`, `open`, `high` and `low` with `.at`. A
  missing one therefore fails the parse. Only a present value that is not a
  number becomes -1.
- `get_prices` with the daily granularity only has a debug-build assertion.
  In the code it returns a handle with no request, and the callback never
  runs. It is not a fatal error.
- `get_prices` ignores its `from` argument. The start bound comes from `to`
  and the granularity alone.
- A non-object response root in `parse_ticker_list` also only has a
  debug-build assertion. It yields the empty list.
- The null-callback error of `get_prices` carries the message
  "tradier::get_quote(): …", as the code has it.
- `get_exchanges` calls its callback before returning. If the callback
  throws, the exception leaves `get_exchanges` and the handle is never
  returned.

## Model

| member | source | states |
|---|---|---|
| `Async.AsyncOperation.Cancel` | src/backend/tradier.cpp:43-48 | with no linked request, or one that is no longer alive, cancel returns false; otherwise it returns the request's own cancel answer |
| `TradierBackend.CancelAfterCompletion` | src/backend/tradier.cpp:43-48 | after a search completes and its request is released, a callback that does not throw has run exactly once, and cancel reports false |
| `TradierBackend.FindTree` | src/backend/tradier.cpp:54 | `std::find` over the config forest gives the first index whose value matches, or the length when none does |
| `TradierBackend.ConfiguredToken` | src/backend/tradier.cpp:54-59 | with no `access_token` tree the token is kept; otherwise the first such tree decides: its first child's value if it has children, else the old token |
| `TradierBackend.Tradier.SetConfig` | src/backend/tradier.cpp:52-62 | the access token afterwards is `ConfiguredToken` of the config and the previous token |
| `TradierBackend.ExchangeTable` | src/backend/tradier.cpp:76-99 | the body is the table, in the source's listed order; the contract states it has 22 entries, each id a single letter, with pairwise distinct ids |
| `TradierBackend.Tradier.GetExchanges` | src/backend/tradier.cpp:64-106 | a null callback gives the logic error; otherwise the callback runs once, synchronously, with ok, a fresh handle with no request, and the 22-entry table; the handle is returned unless the callback throws, in which case the exception leaves the operation |
| `TradierParsers.SecurityArray` | src/backend/tradier.cpp:110-127 | the `securities.security` array when the root, `securities` and `security` have the right kinds, and the empty sequence otherwise |
| `TradierParsers.TickerListEmptyWithoutSecurities` | src/backend/tradier.cpp:110-125 | a non-object root, or a missing or mistyped `securities` or `security`, gives the empty ticker list and not an error |
| `TradierParsers.TickerOf` | src/backend/tradier.cpp:131-160 | an element yields a ticker iff it is an object with a string `symbol`; the id is the symbol, and name and exchange id are `description` and `exchange` when strings, else "" |
| `TradierParsers.TickersAreUsableSubsequence` | src/backend/tradier.cpp:129-163 | the tickers are the usable elements in order: the k-th ticker comes from the k-th usable position, the positions increase, every usable element is included, and there are no more tickers than elements |
| `TradierParsers.TickersOfAppend` | src/backend/tradier.cpp:131-161 | parsing a concatenation appends the parts' results in order: each element is handled on its own |
| `TradierParsers.TickersSkipUnusable` | src/backend/tradier.cpp:131-141 | an element that is not an object with a string `symbol` changes nothing: the result is as if it were absent |
| `TradierParsers.ParseTickerList` | src/backend/tradier.cpp:109-164 | the loop returns exactly `TickerList` of the response, which is no longer than the `security` array |
| `TradierBackend.Tradier.FindTicker` | src/backend/tradier.cpp:167-212 | a null callback gives the logic error before any request exists; otherwise a fresh handle is weakly linked to a fresh, started request that captured this callback, with the search URL and the Bearer/Accept headers |
| `TradierBackend.SearchUrl` | src/backend/tradier.cpp:202 | the search URL lies under the base endpoint's `markets/search?q=` |
| `TradierBackend.SearchUrlDeterminesQuery` | src/backend/tradier.cpp:202 | two searches issue the same URL exactly when their escaped queries are equal |
| `TradierBackend.Settle` | src/backend/tradier.cpp:182-198 | the shared completion split: ok iff the transport is ok, the status is 200, the body reads and the parser succeeds; then the parsed value, otherwise the fallback value |
| `TradierBackend.SettleIgnoresParserOnFailure` | src/backend/tradier.cpp:184-188 | on a transport failure or a non-200 status the outcome is failure with the fallback, whichever parser is given: the parser is not consulted |
| `TradierBackend.TickerSearchOutcome` | src/backend/tradier.cpp:182-198 | a search fails only when the transport fails, the status is not 200 or the body does not read; a readable body always gives ok with its ticker list, the empty one when the containers are missing |
| `TradierBackend.AsWrittenDeliveries` | src/backend/tradier.cpp:190-197 | a callback called with ok inside the `try` block receives that call, plus a failure with the fallback exactly when the outcome is ok and the callback throws on ok |
| `TradierBackend.CompleteTickerSearch` | src/backend/tradier.cpp:182-198 | the search completion delivers `TickerSearchOutcome` with the captured handle; a callback that throws on ok is called again with failure and the empty list; an exception leaves the handler iff the last call threw |
| `TradierParsers.ParseQuote` | src/backend/tradier.cpp:224-241 | succeeds iff `quotes` and `quote` are objects, all eight keys are present, and `last`, `change`, `change_percentage` and `volume` are numbers; it then copies those four, and `close`/`open`/`high`/`low` are their number or -1 |
| `TradierBackend.QuoteOutcome` | src/backend/tradier.cpp:259-279 | a quote is ok iff transport ok, status 200, the body reads and the quote is well formed; a failure delivers the default quote |
| `TradierBackend.CompleteQuote` | src/backend/tradier.cpp:259-279 | the quote completion delivers `QuoteOutcome` with the captured handle; a callback that throws on ok is called again with failure and the default quote; an exception leaves the handler iff the last call threw |
| `TradierParsers.GetFloat` | src/backend/tradier.cpp:215-220 | a number node gives its value; any other node gives -1 |
| `TradierBackend.Tradier.GetQuote` | src/backend/tradier.cpp:244-293 | a null callback gives the logic error before any request exists; otherwise a fresh handle is weakly linked to a fresh, started request that captured this callback, with the quote URL and the Bearer/Accept headers |
| `TradierBackend.QuoteUrl` | src/backend/tradier.cpp:283 | the quote URL lies under the base endpoint's `markets/quotes?symbols=` |
| `TradierBackend.QuoteUrlDeterminesSymbol` | src/backend/tradier.cpp:283 | two quote requests issue the same URL exactly when their escaped symbols are equal |
| `TradierParsers.SeriesData` | src/backend/tradier.cpp:306 | the path `series.data` succeeds iff root and `series` are objects and `data` is an array, and yields that array |
| `TradierParsers.GranuleOf` | src/backend/tradier.cpp:311-321 | an element converts iff it is an object with a string `time` and numeric `volume`, `open`, `close`, `high`, `low` and `vwap`; the price is `vwap` and the timestamp is the parsed `time` |
| `TradierParsers.GranulesAllOrNothing` | src/backend/tradier.cpp:310-322 | the elements convert iff every one is well formed; then there is one granule per element, in order |
| `TradierParsers.GranulesErrorPersists` | src/backend/tradier.cpp:310-322 | once a prefix of the elements has failed, the whole array fails with the same error: there are no partial results |
| `TradierParsers.PricesAllOrNothing` | src/backend/tradier.cpp:305-325 | parse_prices succeeds iff `series.data` is an array of well-formed elements; then the output matches `data` in length and order, with each price taken from `vwap` |
| `TradierParsers.ParsePrices` | src/backend/tradier.cpp:305-325 | the loop, which stops at the first element that throws, returns exactly `Prices` of the response |
| `TradierBackend.PricesOutcome` | src/backend/tradier.cpp:352-369 | a series is ok iff transport ok, status 200, the body reads, and `series.data` is an array of well-formed elements; on ok the value is what parse_prices returns, one granule per element; a failure delivers the empty series |
| `TradierBackend.CompletePrices` | src/backend/tradier.cpp:352-369 | the series completion delivers `PricesOutcome` with the captured handle; a callback that throws on ok is called again with failure and the empty series; an exception leaves the handler iff the last call threw |
| `TradierBackend.SearchCallsThrowingCallbackTwice` | src/backend/tradier.cpp:190-197 | a readable 200 search answer given to a callback that throws on ok yields the calls ok, then failure |
| `TradierBackend.QuoteCallsThrowingCallbackTwice` | src/backend/tradier.cpp:267-278 | a well-formed 200 quote given to a callback that throws on ok yields the calls ok, then failure |
| `TradierBackend.PricesCallsThrowingCallbackTwice` | src/backend/tradier.cpp:360-368 | a well-formed 200 series given to a callback that throws on ok yields the calls ok, then failure |
| `TradierBackend.CompleteTickerSearchOnce` | src/backend/tradier.cpp:182-198 | with the callback moved out of `try`, the search completion delivers `TickerSearchOutcome` exactly once, whatever the callback does |
| `TradierBackend.CompleteQuoteOnce` | src/backend/tradier.cpp:259-279 | with the callback moved out of `try`, the quote completion delivers `QuoteOutcome` exactly once, whatever the callback does |
| `TradierBackend.CompletePricesOnce` | src/backend/tradier.cpp:352-369 | with the callback moved out of `try`, the series completion delivers `PricesOutcome` exactly once, whatever the callback does |
| `TradierBackend.IntervalToken` | src/backend/tradier.cpp:373-387 | the interval token is empty exactly for the daily granularity, and is "1min"/"5min"/"15min" otherwise |
| `TradierBackend.FloorToMinutes` | src/backend/tradier.cpp:393-403 | flooring to minutes gives the minute whose 60 seconds contain the time point |
| `TradierBackend.TimesalesUrl` | src/backend/tradier.cpp:410-414 | the series URL lies under the base endpoint's `markets/timesales?symbol=`; it is built from the symbol, the interval, the floored start and `to`, and has no `from` argument |
| `TradierBackend.TimesalesUrlDistinguishesGranularity` | src/backend/tradier.cpp:373-387 | two different supported granularities for the same symbol and `to` give different URLs, whatever start bound `get_start_time` picks for each: the interval token tells them apart |
| `TradierBackend.StartBeforeEnd` | src/backend/tradier.cpp:399-403 | when `get_start_time` lies strictly before the end bound, the floored start bound is strictly before it too |
| `TradierBackend.Tradier.Issue` | src/backend/tradier.cpp:180-209 | the handle is weakly linked to a fresh request that captured the callback, has the given URL, carries the Bearer token and the JSON Accept header, and has been started |
| `TradierBackend.Tradier.GetPrices` | src/backend/tradier.cpp:328-424 | a null callback gives the logic error; the daily granularity gives a handle with no request; otherwise the request's URL is built from the symbol, the interval, the floored start from `get_start_time(to, gran)` and the end `to`, never from `from` |

## Findings

The completion handlers call the callback with ok inside their `try`
block. The `catch` that follows is meant for a body that does not read or
parse, but it also catches an exception thrown by the callback itself. It
then calls the same callback a second time, with failure. The handlers
above model the code as written. The `…Once` handlers compute the outcome
inside the `try` block and call the callback once, after it; they are
proved to deliver exactly one call whatever the callback does.

| source | as written | input that shows it | evidently intended | confidence | as-written member | corrected member |
|---|---|---|---|---|---|---|
| src/backend/tradier.cpp:190-197 | the ok callback runs inside `try`, and `catch(...)` calls the callback again with failure | transport ok, status 200, any readable body, a callback that throws on ok | exactly one callback per search | medium, not executed | `TradierBackend.SearchCallsThrowingCallbackTwice` | `TradierBackend.CompleteTickerSearchOnce` |
| src/backend/tradier.cpp:267-278 | the ok callback runs inside `try`, and both `catch` clauses call the callback again with failure | transport ok, status 200, a well-formed quote, a callback that throws on ok | exactly one callback per quote | medium, not executed | `TradierBackend.QuoteCallsThrowingCallbackTwice` | `TradierBackend.CompleteQuoteOnce` |
| src/backend/tradier.cpp:360-368 | the ok callback runs inside `try`, and `catch(...)` calls the callback again with failure | transport ok, status 200, an empty `series.data` array, a callback that throws on ok | exactly one callback per series | medium, not executed | `TradierBackend.PricesCallsThrowingCallbackTwice` | `TradierBackend.CompletePricesOnce` |

## Left out

- HTTPS transport: the transfer itself, its asynchronous completion, and
  the race between cancel and completion are not modelled. They are
  concurrency inside a foreign library. Completion is an explicit call to a
  `Complete…` method. The release of the request is `HttpRequest.Release`.
  The transport's own answer to a cancel request is the field
  `cancelAnswer`, which the model leaves unconstrained.
- Reading bytes into JSON (`jsondom::read`) is a foreign library. A response
  carries the tree it reads, or `None` when the read throws.
- Float and integer conversion (`to_float`, `to_uint64`) is not modelled,
  because it is floating point inside a foreign library. Numeric fields
  hold the JSON number they came from. The value -1 is written as the
  number literal "-1".
- `TradierParsers.ParseQuote`: does not model a `volume` that
  `to_uint64` cannot convert, because the conversion is not modelled.
- `TradierParsers.GranuleOf`: does not model a `volume` that `to_uint64`
  cannot convert, nor a price that `to_float` cannot convert, because the
  conversions are not modelled.
- A callback is modelled as throwing or not according to the status it is
  called with. Exceptions that depend on the delivered value are not
  modelled, and an exception that leaves a completion handler is only
  reported, because what the transport does with it is outside the model.
- Date handling is taken as uninterpreted parameters. This covers
  `parse_datetime`, the textual form of time points and
  `backend::get_start_time`, whose source is not part of this model.
  `get_start_time` is taken to give seconds since the epoch. `to` and
  `from` are minutes since the epoch.
- `beerja::quote` is declared in a header that is not part of this model.
  Its value-initialised form, which a failed quote delivers, is taken to be
  all zeros (`DefaultQuote`).
- The `Tradier` constructor and the other members of the header are not
  part of this model. The model starts with an empty access token.
- `LOG` output is not modelled. It is logging only.
- Debug-build `ASSERT`s are not modelled. Release behaviour is modelled.
- `src/gui/cells_container.hpp` is GUI widget layout and holds
  declarations only.
