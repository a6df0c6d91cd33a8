/** The Tradier backend: request construction, the completion handlers that
    turn a finished HTTP call into exactly one callback, the fixed exchange
    table, configuration, and the handle's cancellation (in Async). */
module TradierBackend {
  import opened Wrappers
  import opened JsonDom
  import opened Beerja
  import opened Httpc
  import opened Async
  import opened TradierParsers

  const EndPoint: string := "https://sandbox.tradier.com/v1/"

  /** Functions the backend calls into but that are not part of this model:
      `escape` is httpc::escape; `startTime` is backend::get_start_time,
      taking the end bound in minutes and giving seconds since the epoch;
      `formatMinutes` is the date library's text form of a minute-resolution
      time point; `parseDateTime` is the `%FT%T` date parser. */
  datatype Collaborators = Collaborators(
    escape: string -> string,
    startTime: (int, Granularity) -> int,
    formatMinutes: int -> string,
    parseDateTime: string -> int)

  /** What an operation can throw to its caller: the std::logic_error for a
      null callback, or whatever a callback run synchronously throws. */
  datatype Exception = LogicError(message: string) | CallbackException

  // ---------------------------------------------------------------------
  // Configuration (treeml)
  // ---------------------------------------------------------------------

  datatype Tree = Tree(value: string, children: seq<Tree>)

  const AccessTokenKey: string := "access_token"

  /** std::find over a forest: the index of the first tree with the given
      value, or the forest's length when there is none. */
  function FindTree(forest: seq<Tree>, value: string): (i: nat)
    ensures i <= |forest|
    ensures i < |forest| ==> forest[i].value == value
    ensures forall j :: 0 <= j < i ==> forest[j].value != value
  {
    if forest == [] then 0
    else if forest[0].value == value then 0
    else 1 + FindTree(forest[1..], value)
  }

  /** The token after configuring: the first child of the first
      `access_token` tree, if that tree has children; otherwise unchanged. */
  function ConfiguredToken(config: seq<Tree>, current: string): (token: string)
    ensures (forall j :: 0 <= j < |config| ==> config[j].value != AccessTokenKey) ==> token == current
    ensures forall j :: 0 <= j < |config| && config[j].value == AccessTokenKey
                        && (forall k :: 0 <= k < j ==> config[k].value != AccessTokenKey) ==>
      token == (if config[j].children != [] then config[j].children[0].value else current)
  {
    var i := FindTree(config, AccessTokenKey);
    if i < |config| && config[i].children != [] then config[i].children[0].value else current
  }

  // ---------------------------------------------------------------------
  // Requests
  // ---------------------------------------------------------------------

  function RequestHeaders(accessToken: string): map<string, string>
  {
    map["Authorization" := "Bearer " + accessToken, "Accept" := "application/json"]
  }

  /** The search URL: the query, escaped, is the `q` parameter. */
  function SearchUrl(ext: Collaborators, query: string): (url: string)
    ensures EndPoint + "markets/search?q=" <= url
  {
    EndPoint + "markets/search?q=" + ext.escape(query) + "&indexes=false"
  }

  /** The quote URL: the symbol, escaped, is the `symbols` parameter. */
  function QuoteUrl(ext: Collaborators, symbol: string): (url: string)
    ensures EndPoint + "markets/quotes?symbols=" <= url
  {
    EndPoint + "markets/quotes?symbols=" + ext.escape(symbol) + "&greeks=false"
  }

  /** Between a fixed prefix and a fixed suffix, equal texts have equal middles. */
  lemma MiddleDetermined(prefix: string, a: string, b: string, suffix: string)
    requires prefix + a + suffix == prefix + b + suffix
    ensures a == b
  {
    var whole := prefix + a + suffix;
    assert |a| == |b|;
    assert a == whole[|prefix|..|prefix| + |a|];
    assert b == (prefix + b + suffix)[|prefix|..|prefix| + |b|];
  }

  /** Two searches issue the same URL exactly when their escaped queries agree. */
  lemma SearchUrlDeterminesQuery(ext: Collaborators, q1: string, q2: string)
    ensures SearchUrl(ext, q1) == SearchUrl(ext, q2) <==> ext.escape(q1) == ext.escape(q2)
  {
    if SearchUrl(ext, q1) == SearchUrl(ext, q2) {
      MiddleDetermined(EndPoint + "markets/search?q=", ext.escape(q1), ext.escape(q2), "&indexes=false");
    }
  }

  /** Two quote requests issue the same URL exactly when their escaped symbols agree. */
  lemma QuoteUrlDeterminesSymbol(ext: Collaborators, s1: string, s2: string)
    ensures QuoteUrl(ext, s1) == QuoteUrl(ext, s2) <==> ext.escape(s1) == ext.escape(s2)
  {
    if QuoteUrl(ext, s1) == QuoteUrl(ext, s2) {
      MiddleDetermined(EndPoint + "markets/quotes?symbols=", ext.escape(s1), ext.escape(s2), "&greeks=false");
    }
  }

  /** The `interval` query value; the daily granularity never reaches the
      switch, and would leave the token empty. */
  function IntervalToken(gran: Granularity): (token: string)
    ensures token == "" <==> gran == Day
    ensures gran == Minute ==> token == "1min"
    ensures gran == FiveMinutes ==> token == "5min"
    ensures gran == FifteenMinutes ==> token == "15min"
  {
    match gran
    case Minute => "1min"
    case FiveMinutes => "5min"
    case FifteenMinutes => "15min"
    case Day => ""
  }

  /** floor<minutes> of a seconds-resolution time point. */
  function FloorToMinutes(seconds: int): (minutes: int)
    ensures minutes * 60 <= seconds < minutes * 60 + 60
  {
    seconds / 60
  }

  /** The start bound of a series request, in minutes: get_start_time of
      the end bound, floored. It depends on `to` and the granularity only. */
  function StartMinute(ext: Collaborators, to: int, gran: Granularity): int
  {
    FloorToMinutes(ext.startTime(to, gran))
  }

  /** The series URL. The end bound `to` already has minute resolution, so
      flooring leaves it as it is. The caller's `from` has no say in it. */
  function TimesalesUrl(ext: Collaborators, symbol: string, to: int, gran: Granularity): (url: string)
    ensures EndPoint + "markets/timesales?symbol=" <= url
  {
    EndPoint + "markets/timesales?symbol=" + ext.escape(symbol)
      + "&session_filter=open&interval=" + IntervalToken(gran)
      + "&start=" + ext.escape(ext.formatMinutes(StartMinute(ext, to, gran)))
      + "&end=" + ext.escape(ext.formatMinutes(to))
  }

  /** Requests for two different supported granularities over the same
      symbol and end bound never share a URL, whatever start bound each one gets:
      the interval token, which comes before `&start=`, tells them apart. */
  lemma TimesalesUrlDistinguishesGranularity(ext: Collaborators, symbol: string, to: int,
                                             g1: Granularity, g2: Granularity)
    requires g1 != Day && g2 != Day && g1 != g2
    ensures TimesalesUrl(ext, symbol, to, g1) != TimesalesUrl(ext, symbol, to, g2)
  {
    var head := EndPoint + "markets/timesales?symbol=" + ext.escape(symbol) + "&session_filter=open&interval=";
    // The tokens "1min", "5min" and "15min" differ within their first two characters.
    var t1, t2 := IntervalToken(g1), IntervalToken(g2);
    var k := if t1[0] != t2[0] then 0 else 1;
    assert t1[k] != t2[k];
    assert TimesalesUrl(ext, symbol, to, g1)[|head| + k] == t1[k];
    assert TimesalesUrl(ext, symbol, to, g2)[|head| + k] == t2[k];
  }

  /** When get_start_time lands strictly before the end bound, so does the
      floored start bound. */
  lemma StartBeforeEnd(ext: Collaborators, to: int, gran: Granularity)
    requires ext.startTime(to, gran) < to * 60
    ensures StartMinute(ext, to, gran) < to
  {
  }

  // ---------------------------------------------------------------------
  // Exchanges
  // ---------------------------------------------------------------------

  /** The compiled-in exchange table, in its listed order. */
  function ExchangeTable(): (table: seq<Exchange>)
    ensures |table| == 22
    ensures forall i :: 0 <= i < |table| ==> |table[i].id| == 1
    ensures forall i, j :: 0 <= i < j < |table| ==> table[i].id != table[j].id
  {
    [ Exchange("A", "NYSE MKT"),
      Exchange("B", "NASDAQ OMX BX"),
      Exchange("C", "National Stock Exchange"),
      Exchange("D", "FINRA ADF"),
      Exchange("E", "Market Independent (Generated by Nasdaq SIP)"),
      Exchange("F", "Mutual Funds/Money Markets (NASDAQ)"),
      Exchange("I", "International Securities Exchange"),
      Exchange("J", "Direct Edge A"),
      Exchange("K", "Direct Edge X"),
      Exchange("M", "Chicago Stock Exchange"),
      Exchange("N", "NYSE"),
      Exchange("P", "NYSE Arca"),
      Exchange("Q", "NASDAQ OMX"),
      Exchange("S", "NASDAQ Small Cap"),
      Exchange("T", "NASDAQ Int"),
      Exchange("U", "OTCBB"),
      Exchange("V", "OTC other"),
      Exchange("W", "CBOE"),
      Exchange("X", "NASDAQ OMX PSX"),
      Exchange("G", "GLOBEX"),
      Exchange("Y", "BATS Y-Exchange"),
      Exchange("Z", "BATS") ]
  }

  // ---------------------------------------------------------------------
  // Completion: transport result -> one callback
  // ---------------------------------------------------------------------

  /** The status and result a completion handler hands to its callback. */
  datatype Outcome<T> = Outcome(status: Status, value: T)

  /** The shape every completion handler shares: a transport or HTTP failure
      gives the fallback without parsing; otherwise the body is read and
      parsed, and anything thrown on the way gives the fallback too. */
  function Settle<T>(transport: TransportStatus, resp: Response,
                     parse: Json -> Result<T, ParseError>, fallback: T): (o: Outcome<T>)
    ensures o.status == Ok <==>
      && transport == TransportOk && resp.status == HttpOk
      && resp.body.Some? && parse(resp.body.value).Success?
    ensures o.status == Ok ==> o.value == parse(resp.body.value).value
    ensures o.status == Failure ==> o.value == fallback
  {
    if transport != TransportOk || resp.status != HttpOk then Outcome(Failure, fallback)
    else match resp.body
      case None => Outcome(Failure, fallback)
      case Some(json) =>
        match parse(json)
        case Success(v) => Outcome(Ok, v)
        case Error(_) => Outcome(Failure, fallback)
  }

  /** A transport or HTTP failure settles the same whatever the parser: the
      parser is never consulted. */
  lemma SettleIgnoresParserOnFailure<T>(transport: TransportStatus, resp: Response,
                                        p1: Json -> Result<T, ParseError>,
                                        p2: Json -> Result<T, ParseError>, fallback: T)
    requires transport != TransportOk || resp.status != HttpOk
    ensures Settle(transport, resp, p1, fallback) == Settle(transport, resp, p2, fallback)
    ensures Settle(transport, resp, p1, fallback) == Outcome(Failure, fallback)
  {
  }

  /** Ticker search never fails once a 200 body has been read: a broken
      container is "no results", not an error. */
  function TickerSearchOutcome(transport: TransportStatus, resp: Response): (o: Outcome<seq<Ticker>>)
    ensures o.status == Ok <==> transport == TransportOk && resp.status == HttpOk && resp.body.Some?
    ensures o.status == Ok ==> o.value == TickerList(resp.body.value)
    ensures o.status == Ok && !HasSecurityArray(resp.body.value) ==> o.value == []
    ensures o.status == Failure ==> o.value == []
  {
    Settle(transport, resp, (json: Json) => Success(TickerList(json)), [])
  }

  /** A quote is delivered only for a 200 body whose structure is complete. */
  function QuoteOutcome(transport: TransportStatus, resp: Response): (o: Outcome<Quote>)
    ensures o.status == Ok <==>
      transport == TransportOk && resp.status == HttpOk && resp.body.Some? && QuoteWellFormed(resp.body.value)
    ensures o.status == Ok ==> o.value == ParseQuote(resp.body.value).value
    ensures o.status == Failure ==> o.value == DefaultQuote
  {
    Settle(transport, resp, ParseQuote, DefaultQuote)
  }

  /** A series is delivered only for a 200 body whose `series.data` is an
      array of well-formed elements, one granule per element. */
  function PricesOutcome(ext: Collaborators, transport: TransportStatus, resp: Response): (o: Outcome<seq<Granule>>)
    ensures o.status == Ok <==>
      && transport == TransportOk && resp.status == HttpOk && resp.body.Some?
      && HasSeriesArray(resp.body.value)
      && forall i :: 0 <= i < |SeriesData(resp.body.value).value| ==>
           GranuleWellFormed(SeriesData(resp.body.value).value[i])
    ensures o.status == Ok ==>
      Prices(resp.body.value, ext.parseDateTime).Success? && o.value == Prices(resp.body.value, ext.parseDateTime).value
    ensures o.status == Ok ==> |o.value| == |SeriesData(resp.body.value).value|
    ensures o.status == Failure ==> o.value == []
  {
    var parse := (json: Json) => Prices(json, ext.parseDateTime);
    match resp.body
    case Some(json) =>
      PricesAllOrNothing(json, ext.parseDateTime);
      Settle(transport, resp, parse, [])
    case None =>
      Settle(transport, resp, parse, [])
  }

  /** What a callback receives from a handler that calls it with `ok` inside
      its `try` block: when that call throws, the `catch` calls it once more,
      with failure and the fallback. */
  function AsWrittenDeliveries<T>(o: Outcome<T>, asop: AsyncOperation, fallback: T, throwsOnOk: bool)
    : (ds: seq<Delivery<T>>)
    ensures 1 <= |ds| <= 2 && ds[0] == Delivery(o.status, asop, o.value)
    ensures |ds| == 2 <==> o.status == Ok && throwsOnOk
    ensures |ds| == 2 ==> ds[1] == Delivery(Failure, asop, fallback)
  {
    if o.status == Ok && throwsOnOk
    then [Delivery(Ok, asop, o.value), Delivery(Failure, asop, fallback)]
    else [Delivery(o.status, asop, o.value)]
  }

  /** Whether an exception leaves such a handler: it is the last call's. */
  predicate AsWrittenEscapes<T>(o: Outcome<T>, callback: Listener<T>)
  {
    callback.throwsOnFailure && (o.status == Failure || callback.throwsOnOk)
  }

  /** find_ticker's completion handler. It runs with the callback and the
      handle it captured. */
  method CompleteTickerSearch(callback: Listener<seq<Ticker>>, asop: AsyncOperation,
                              transport: TransportStatus, resp: Response)
    returns (escaped: bool)
    requires asop.httpReq.Some? && asop.httpReq.value.callback == callback
    modifies callback
    ensures var o := TickerSearchOutcome(transport, resp);
      && callback.received == old(callback.received) + AsWrittenDeliveries(o, asop, [], callback.throwsOnOk)
      && escaped == AsWrittenEscapes(o, callback)
  {
    if transport != TransportOk || resp.status != HttpOk {
      escaped := callback.Call(Failure, asop, []);
      return;
    }
    match resp.body {
      case None =>
        escaped := callback.Call(Failure, asop, []);
      case Some(json) =>
        var tickers := ParseTickerList(json);
        var threw := callback.Call(Ok, asop, tickers);
        if threw {
          escaped := callback.Call(Failure, asop, []);
        } else {
          escaped := false;
        }
    }
  }

  /** get_quote's completion handler. */
  method CompleteQuote(callback: Listener<Quote>, asop: AsyncOperation,
                       transport: TransportStatus, resp: Response)
    returns (escaped: bool)
    requires asop.httpReq.Some? && asop.httpReq.value.callback == callback
    modifies callback
    ensures var o := QuoteOutcome(transport, resp);
      && callback.received == old(callback.received) + AsWrittenDeliveries(o, asop, DefaultQuote, callback.throwsOnOk)
      && escaped == AsWrittenEscapes(o, callback)
  {
    if transport != TransportOk || resp.status != HttpOk {
      escaped := callback.Call(Failure, asop, DefaultQuote);
      return;
    }
    match resp.body {
      case None =>
        escaped := callback.Call(Failure, asop, DefaultQuote);
      case Some(json) =>
        match ParseQuote(json) {
          case Success(quote) =>
            var threw := callback.Call(Ok, asop, quote);
            if threw {
              escaped := callback.Call(Failure, asop, DefaultQuote);
            } else {
              escaped := false;
            }
          case Error(_) =>
            escaped := callback.Call(Failure, asop, DefaultQuote);
        }
    }
  }

  /** get_prices' completion handler. */
  method CompletePrices(callback: Listener<seq<Granule>>, asop: AsyncOperation, ext: Collaborators,
                        transport: TransportStatus, resp: Response)
    returns (escaped: bool)
    requires asop.httpReq.Some? && asop.httpReq.value.callback == callback
    modifies callback
    ensures var o := PricesOutcome(ext, transport, resp);
      && callback.received == old(callback.received) + AsWrittenDeliveries(o, asop, [], callback.throwsOnOk)
      && escaped == AsWrittenEscapes(o, callback)
  {
    if transport != TransportOk || resp.status != HttpOk {
      escaped := callback.Call(Failure, asop, []);
      return;
    }
    match resp.body {
      case None =>
        escaped := callback.Call(Failure, asop, []);
      case Some(json) =>
        var parsed := ParsePrices(json, ext.parseDateTime);
        match parsed {
          case Success(granules) =>
            var threw := callback.Call(Ok, asop, granules);
            if threw {
              escaped := callback.Call(Failure, asop, []);
            } else {
              escaped := false;
            }
          case Error(_) =>
            escaped := callback.Call(Failure, asop, []);
        }
    }
  }

  // ---------------------------------------------------------------------
  // Completion handlers that call back exactly once
  // ---------------------------------------------------------------------

  /** Search completion with the callback moved out of the `try` block:
      whatever the callback does, it is called exactly once. */
  method CompleteTickerSearchOnce(callback: Listener<seq<Ticker>>, asop: AsyncOperation,
                                  transport: TransportStatus, resp: Response)
    returns (escaped: bool)
    requires asop.httpReq.Some? && asop.httpReq.value.callback == callback
    modifies callback
    ensures var o := TickerSearchOutcome(transport, resp);
      && callback.received == old(callback.received) + [Delivery(o.status, asop, o.value)]
      && escaped == callback.Throws(o.status)
  {
    var status, tickers := Failure, [];
    if transport == TransportOk && resp.status == HttpOk && resp.body.Some? {
      tickers := ParseTickerList(resp.body.value);
      status := Ok;
    }
    escaped := callback.Call(status, asop, tickers);
  }

  /** Quote completion with the callback moved out of the `try` block. */
  method CompleteQuoteOnce(callback: Listener<Quote>, asop: AsyncOperation,
                           transport: TransportStatus, resp: Response)
    returns (escaped: bool)
    requires asop.httpReq.Some? && asop.httpReq.value.callback == callback
    modifies callback
    ensures var o := QuoteOutcome(transport, resp);
      && callback.received == old(callback.received) + [Delivery(o.status, asop, o.value)]
      && escaped == callback.Throws(o.status)
  {
    var status, quote := Failure, DefaultQuote;
    if transport == TransportOk && resp.status == HttpOk && resp.body.Some? {
      var parsed := ParseQuote(resp.body.value);
      if parsed.Success? {
        status, quote := Ok, parsed.value;
      }
    }
    escaped := callback.Call(status, asop, quote);
  }

  /** Series completion with the callback moved out of the `try` block. */
  method CompletePricesOnce(callback: Listener<seq<Granule>>, asop: AsyncOperation, ext: Collaborators,
                            transport: TransportStatus, resp: Response)
    returns (escaped: bool)
    requires asop.httpReq.Some? && asop.httpReq.value.callback == callback
    modifies callback
    ensures var o := PricesOutcome(ext, transport, resp);
      && callback.received == old(callback.received) + [Delivery(o.status, asop, o.value)]
      && escaped == callback.Throws(o.status)
  {
    var status, granules := Failure, [];
    if transport == TransportOk && resp.status == HttpOk && resp.body.Some? {
      var parsed := ParsePrices(resp.body.value, ext.parseDateTime);
      if parsed.Success? {
        status, granules := Ok, parsed.value;
      }
    }
    escaped := callback.Call(status, asop, granules);
  }

  // ---------------------------------------------------------------------
  // The backend object
  // ---------------------------------------------------------------------

  class Tradier {
    var accessToken: string

    constructor ()
      ensures accessToken == ""
    {
      accessToken := "";
    }

    method SetConfig(config: seq<Tree>)
      modifies this
      ensures accessToken == ConfiguredToken(config, old(accessToken))
    {
      var i := FindTree(config, AccessTokenKey);
      if i < |config| {
        if config[i].children != [] {
          accessToken := config[i].children[0].value;
        }
      }
    }

    /** Creates a handle and a request whose completion handler captures the
        callback, links the handle weakly to the request, sets URL and
        headers, and starts it. */
    method Issue(url: string, ghost callback: object) returns (asop: AsyncOperation, req: HttpRequest)
      ensures fresh(asop) && fresh(req)
      ensures asop.httpReq == Some(req) && req.callback == callback
      ensures req.url == url && req.headers == RequestHeaders(accessToken)
      ensures req.started && req.alive
    {
      asop := new AsyncOperation();
      req := new HttpRequest(callback);
      asop.httpReq := Some(req);
      req.SetUrl(url);
      req.SetHeaders(RequestHeaders(accessToken));
      req.Start();
    }

    /** get_exchanges: no request; the callback runs before returning,
        once, with the fixed table. An exception from the callback leaves
        the operation before the handle is returned. */
    method GetExchanges(callback: Listener?<seq<Exchange>>) returns (r: Result<AsyncOperation, Exception>)
      modifies callback
      ensures callback == null ==>
        r == Error(LogicError("tradier::get_exchanges(): passed in callback is nullptr"))
      ensures callback != null ==>
        && |callback.received| == |old(callback.received)| + 1
        && callback.received[..|old(callback.received)|] == old(callback.received)
        && var d := callback.received[|old(callback.received)|];
        && d.status == Ok && d.value == ExchangeTable()
        && fresh(d.op) && d.op.httpReq == None
        && r == if callback.throwsOnOk then Error(CallbackException) else Success(d.op)
    {
      if callback == null {
        return Error(LogicError("tradier::get_exchanges(): passed in callback is nullptr"));
      }
      var asop := new AsyncOperation();
      var threw := callback.Call(Ok, asop, ExchangeTable());
      if threw {
        return Error(CallbackException);
      }
      return Success(asop);
    }

    /** find_ticker: a search request; its completion is CompleteTickerSearch
        with this callback and the returned handle. */
    method FindTicker(ext: Collaborators, query: string, callback: Listener?<seq<Ticker>>)
      returns (r: Result<AsyncOperation, Exception>)
      ensures callback == null ==>
        r == Error(LogicError("tradier::find_ticker(): passed in callback is nullptr"))
      ensures callback != null ==>
        && r.Success? && fresh(r.value)
        && r.value.httpReq.Some? && fresh(r.value.httpReq.value)
        && r.value.httpReq.value.callback == callback
        && r.value.httpReq.value.url == SearchUrl(ext, query)
        && r.value.httpReq.value.headers == RequestHeaders(accessToken)
        && r.value.httpReq.value.started && r.value.httpReq.value.alive
    {
      if callback == null {
        return Error(LogicError("tradier::find_ticker(): passed in callback is nullptr"));
      }
      var asop, req := Issue(SearchUrl(ext, query), callback);
      return Success(asop);
    }

    /** get_quote: a quote request; its completion is CompleteQuote. */
    method GetQuote(ext: Collaborators, symbol: string, callback: Listener?<Quote>)
      returns (r: Result<AsyncOperation, Exception>)
      ensures callback == null ==>
        r == Error(LogicError("tradier::get_quote(): passed in callback is nullptr"))
      ensures callback != null ==>
        && r.Success? && fresh(r.value)
        && r.value.httpReq.Some? && fresh(r.value.httpReq.value)
        && r.value.httpReq.value.callback == callback
        && r.value.httpReq.value.url == QuoteUrl(ext, symbol)
        && r.value.httpReq.value.headers == RequestHeaders(accessToken)
        && r.value.httpReq.value.started && r.value.httpReq.value.alive
    {
      if callback == null {
        return Error(LogicError("tradier::get_quote(): passed in callback is nullptr"));
      }
      var asop, req := Issue(QuoteUrl(ext, symbol), callback);
      return Success(asop);
    }

    /** get_prices: the daily granularity returns a bare handle and issues
        nothing; otherwise a time-sales request whose completion is
        CompletePrices. `from` is accepted and not used. The null-callback
        message names get_quote, as the source's does. */
    method GetPrices(ext: Collaborators, symbol: string, from: int, to: int, gran: Granularity,
                     callback: Listener?<seq<Granule>>)
      returns (r: Result<AsyncOperation, Exception>)
      ensures callback == null ==>
        r == Error(LogicError("tradier::get_quote(): passed in callback is nullptr"))
      ensures callback != null ==> r.Success? && fresh(r.value)
      ensures callback != null && gran == Day ==> r.value.httpReq == None
      ensures callback != null && gran != Day ==>
        && r.value.httpReq.Some? && fresh(r.value.httpReq.value)
        && r.value.httpReq.value.callback == callback
        && r.value.httpReq.value.url == TimesalesUrl(ext, symbol, to, gran)
        && r.value.httpReq.value.headers == RequestHeaders(accessToken)
        && r.value.httpReq.value.started && r.value.httpReq.value.alive
    {
      if callback == null {
        return Error(LogicError("tradier::get_quote(): passed in callback is nullptr"));
      }
      if gran == Day {
        var bare := new AsyncOperation();
        return Success(bare);
      }
      var asop, req := Issue(TimesalesUrl(ext, symbol, to, gran), callback);
      return Success(asop);
    }
  }

  // ---------------------------------------------------------------------
  // Scenarios
  // ---------------------------------------------------------------------

  /** A search whose call has completed and been released can no longer be
      cancelled: a callback that does not throw has run once, and cancel
      reports false. */
  method CancelAfterCompletion(ext: Collaborators, query: string, transport: TransportStatus, resp: Response)
    returns (cancelled: bool, deliveries: nat)
    ensures !cancelled
    ensures deliveries == 1
  {
    var backend := new Tradier();
    var callback := new Listener<seq<Ticker>>(false, false);
    var r := backend.FindTicker(ext, query, callback);
    var asop := r.value;
    var req := asop.httpReq.value;
    var escaped := CompleteTickerSearch(callback, asop, transport, resp);
    req.Release();
    cancelled := asop.Cancel();
    deliveries := |callback.received|;
  }

  /** A search answered with a readable 200 body, whose callback throws on
      ok: the callback is called twice, with ok and then with failure. */
  method SearchCallsThrowingCallbackTwice(ext: Collaborators, query: string)
    returns (statuses: seq<Status>)
    ensures statuses == [Ok, Failure]
  {
    var backend := new Tradier();
    var callback := new Listener<seq<Ticker>>(true, false);
    var r := backend.FindTicker(ext, query, callback);
    var escaped := CompleteTickerSearch(callback, r.value, TransportOk, Response(HttpOk, Some(JNull)));
    statuses := [callback.received[0].status, callback.received[1].status];
  }

  /** The same for a well-formed quote. */
  method QuoteCallsThrowingCallbackTwice(ext: Collaborators, symbol: string, n: Number)
    returns (statuses: seq<Status>)
    ensures statuses == [Ok, Failure]
  {
    var backend := new Tradier();
    var callback := new Listener<Quote>(true, false);
    var r := backend.GetQuote(ext, symbol, callback);
    var quote := map[
      "last" := JNumber(n), "change" := JNumber(n), "change_percentage" := JNumber(n),
      "close" := JNull, "open" := JNull, "high" := JNull, "low" := JNull,
      "volume" := JNumber(n)];
    var body := JObject(map["quotes" := JObject(map["quote" := JObject(quote)])]);
    assert QuoteWellFormed(body);
    var escaped := CompleteQuote(callback, r.value, TransportOk, Response(HttpOk, Some(body)));
    statuses := [callback.received[0].status, callback.received[1].status];
  }

  /** The same for an empty but well-formed series. */
  method PricesCallsThrowingCallbackTwice(ext: Collaborators, symbol: string, from: int, to: int)
    returns (statuses: seq<Status>)
    ensures statuses == [Ok, Failure]
  {
    var backend := new Tradier();
    var callback := new Listener<seq<Granule>>(true, false);
    var r := backend.GetPrices(ext, symbol, from, to, Minute, callback);
    var body := JObject(map["series" := JObject(map["data" := JArray([])])]);
    assert HasSeriesArray(body);
    var escaped := CompletePrices(callback, r.value, ext, TransportOk, Response(HttpOk, Some(body)));
    statuses := [callback.received[0].status, callback.received[1].status];
  }
}
