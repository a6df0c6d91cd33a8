/** The three response parsers of the Tradier backend. Each one is given as a
    function that says what the parse yields; the two that loop over an array
    in the source are also given as methods proved equal to their function.

    The ticker-list parser is lenient: a broken path yields no tickers and a
    bad element is skipped. The quote and price parsers are strict: the first
    missing key or node of the wrong kind throws, which is an Error here. */
module TradierParsers {
  import opened Wrappers
  import opened JsonDom
  import opened Beerja

  // ---------------------------------------------------------------------
  // Ticker search: root.securities.security[]
  // ---------------------------------------------------------------------

  /** The root is an object whose `securities` member is an object whose
      `security` member is an array. */
  predicate HasSecurityArray(json: Json)
  {
    && json.JObject?
    && "securities" in json.members
    && json.members["securities"].JObject?
    && "security" in json.members["securities"].members
    && json.members["securities"].members["security"].JArray?
  }

  /** The `security` elements, or none at all when the path to them is broken. */
  function SecurityArray(json: Json): (items: seq<Json>)
    ensures HasSecurityArray(json) ==> items == json.members["securities"].members["security"].items
    ensures !HasSecurityArray(json) ==> items == []
  {
    if !json.JObject? then []
    else match Find(json.members, "securities")
      case Some(JObject(securities)) =>
        (match Find(securities, "security")
         case Some(JArray(security)) => security
         case _ => [])
      case _ => []
  }

  /** An element is usable when it is an object with a string `symbol`. */
  predicate IsTickerEntry(s: Json)
  {
    s.JObject? && "symbol" in s.members && s.members["symbol"].JString?
  }

  /** The ticker one `security` element yields, if any. */
  function TickerOf(s: Json): (t: Option<Ticker>)
    ensures t.Some? <==> IsTickerEntry(s)
    ensures t.Some? ==> t.value.id == s.members["symbol"].s
    ensures t.Some? ==> t.value.name == StringOrEmpty(s.members, "description")
    ensures t.Some? ==> t.value.exchangeId == StringOrEmpty(s.members, "exchange")
  {
    match s
    case JObject(o) =>
      (match Find(o, "symbol")
       case Some(JString(symbol)) =>
         Some(Ticker(symbol, StringOrEmpty(o, "description"), StringOrEmpty(o, "exchange")))
       case _ => None)
    case _ => None
  }

  /** The tickers of a run of elements, in order, skipping unusable ones. */
  function TickersOf(items: seq<Json>): seq<Ticker>
  {
    if items == [] then []
    else
      var t := TickerOf(items[|items| - 1]);
      TickersOf(items[..|items| - 1]) + (if t.Some? then [t.value] else [])
  }

  /** What parse_ticker_list returns for a whole response. */
  function TickerList(json: Json): seq<Ticker>
  {
    TickersOf(SecurityArray(json))
  }

  /** The positions of the usable elements, in increasing order. */
  ghost function UsablePositions(items: seq<Json>): seq<nat>
  {
    if items == [] then []
    else
      UsablePositions(items[..|items| - 1])
        + (if IsTickerEntry(items[|items| - 1]) then [|items| - 1] else [])
  }

  /** A missing or mistyped container anywhere on the path gives the empty
      list, never an error. */
  lemma TickerListEmptyWithoutSecurities(json: Json)
    requires !HasSecurityArray(json)
    ensures TickerList(json) == []
  {
  }

  /** The tickers are exactly the usable elements, in their order: the k-th
      ticker comes from the k-th usable position, the positions increase,
      and every usable element has its position in the list. */
  lemma {:induction false} TickersAreUsableSubsequence(items: seq<Json>)
    ensures |TickersOf(items)| == |UsablePositions(items)| <= |items|
    ensures forall k :: 0 <= k < |UsablePositions(items)| ==>
      UsablePositions(items)[k] < |items|
      && TickerOf(items[UsablePositions(items)[k]]) == Some(TickersOf(items)[k])
    ensures forall k, l :: 0 <= k < l < |UsablePositions(items)| ==>
      UsablePositions(items)[k] < UsablePositions(items)[l]
    ensures forall i :: 0 <= i < |items| && IsTickerEntry(items[i]) ==> i in UsablePositions(items)
  {
    if items != [] {
      var n := |items| - 1;
      var init := items[..n];
      TickersAreUsableSubsequence(init);
      assert forall i :: 0 <= i < |init| ==> init[i] == items[i];
      var positions, tickers := UsablePositions(init), TickersOf(init);
      if IsTickerEntry(items[n]) {
        assert UsablePositions(items) == positions + [n];
        assert TickersOf(items) == tickers + [TickerOf(items[n]).value];
      } else {
        assert UsablePositions(items) == positions;
        assert TickersOf(items) == tickers;
      }
    }
  }

  /** Tickers of a concatenation: the parts are parsed independently and
      their results appended in order. */
  lemma {:induction false} TickersOfAppend(a: seq<Json>, b: seq<Json>)
    ensures TickersOf(a + b) == TickersOf(a) + TickersOf(b)
    decreases |b|
  {
    if b == [] {
      assert a + b == a;
    } else {
      var b' := b[..|b| - 1];
      assert (a + b)[..|a + b| - 1] == a + b';
      TickersOfAppend(a, b');
    }
  }

  /** An unusable element leaves the result as if it were absent: the loop
      skips it with `continue`. */
  lemma TickersSkipUnusable(a: seq<Json>, x: Json, b: seq<Json>)
    requires !IsTickerEntry(x)
    ensures TickersOf(a + [x] + b) == TickersOf(a + b)
  {
    TickersOfAppend(a + [x], b);
    TickersOfAppend(a, [x]);
    TickersOfAppend(a, b);
    assert [x][..0] == [];
  }

  /** parse_ticker_list: walks the path with `find`, then loops over the
      array, skipping unusable elements. */
  method ParseTickerList(json: Json) returns (ret: seq<Ticker>)
    ensures ret == TickerList(json)
    ensures |ret| <= |SecurityArray(json)|
  {
    if !json.JObject? {
      return [];
    }
    var root := json.members;
    var securitiesI := Find(root, "securities");
    if securitiesI.None? || !securitiesI.value.JObject? {
      return [];
    }
    var securities := securitiesI.value.members;
    var securityI := Find(securities, "security");
    if securityI.None? || !securityI.value.JArray? {
      return [];
    }
    var security := securityI.value.items;

    ret := [];
    for i := 0 to |security|
      invariant ret == TickersOf(security[..i])
    {
      assert security[..i + 1][..i] == security[..i];
      var s := security[i];
      if !s.JObject? {
        continue;
      }
      var o := s.members;
      var symbolI := Find(o, "symbol");
      if symbolI.None? || !symbolI.value.JString? {
        continue;
      }
      var symbol := symbolI.value.s;

      var description := "";
      var descriptionI := Find(o, "description");
      if descriptionI.Some? && descriptionI.value.JString? {
        description := descriptionI.value.s;
      }

      var exchange := "";
      var exchangeI := Find(o, "exchange");
      if exchangeI.Some? && exchangeI.value.JString? {
        exchange := exchangeI.value.s;
      }

      ret := ret + [Ticker(symbol, description, exchange)];
    }
    assert security[..|security|] == security;
    TickersAreUsableSubsequence(security);
  }

  // ---------------------------------------------------------------------
  // Quote: root.quotes.quote
  // ---------------------------------------------------------------------

  /** get_float: a number's value, or -1 for any other node. */
  function GetFloat(v: Json): (f: Number)
    ensures v.JNumber? ==> f == v.n
    ensures !v.JNumber? ==> f == MinusOne
  {
    if v.JNumber? then v.n else MinusOne
  }

  /** The `quote` object carries all eight keys, and the four read with
      `.number()` are numbers. */
  predicate QuoteFieldsWellFormed(q: map<string, Json>)
  {
    && "last" in q && q["last"].JNumber?
    && "change" in q && q["change"].JNumber?
    && "change_percentage" in q && q["change_percentage"].JNumber?
    && "close" in q && "open" in q && "high" in q && "low" in q
    && "volume" in q && q["volume"].JNumber?
  }

  predicate QuoteWellFormed(json: Json)
  {
    && json.JObject?
    && "quotes" in json.members
    && json.members["quotes"].JObject?
    && "quote" in json.members["quotes"].members
    && json.members["quotes"].members["quote"].JObject?
    && QuoteFieldsWellFormed(json.members["quotes"].members["quote"].members)
  }

  /** parse_quote. Every key is read with `.at`, so a missing `close`,
      `open`, `high` or `low` throws too; only a present non-number among
      those four becomes -1. */
  function ParseQuote(json: Json): (r: Result<Quote, ParseError>)
    ensures r.Success? <==> QuoteWellFormed(json)
    ensures r.Success? ==>
      var q := json.members["quotes"].members["quote"].members;
      && r.value.last == q["last"].n
      && r.value.change == q["change"].n
      && r.value.changePercent == q["change_percentage"].n
      && r.value.volume == q["volume"].n
      && (q["close"].JNumber? ==> r.value.close == q["close"].n)
      && (!q["close"].JNumber? ==> r.value.close == MinusOne)
      && (q["open"].JNumber? ==> r.value.open == q["open"].n)
      && (!q["open"].JNumber? ==> r.value.open == MinusOne)
      && (q["high"].JNumber? ==> r.value.high == q["high"].n)
      && (!q["high"].JNumber? ==> r.value.high == MinusOne)
      && (q["low"].JNumber? ==> r.value.low == q["low"].n)
      && (!q["low"].JNumber? ==> r.value.low == MinusOne)
  {
    var root :- AsObject(json);
    var quotesV :- At(root, "quotes");
    var quotes :- AsObject(quotesV);
    var quoteV :- At(quotes, "quote");
    var quote :- AsObject(quoteV);

    var lastV :- At(quote, "last");
    var last :- AsNumber(lastV);
    var changeV :- At(quote, "change");
    var change :- AsNumber(changeV);
    var changePercentV :- At(quote, "change_percentage");
    var changePercent :- AsNumber(changePercentV);

    var closeV :- At(quote, "close");
    var openV :- At(quote, "open");
    var highV :- At(quote, "high");
    var lowV :- At(quote, "low");

    var volumeV :- At(quote, "volume");
    var volume :- AsNumber(volumeV);

    Success(Quote(last, change, changePercent,
                  GetFloat(closeV), GetFloat(openV), GetFloat(highV), GetFloat(lowV),
                  volume))
  }

  // ---------------------------------------------------------------------
  // Price series: root.series.data[]
  // ---------------------------------------------------------------------

  /** The root is an object whose `series` member is an object whose `data`
      member is an array. */
  predicate HasSeriesArray(json: Json)
  {
    && json.JObject?
    && "series" in json.members
    && json.members["series"].JObject?
    && "data" in json.members["series"].members
    && json.members["series"].members["data"].JArray?
  }

  /** `json.object().at("series").object().at("data").array()`. */
  function SeriesData(json: Json): (r: Result<seq<Json>, ParseError>)
    ensures r.Success? <==> HasSeriesArray(json)
    ensures r.Success? ==> r.value == json.members["series"].members["data"].items
  {
    var root :- AsObject(json);
    var seriesV :- At(root, "series");
    var series :- AsObject(seriesV);
    var dataV :- At(series, "data");
    AsArray(dataV)
  }

  /** An element is an object with a string `time` and numeric `volume`,
      `open`, `close`, `high`, `low` and `vwap`. */
  predicate GranuleWellFormed(e: Json)
  {
    && e.JObject?
    && "time" in e.members && e.members["time"].JString?
    && "volume" in e.members && e.members["volume"].JNumber?
    && "open" in e.members && e.members["open"].JNumber?
    && "close" in e.members && e.members["close"].JNumber?
    && "high" in e.members && e.members["high"].JNumber?
    && "low" in e.members && e.members["low"].JNumber?
    && "vwap" in e.members && e.members["vwap"].JNumber?
  }

  /** One granule, its fields read in the order the source initialises
      them; `parseDateTime` stands for the `%FT%T` date parser. */
  function GranuleOf(e: Json, parseDateTime: string -> int): (r: Result<Granule, ParseError>)
    ensures r.Success? <==> GranuleWellFormed(e)
    ensures r.Success? ==>
      && r.value.timestamp == parseDateTime(e.members["time"].s)
      && r.value.volume == e.members["volume"].n
      && r.value.open == e.members["open"].n
      && r.value.close == e.members["close"].n
      && r.value.high == e.members["high"].n
      && r.value.low == e.members["low"].n
      && r.value.price == e.members["vwap"].n
  {
    var o :- AsObject(e);
    var timeV :- At(o, "time");
    var time :- AsString(timeV);
    var volumeV :- At(o, "volume");
    var volume :- AsNumber(volumeV);
    var openV :- At(o, "open");
    var open :- AsNumber(openV);
    var closeV :- At(o, "close");
    var close :- AsNumber(closeV);
    var highV :- At(o, "high");
    var high :- AsNumber(highV);
    var lowV :- At(o, "low");
    var low :- AsNumber(lowV);
    var vwapV :- At(o, "vwap");
    var vwap :- AsNumber(vwapV);
    Success(Granule(parseDateTime(time), volume, open, close, high, low, vwap))
  }

  /** The granules of a run of elements; the first element that fails to
      read fails the whole run with its error. */
  function GranulesOf(items: seq<Json>, parseDateTime: string -> int): Result<seq<Granule>, ParseError>
  {
    if items == [] then Success([])
    else
      var init :- GranulesOf(items[..|items| - 1], parseDateTime);
      var g :- GranuleOf(items[|items| - 1], parseDateTime);
      Success(init + [g])
  }

  /** What parse_prices returns for a whole response. */
  function Prices(json: Json, parseDateTime: string -> int): Result<seq<Granule>, ParseError>
  {
    var data :- SeriesData(json);
    GranulesOf(data, parseDateTime)
  }

  /** All or nothing: a run parses exactly when every element is well formed,
      and then element i yields granule i. */
  lemma {:induction false} GranulesAllOrNothing(items: seq<Json>, parseDateTime: string -> int)
    ensures GranulesOf(items, parseDateTime).Success? <==>
      forall i :: 0 <= i < |items| ==> GranuleWellFormed(items[i])
    ensures GranulesOf(items, parseDateTime).Success? ==>
      && |GranulesOf(items, parseDateTime).value| == |items|
      && forall i :: 0 <= i < |items| ==>
           GranulesOf(items, parseDateTime).value[i] == GranuleOf(items[i], parseDateTime).value
  {
    if items != [] {
      var init := items[..|items| - 1];
      GranulesAllOrNothing(init, parseDateTime);
      assert forall i :: 0 <= i < |init| ==> init[i] == items[i];
    }
  }

  /** Once a prefix has failed, the whole run fails with the same error. */
  lemma {:induction false} GranulesErrorPersists(items: seq<Json>, n: nat, parseDateTime: string -> int)
    requires n <= |items|
    requires GranulesOf(items[..n], parseDateTime).Error?
    ensures GranulesOf(items, parseDateTime) == GranulesOf(items[..n], parseDateTime)
    decreases |items| - n
  {
    if n < |items| {
      assert items[..n + 1][..n] == items[..n];
      GranulesErrorPersists(items, n + 1, parseDateTime);
    } else {
      assert items[..n] == items;
    }
  }

  /** parse_prices succeeds exactly when `series.data` is an array of
      well-formed elements; the granules then follow the elements one to one,
      in order, each priced at its `vwap`. */
  lemma PricesAllOrNothing(json: Json, parseDateTime: string -> int)
    ensures Prices(json, parseDateTime).Success? <==>
      && HasSeriesArray(json)
      && forall i :: 0 <= i < |SeriesData(json).value| ==> GranuleWellFormed(SeriesData(json).value[i])
    ensures Prices(json, parseDateTime).Success? ==>
      var data := SeriesData(json).value;
      var out := Prices(json, parseDateTime).value;
      && |out| == |data|
      && forall i :: 0 <= i < |data| ==>
           out[i] == GranuleOf(data[i], parseDateTime).value && out[i].price == data[i].members["vwap"].n
  {
    if HasSeriesArray(json) {
      GranulesAllOrNothing(SeriesData(json).value, parseDateTime);
    }
  }

  /** parse_prices: walks the path with `.at`, then converts every element,
      stopping at the first one that throws. */
  method ParsePrices(json: Json, parseDateTime: string -> int) returns (r: Result<seq<Granule>, ParseError>)
    ensures r == Prices(json, parseDateTime)
  {
    var data :- SeriesData(json);

    var ret: seq<Granule> := [];
    for i := 0 to |data|
      invariant GranulesOf(data[..i], parseDateTime) == Success(ret)
    {
      assert data[..i + 1][..i] == data[..i];
      var g := GranuleOf(data[i], parseDateTime);
      if g.Error? {
        GranulesErrorPersists(data, i + 1, parseDateTime);
        return Error(g.error);
      }
      ret := ret + [g.value];
    }
    assert data[..|data|] == data;
    return Success(ret);
  }
}
