/** The `GeminiAPI` client object: its credentials and base URL, and one
    method per endpoint. Every method's effect on the world is the list of
    calls it appends to the transport's log, and its result is what the
    transport's oracle answered, read the way the Ruby code reads it. The
    nonce the client takes from the wall clock is a parameter. */
module Client {
  import opened OrderedHash
  import opened RubyValues
  import opened Transport
  import opened Signing
  import opened Requests
  import opened Balances
  import opened Pricing

  class GeminiApi {
    const apiKey: string
    const apiSecret: string
    const apiBaseUrl: string
    const lib: Primitives
    const http: Http

    /** `GeminiAPI.new(apiKey, apiSecret, sandbox = false)`: the sandbox flag
        only selects the base URL. */
    constructor(http: Http, lib: Primitives, apiKey: string, apiSecret: string, sandbox: bool := false)
      ensures this.http == http && this.lib == lib
      ensures this.apiKey == apiKey && this.apiSecret == apiSecret
      ensures apiBaseUrl == if sandbox then SandboxUrl else ProductionUrl
    {
      this.http := http;
      this.lib := lib;
      this.apiKey := apiKey;
      this.apiSecret := apiSecret;
      if sandbox {
        apiBaseUrl := SandboxUrl;
      } else {
        apiBaseUrl := ProductionUrl;
      }
    }

    /** The price source the notional value reads: this client's GET answers
        and base URL. */
    function Quotes(): Market
    {
      Market(http.getResponse, apiBaseUrl, lib.stringToF)
    }

    /** The signed POST of `data` to `path`. */
    function PrivateCall(path: string, data: Assoc<Value>): Call
    {
      PostCall(apiBaseUrl + path, Envelope(lib, apiKey, apiSecret, data))
    }

    /** What the exchange answers to the signed POST of `data` to `path`. */
    function PrivateAnswer(path: string, data: Assoc<Value>): Value
    {
      http.postResponse(apiBaseUrl + path, Envelope(lib, apiKey, apiSecret, data))
    }

    /** Signs `data` and POSTs it to `path` under this client's base URL. */
    method SignedPost(path: string, data: Assoc<Value>) returns (r: Value)
      modifies http
      ensures http.log == old(http.log) + [PrivateCall(path, data)]
      ensures r == PrivateAnswer(path, data)
    {
      var headers := Envelope(lib, apiKey, apiSecret, data);
      r := http.Post(apiBaseUrl + path, headers);
    }

    /** `get_market_symbols`: one unsigned GET of `/v1/symbols`. */
    method GetMarketSymbols() returns (r: Value)
      modifies http
      ensures http.log == old(http.log) + [GetCall(apiBaseUrl + SymbolsPath)]
      ensures r == http.getResponse(apiBaseUrl + SymbolsPath)
    {
      r := http.Request(apiBaseUrl + SymbolsPath);
    }

    /** `get_ticker_info(symbol, type)`: GET the public ticker and read the
        field with `[]`, which raises when the answer is nil or not a Hash or
        String. */
    method GetTickerInfo(symbol: string, field: string) returns (r: Outcome<Value>)
      modifies http
      ensures http.log == old(http.log) + [GetCall(TickerUrl(apiBaseUrl, symbol))]
      ensures r == Index(http.getResponse(TickerUrl(apiBaseUrl, symbol)), field)
    {
      var answer := http.Request(TickerUrl(apiBaseUrl, symbol));
      r := Index(answer, field);
    }

    /** `get_available_balances`: the signed POST of `/v1/balances`. */
    method GetAvailableBalances(nonce: string) returns (r: Value)
      modifies http
      ensures http.log == old(http.log) + [PrivateCall(BalancesPath, PlainDescriptor(BalancesPath, nonce))]
      ensures r == PrivateAnswer(BalancesPath, PlainDescriptor(BalancesPath, nonce))
    {
      r := SignedPost(BalancesPath, PlainDescriptor(BalancesPath, nonce));
    }

    /** `get_currency_balance`: fetch the balances and return the `amount` of
        the first record of `currency`, or nil when there is none. */
    method GetCurrencyBalance(currency: string, nonce: string) returns (r: Outcome<Value>)
      modifies http
      ensures http.log == old(http.log) + [PrivateCall(BalancesPath, PlainDescriptor(BalancesPath, nonce))]
      ensures r == CurrencyBalance(PrivateAnswer(BalancesPath, PlainDescriptor(BalancesPath, nonce)), currency)
    {
      var balances := GetAvailableBalances(nonce);
      r := ScanBalances(balances, currency);
    }

    /** `t['amount'].to_f * get_ticker_info(pair, 'last').to_f`. */
    method ConvertAmount(t: Value, pair: string) returns (r: Outcome<real>)
      modifies http
      ensures http.log == old(http.log) + Converted(Quotes(), t, pair).calls
      ensures r == Converted(Quotes(), t, pair).outcome
    {
      var amount := Index(t, "amount");
      if amount.Raised? {
        return Raised;
      }
      var a := ToF(lib.stringToF, amount.value);
      if a.Raised? {
        return Raised;
      }
      var last := GetTickerInfo(pair, "last");
      if last.Raised? {
        return Raised;
      }
      var price := ToF(lib.stringToF, last.value);
      if price.Raised? {
        return Raised;
      }
      r := Returned(Times(a.value, price.value));
    }

    /** One pass of the notional-value loop body on the record `t`. */
    method RecordStep(t: Value) returns (r: Outcome<real>)
      modifies http
      ensures http.log == old(http.log) + RecordValue(Quotes(), t).calls
      ensures r == RecordValue(Quotes(), t).outcome
    {
      var currency := Index(t, "currency");
      if currency.Raised? {
        return Raised;
      }
      if currency.value == Str("BTC") {
        r := ConvertAmount(t, "btcusd");
      } else if currency.value == Str("ETH") {
        r := ConvertAmount(t, "ethusd");
      } else if currency.value == Str("USD") {
        var amount := Index(t, "amount");
        if amount.Raised? {
          return Raised;
        }
        r := ToF(lib.stringToF, amount.value);
      } else {
        r := Returned(0.0);
      }
    }

    /** The loop of `get_notional_account_value` over the records `items`:
        `notional_value` starts at 0.0 and each record's step is added to it;
        a step that raises ends the method. */
    method SumRecords(items: seq<Value>) returns (r: Outcome<real>)
      modifies http
      ensures http.log == old(http.log) + NotionalOf(Quotes(), items).calls
      ensures r == NotionalOf(Quotes(), items).outcome
    {
      ghost var m := Quotes();
      ghost var start := http.log;
      var notional := 0.0;
      for i := 0 to |items|
        invariant http.log == start + NotionalOf(m, items[..i]).calls
        invariant NotionalOf(m, items[..i]).outcome == Returned(notional)
      {
        ghost var before := NotionalOf(m, items[..i]);
        ghost var added := RecordValue(m, items[i]);
        NotionalStep(m, items, i);
        assert NotionalOf(m, items[..i + 1]) == After(notional, before.calls, added);
        AppendBatches(start, before.calls, added.calls);
        var step := RecordStep(items[i]);
        if step.Raised? {
          RaisedStays(m, items, i + 1);
          return Raised;
        }
        notional := notional + step.value;
      }
      assert items[..|items|] == items;
      r := Returned(notional);
    }

    /** The part of `get_notional_account_value` after the balances have
        been fetched: `for t in balances` raises unless they form a list. */
    method SumBalances(balances: Value) returns (r: Outcome<real>)
      modifies http
      ensures http.log == old(http.log) + NotionalAccountValue(Quotes(), balances).calls
      ensures r == NotionalAccountValue(Quotes(), balances).outcome
    {
      var records := Elements(balances);
      if records.Raised? {
        assert http.log + [] == http.log;
        return Raised;
      }
      r := SumRecords(records.value);
    }

    /** `get_notional_account_value`: fetch the balances, then add up the
        records from 0.0, requesting a ticker for each BTC and ETH record. */
    method GetNotionalAccountValue(nonce: string) returns (r: Outcome<real>)
      modifies http
      ensures http.log == old(http.log) + [PrivateCall(BalancesPath, PlainDescriptor(BalancesPath, nonce))]
                          + NotionalAccountValue(Quotes(), PrivateAnswer(BalancesPath, PlainDescriptor(BalancesPath, nonce))).calls
      ensures r == NotionalAccountValue(Quotes(), PrivateAnswer(BalancesPath, PlainDescriptor(BalancesPath, nonce))).outcome
    {
      var balances := GetAvailableBalances(nonce);
      r := SumBalances(balances);
    }

    /** `place_order`: the price is converted with `to_f` (which raises on a
        value without it, before any request), the descriptor is built as a
        hash literal, `options` is added in place when the order type is not
        'limit', and the result is POSTed signed. */
    method PlaceOrder(symbol: string, quantity: Value, price: Value, side: string, orderType: string, nonce: string)
      returns (r: Outcome<Value>)
      modifies http
      ensures ToF(lib.stringToF, price).Raised? ==> r.Raised? && http.log == old(http.log)
      ensures ToF(lib.stringToF, price).Returned? ==>
        var data := OrderDescriptor(nonce, symbol, quantity, lib.floatToS(ToF(lib.stringToF, price).value), side, orderType);
        http.log == old(http.log) + [PrivateCall(NewOrderPath, data)] &&
        r == Returned(PrivateAnswer(NewOrderPath, data))
    {
      var p := ToF(lib.stringToF, price);
      if p.Raised? {
        return Raised;
      }
      var data := OrderFields(nonce, symbol, quantity, lib.floatToS(p.value), side);
      if orderType != "limit" {
        data := Store(data, "options", Arr([Str(orderType)]));
      }
      var answer := SignedPost(NewOrderPath, data);
      r := Returned(answer);
    }

    /** The limit price `place_order_at_market_price` orders at, from the
        ticker's last price; None when reading the ticker raises or the
        symbol or side is refused. */
    function MarketLimit(symbol: string, side: string): (r: Option<real>)
      ensures r.Some? ==> symbol in KnownSymbols && (side == "buy" || side == "sell") && 0.0 <= r.value
      ensures http.getResponse(TickerUrl(apiBaseUrl, symbol)).Null? ==> r.None?
      ensures r.Some? ==> LastPrice(Quotes(), symbol).Returned? && LimitPrice(symbol, LastPrice(Quotes(), symbol).value, side) == r
    {
      match LastPrice(Quotes(), symbol)
      case Raised => None
      case Returned(last) => LimitPrice(symbol, last, side)
    }

    /** `get_ticker_info(symbol, 'last').to_f`: one GET of the ticker, whose
        `last` field is converted with `to_f`. */
    method LastTradePrice(symbol: string) returns (r: Outcome<real>)
      modifies http
      ensures http.log == old(http.log) + [GetCall(TickerUrl(apiBaseUrl, symbol))]
      ensures r == LastPrice(Quotes(), symbol)
    {
      var last := GetTickerInfo(symbol, "last");
      if last.Raised? {
        return Raised;
      }
      r := ToF(lib.stringToF, last.value);
    }

    /** `place_order_at_market_price`: the ticker is read first, whatever the
        symbol; a refused symbol or side or a failed read is rescued into nil
        with no order placed; otherwise a 'limit' order at the offset price. */
    method PlaceOrderAtMarketPrice(symbol: string, quantity: Value, side: string, nonce: string) returns (r: Value)
      modifies http
      ensures MarketLimit(symbol, side).None? ==>
        http.log == old(http.log) + [GetCall(TickerUrl(apiBaseUrl, symbol))] && r == Null
      ensures MarketLimit(symbol, side).Some? ==>
        var data := OrderDescriptor(nonce, symbol, quantity, lib.floatToS(MarketLimit(symbol, side).value), side, "limit");
        http.log == old(http.log) + [GetCall(TickerUrl(apiBaseUrl, symbol)), PrivateCall(NewOrderPath, data)] &&
        r == PrivateAnswer(NewOrderPath, data)
    {
      var last := LastTradePrice(symbol);
      if last.Raised? {
        return Null;
      }
      var limit := LimitPrice(symbol, last.value, side);
      if limit.None? {
        return Null;
      }
      r := PlaceLimitOrder(symbol, quantity, limit.value, side, nonce);
      AppendTwo(old(http.log), GetCall(TickerUrl(apiBaseUrl, symbol)),
                PrivateCall(NewOrderPath, OrderDescriptor(nonce, symbol, quantity, lib.floatToS(limit.value), side, "limit")));
    }

    /** `place_order(symbol, quantity, price, transactionType, 'limit')` with
        the Float price computed by `place_order_at_market_price`: its `to_f`
        cannot raise, so exactly one signed order is sent, without options. */
    method PlaceLimitOrder(symbol: string, quantity: Value, price: real, side: string, nonce: string) returns (r: Value)
      modifies http
      ensures http.log == old(http.log) + [PrivateCall(NewOrderPath, OrderDescriptor(nonce, symbol, quantity, lib.floatToS(price), side, "limit"))]
      ensures r == PrivateAnswer(NewOrderPath, OrderDescriptor(nonce, symbol, quantity, lib.floatToS(price), side, "limit"))
    {
      assert ToF(lib.stringToF, Num(price)) == Returned(price);
      var placed := PlaceOrder(symbol, quantity, Num(price), side, "limit", nonce);
      r := placed.value;
    }

    /** `get_active_orders`: the signed POST of `/v1/orders`. */
    method GetActiveOrders(nonce: string) returns (r: Value)
      modifies http
      ensures http.log == old(http.log) + [PrivateCall(OrdersPath, PlainDescriptor(OrdersPath, nonce))]
      ensures r == PrivateAnswer(OrdersPath, PlainDescriptor(OrdersPath, nonce))
    {
      r := SignedPost(OrdersPath, PlainDescriptor(OrdersPath, nonce));
    }

    /** `get_past_trades(symbol, size)`: the signed POST of `/v1/mytrades`. */
    method GetPastTrades(symbol: string, size: Value, nonce: string) returns (r: Value)
      modifies http
      ensures http.log == old(http.log) + [PrivateCall(TradesPath, TradesDescriptor(nonce, symbol, size))]
      ensures r == PrivateAnswer(TradesPath, TradesDescriptor(nonce, symbol, size))
    {
      r := SignedPost(TradesPath, TradesDescriptor(nonce, symbol, size));
    }

    /** `cancel_order(id)`: the signed POST of `/v1/order/cancel`. */
    method CancelOrder(id: Value, nonce: string) returns (r: Value)
      modifies http
      ensures http.log == old(http.log) + [PrivateCall(CancelPath, CancelDescriptor(nonce, id))]
      ensures r == PrivateAnswer(CancelPath, CancelDescriptor(nonce, id))
    {
      r := SignedPost(CancelPath, CancelDescriptor(nonce, id));
    }

    /** `cancel_all_active_orders`: the signed POST of `/v1/order/cancel/all`. */
    method CancelAllActiveOrders(nonce: string) returns (r: Value)
      modifies http
      ensures http.log == old(http.log) + [PrivateCall(CancelAllPath, PlainDescriptor(CancelAllPath, nonce))]
      ensures r == PrivateAnswer(CancelAllPath, PlainDescriptor(CancelAllPath, nonce))
    {
      r := SignedPost(CancelAllPath, PlainDescriptor(CancelAllPath, nonce));
    }
  }
}
