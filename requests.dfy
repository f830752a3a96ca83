/** Endpoint paths, base URLs and the request descriptor each private
    endpoint signs. The nonce is a parameter: the client reads it from the
    wall clock (`DateTime.now.strftime('%Q')`). */
module Requests {
  import opened OrderedHash
  import opened RubyValues

  const ProductionUrl := "https://api.gemini.com"
  const SandboxUrl := "https://api.sandbox.gemini.com"

  const SymbolsPath := "/v1/symbols"
  const TickerPath := "/v1/pubticker/"
  const BalancesPath := "/v1/balances"
  const NewOrderPath := "/v1/order/new"
  const OrdersPath := "/v1/orders"
  const TradesPath := "/v1/mytrades"
  const CancelPath := "/v1/order/cancel"
  const CancelAllPath := "/v1/order/cancel/all"

  /** The URL of the public ticker of `symbol`. */
  function TickerUrl(base: string, symbol: string): (url: string)
    ensures base <= url && url[|base|..] == TickerPath + symbol
  {
    base + TickerPath + symbol
  }

  /** The descriptor of an endpoint that takes no arguments
      (`/v1/balances`, `/v1/orders`, `/v1/order/cancel/all`). */
  function PlainDescriptor(path: string, nonce: string): (d: Assoc<Value>)
    ensures Keys(d) == ["request", "nonce"]
    ensures Get(d, "request") == Some(Str(path))
    ensures Get(d, "nonce") == Some(Str(nonce))
  {
    var d := [("request", Str(path)), ("nonce", Str(nonce))];
    assert Keys(d) == ["request", "nonce"];
    GetUnique(d, "request", Str(path));
    GetUnique(d, "nonce", Str(nonce));
    d
  }

  /** The descriptor of `/v1/mytrades`. */
  function TradesDescriptor(nonce: string, symbol: string, size: Value): (d: Assoc<Value>)
    ensures Keys(d) == ["request", "nonce", "symbol", "limit_trades"]
    ensures Get(d, "request") == Some(Str(TradesPath))
    ensures Get(d, "nonce") == Some(Str(nonce))
    ensures Get(d, "symbol") == Some(Str(symbol))
    ensures Get(d, "limit_trades") == Some(size)
  {
    var d := [("request", Str(TradesPath)), ("nonce", Str(nonce)), ("symbol", Str(symbol)), ("limit_trades", size)];
    assert Keys(d) == ["request", "nonce", "symbol", "limit_trades"];
    GetUnique(d, "request", Str(TradesPath));
    GetUnique(d, "nonce", Str(nonce));
    GetUnique(d, "symbol", Str(symbol));
    GetUnique(d, "limit_trades", size);
    d
  }

  /** The descriptor of `/v1/order/cancel`. */
  function CancelDescriptor(nonce: string, id: Value): (d: Assoc<Value>)
    ensures Keys(d) == ["request", "nonce", "order_id"]
    ensures Get(d, "request") == Some(Str(CancelPath))
    ensures Get(d, "nonce") == Some(Str(nonce))
    ensures Get(d, "order_id") == Some(id)
  {
    var d := [("request", Str(CancelPath)), ("nonce", Str(nonce)), ("order_id", id)];
    assert Keys(d) == ["request", "nonce", "order_id"];
    GetUnique(d, "request", Str(CancelPath));
    GetUnique(d, "nonce", Str(nonce));
    GetUnique(d, "order_id", id);
    d
  }

  const OrderKeys := ["request", "nonce", "symbol", "amount", "price", "side", "type"]

  /** The fixed part of the `/v1/order/new` descriptor, before the options rule. */
  function OrderFields(nonce: string, symbol: string, quantity: Value, priceText: string, side: string): (d: Assoc<Value>)
    ensures Keys(d) == OrderKeys
    ensures Get(d, "request") == Some(Str(NewOrderPath))
    ensures Get(d, "nonce") == Some(Str(nonce))
    ensures Get(d, "symbol") == Some(Str(symbol))
    ensures Get(d, "amount") == Some(quantity)
    ensures Get(d, "price") == Some(Str(priceText))
    ensures Get(d, "side") == Some(Str(side))
    ensures Get(d, "type") == Some(Str("exchange limit"))
  {
    var d := [("request", Str(NewOrderPath)), ("nonce", Str(nonce)), ("symbol", Str(symbol)),
              ("amount", quantity), ("price", Str(priceText)), ("side", Str(side)),
              ("type", Str("exchange limit"))];
    assert Keys(d) == OrderKeys;
    GetUnique(d, "request", Str(NewOrderPath));
    GetUnique(d, "nonce", Str(nonce));
    GetUnique(d, "symbol", Str(symbol));
    GetUnique(d, "amount", quantity);
    GetUnique(d, "price", Str(priceText));
    GetUnique(d, "side", Str(side));
    GetUnique(d, "type", Str("exchange limit"));
    d
  }

  lemma OptionsIsNoOrderKey()
    ensures "options" !in OrderKeys
  {
  }

  /** The descriptor `place_order` signs: the quantity goes out unchanged, the
      price as its float text, the type is always an exchange limit order,
      and `options` holds the order type exactly when it is not 'limit'. */
  function OrderDescriptor(nonce: string, symbol: string, quantity: Value, priceText: string, side: string, orderType: string): (d: Assoc<Value>)
    ensures Keys(d) == OrderKeys + (if orderType != "limit" then ["options"] else [])
    ensures "options" in Keys(d) <==> orderType != "limit"
    ensures orderType != "limit" ==> Get(d, "options") == Some(Arr([Str(orderType)]))
    ensures Get(d, "request") == Some(Str(NewOrderPath))
    ensures Get(d, "nonce") == Some(Str(nonce))
    ensures Get(d, "symbol") == Some(Str(symbol))
    ensures Get(d, "amount") == Some(quantity)
    ensures Get(d, "price") == Some(Str(priceText))
    ensures Get(d, "side") == Some(Str(side))
    ensures Get(d, "type") == Some(Str("exchange limit"))
  {
    var data := OrderFields(nonce, symbol, quantity, priceText, side);
    OptionsIsNoOrderKey();
    if orderType != "limit" then Store(data, "options", Arr([Str(orderType)])) else data
  }
}
