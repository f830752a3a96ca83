/** The limit price `place_order_at_market_price` derives from the last trade
    price: a fixed per-symbol offset is added for a buy and subtracted for a
    sell, so that the order fills even if the market moves a little, and the
    result is clamped at zero. */
module Pricing {
  import opened OrderedHash

  const KnownSymbols := {"btcusd", "ethusd", "ethbtc"}

  /** The per-symbol offset; None for a symbol the client raises on. */
  function MarketOffset(symbol: string): (r: Option<real>)
    ensures r.Some? <==> symbol in KnownSymbols
    ensures r.Some? ==> 0.0 < r.value
    ensures symbol == "btcusd" ==> r == Some(200.0)
    ensures symbol == "ethusd" ==> r == Some(30.0)
    ensures symbol == "ethbtc" ==> r == Some(0.01)
  {
    if symbol == "btcusd" then Some(200.0)
    else if symbol == "ethusd" then Some(30.0)
    else if symbol == "ethbtc" then Some(0.01)
    else None
  }

  /** +1 for a buy, -1 for a sell. */
  function Direction(side: string): real
  {
    if side == "buy" then 1.0 else -1.0
  }

  /** The limit price for `side` at last price `last`; None when the symbol or
      the side is not one the client accepts (the client then raises, rescues
      and places no order). */
  function LimitPrice(symbol: string, last: real, side: string): (r: Option<real>)
    ensures r.Some? <==> symbol in KnownSymbols && (side == "buy" || side == "sell")
    ensures r.Some? ==> 0.0 <= r.value
    ensures r.Some? ==> r.value >= last + Direction(side) * MarketOffset(symbol).value
    ensures r.Some? && r.value != 0.0 ==> r.value == last + Direction(side) * MarketOffset(symbol).value
    ensures r.Some? && side == "buy" ==> r.value > last
    ensures r.Some? && side == "sell" && 0.0 <= last ==> r.value < last || r.value == 0.0
  {
    match MarketOffset(symbol)
    case None => None
    case Some(offset) =>
      if side == "buy" || side == "sell" then
        var price := if side == "buy" then last + offset else last - offset;
        Some(if price < 0.0 then 0.0 else price)
      else None
  }

  /** For a recognised symbol, the buy limit is never below the sell limit, and
      the two differ by twice the offset whenever neither is clamped. */
  lemma BuyLimitAtLeastSellLimit(symbol: string, last: real)
    requires symbol in KnownSymbols
    ensures LimitPrice(symbol, last, "buy").value >= LimitPrice(symbol, last, "sell").value
    ensures last >= MarketOffset(symbol).value ==>
      LimitPrice(symbol, last, "buy").value - LimitPrice(symbol, last, "sell").value == 2.0 * MarketOffset(symbol).value
  {
  }

  /** At a last BTC price of 19000 USD a buy is limited at 19200 and a sell at
      18800; an unknown symbol gets no price. */
  lemma MarketPriceExample()
    ensures LimitPrice("btcusd", 19000.0, "buy") == Some(19200.0)
    ensures LimitPrice("btcusd", 19000.0, "sell") == Some(18800.0)
    ensures LimitPrice("ltcusd", 19000.0, "buy") == None
  {
    assert "ltcusd"[0] != "btcusd"[0] && "ltcusd"[0] != "ethusd"[0] && "ltcusd"[0] != "ethbtc"[0];
  }
}
