# GeminiAPI.rb in Dafny

A model of the Ruby client `GeminiAPI` for the Gemini exchange's REST API
(version 1), with proofs about it. The client holds an API key, an API secret
and a base URL (production or sandbox). It reads public market data with
unsigned GETs. It calls private endpoints with signed POSTs whose five headers
carry:

- the Base64 text of a JSON request descriptor;
- an HMAC-SHA384 signature of that text;
- the API key.

On top of the raw endpoints it offers:

- the balance of one currency;
- the notional account value in USD (BTC and ETH converted at the last
  ticker price);
- market-price orders: a limit order placed a fixed offset beyond the last
  price.

The model is split by concern:

- `ordered_hash.dfy` (`OrderedHash`): Ruby's insertion-ordered Hash as an
  association list. It covers lookup (`Get`), in-place assignment `h[k] = v`
  (`Store`) and the key order (`Keys`).
- `ruby_values.dfy` (`RubyValues`): the JSON values the client handles. It
  also covers the three Ruby operations applied to them, each of which raises
  on a receiver that lacks it: `v[key]` (`Index`), `to_f` (`ToF`) and
  `for t in v` (`Elements`).
- `transport.dfy` (`Transport`): `http_request` and `http_post`. An `Http`
  object logs every call in order. Its answers come from oracles fixed at
  creation; a request that fails is rescued by the client and answers nil.
- `signing.dfy` (`Signing`): the five-header envelope of a private request,
  and the exchange's check of it.
- `requests.dfy` (`Requests`): the base URLs, the endpoint paths and the
  request descriptor of every private endpoint.
- `pricing.dfy` (`Pricing`): the limit price of a market-price order.
- `balances.dfy` (`Balances`): the two computations over the balance list:
  the balance of one currency, and the notional value with the ticker
  requests it makes.
- `client.dfy` (`Client`): the `GeminiApi` class. It has one method per
  endpoint. Each method's effect is stated as the calls it appends to the
  transport log, and its result as what the oracle answered, read as the
  Ruby code reads it.

The library functions are parameters of the model (a `Primitives` value):

- `JSON.generate`;
- `Base64.strict_encode64` (section 4 of RFC 4648);
- `OpenSSL::HMAC.hexdigest` with SHA-384 (RFC 2104, FIPS 180-4);
- `Float#to_s` and `String#to_f`.

The nonce (`DateTime.now.strftime('%Q')`) is a parameter of each private
method.

### Choices about the code

- `place_order_at_market_price` makes its ticker GET (`GeminiAPI.rb:146`)
  before it checks the symbol (`GeminiAPI.rb:149-157`). The model keeps that
  order: `Client.GeminiApi.PlaceOrderAtMarketPrice` logs the ticker GET in
  every case, even for a symbol it then refuses.
- Failures are not typed errors. A failed request answers nil, and a value
  that lacks `[]`, `to_f` or `each` raises (`Raised`). Only
  `place_order_at_market_price` rescues, and it answers nil.
- `get_currency_balance` is documented as returning the currency's balance
  in the account (`GeminiAPI.rb:74`). When the currency is missing, the code
  returns the balance list instead; see "## Findings". The client in the
  model uses the corrected version, which answers nil.

## Model

| member | source | states |
|---|---|---|
| OrderedHash.Get | GeminiAPI.rb:80-81 | A Hash lookup is absent exactly when the key is not among the keys; a present answer is a stored pair for that key |
| OrderedHash.GetUnique | GeminiAPI.rb:62 | In a hash literal with distinct keys, looking up a key answers the value written for it |
| OrderedHash.Store | GeminiAPI.rb:127-129 | `h[k] = v` makes `k` answer `v`, leaves every other key's answer unchanged, and appends `k` to the key order only when it was new |
| RubyValues.Index | GeminiAPI.rb:80-81 | `v[key]` returns exactly for a Hash or a String: a Hash answers the stored value, or nil for a missing key; nil, numbers, booleans and arrays raise |
| RubyValues.ToF | GeminiAPI.rb:93-97 | `to_f` returns exactly for nil, numbers and strings: nil gives 0.0, a number gives itself, and a string gives what `String#to_f` parses from it |
| RubyValues.Elements | GeminiAPI.rb:79 | `for t in v` visits the elements of an Array, and for a Hash the `[key, value]` Array of each pair, in order; any other receiver raises |
| Transport.Http.constructor | GeminiAPI.rb:24-49 | A fresh transport has an empty log and the given answers |
| Transport.Http.Request | GeminiAPI.rb:24-32 | A GET appends exactly one GET of the URL to the log and answers the parsed body, or nil on failure |
| Transport.Http.Post | GeminiAPI.rb:36-49 | A POST appends exactly one POST of the URL with the headers to the log and answers the parsed body, or nil on failure |
| Signing.Envelope | GeminiAPI.rb:64-68 | The headers are, in order, Content-Length "0", Content-Type "text/plain", the API key, the Base64 of the JSON descriptor, and the HMAC-SHA384 of that Base64 text under the secret |
| Signing.EnvelopeAuthenticates | GeminiAPI.rb:64-68 | When Base64 decoding inverts Base64 encoding and parsing reads the descriptor's JSON back, the exchange accepts the envelope under the client's secret and reads back exactly the key and the descriptor that were sent |
| Signing.ReadersExist | GeminiAPI.rb:64 | For every descriptor there are encoders and readers that meet that condition, so the round trip is not vacuous |
| Signing.AcceptedExactlyUnderMatchingMac | GeminiAPI.rb:65 | The exchange accepts the envelope under a secret exactly when that secret's MAC of the payload equals the one the client sent |
| Requests.TickerUrl | GeminiAPI.rb:110-112 | The ticker URL is the base URL followed by `/v1/pubticker/` and the symbol |
| Requests.PlainDescriptor | GeminiAPI.rb:62 | The descriptor of balances, active orders and cancel-all has exactly the keys request and nonce, holding the path and the nonce |
| Requests.TradesDescriptor | GeminiAPI.rb:197 | The past-trades descriptor has keys request, nonce, symbol and limit_trades in that order; the size goes out unchanged |
| Requests.CancelDescriptor | GeminiAPI.rb:212 | The cancel descriptor has keys request, nonce and order_id; the id goes out unchanged |
| Requests.OrderFields | GeminiAPI.rb:124-125 | The order hash literal has its seven keys in source order: the quantity unchanged, the price as text, the type always "exchange limit" |
| Requests.OrderDescriptor | GeminiAPI.rb:124-129 | The signed order has an `options` key exactly when the order type is not 'limit'; it holds the one-element list of the order type and comes after the seven fields, which are unchanged |
| Pricing.MarketOffset | GeminiAPI.rb:149-157 | The offset is 200.0 for btcusd, 30.0 for ethusd and 0.01 for ethbtc, and is absent for any other symbol |
| Pricing.LimitPrice | GeminiAPI.rb:159-169 | A price exists exactly for a known symbol and a buy or sell side. It is never negative, never below last plus the signed offset, and equal to it unless clamped to 0. A buy is above the last price; a sell from a non-negative last price is below it or 0 |
| Pricing.BuyLimitAtLeastSellLimit | GeminiAPI.rb:159-169 | The buy limit is never below the sell limit; unless clamped, they differ by twice the offset |
| Pricing.MarketPriceExample | GeminiAPI.rb:144-171 | At a BTC price of 19000 a buy is limited at 19200.0 and a sell at 18800.0; an unknown symbol gets no price |
| Balances.FirstMatchFrom | GeminiAPI.rb:79-83 | The search finds the first record whose currency is the one asked for, after records that all read as other currencies. It finds nothing exactly when every record reads as another currency, and it does not raise when every currency field reads |
| Balances.FirstMatchFinds | GeminiAPI.rb:79-83 | A matching record preceded only by readable records of other currencies is the one the search finds |
| Balances.CurrencyBalanceAsWritten | GeminiAPI.rb:76-84 | As written, when no record matches, the method answers the balance list itself |
| Balances.CurrencyBalance | GeminiAPI.rb:76-84 | As intended, when no record matches, the answer is nil; a balance answer that cannot be iterated raises |
| Balances.ScanBalances | GeminiAPI.rb:79-84 | The loop returns the amount of the first matching record, raises where reading a record raises, and returns nil after the loop: the intended balance |
| Balances.CurrencyBalanceFindsFirst | GeminiAPI.rb:79-83 | When the records before it are readable and of other currencies, both versions answer the amount of the first record of the currency |
| Balances.MissingCurrencyAnswersList | GeminiAPI.rb:76-84 | On [BTC 1.5, USD 100], BTC answers "1.5". For ETH the code as written answers the list, where nil is intended |
| Balances.LastPrice | GeminiAPI.rb:93 | `get_ticker_info(pair, 'last').to_f`: a failed ticker request (nil) raises, a ticker Hash without `last` gives 0.0, and a result means the `last` field was read |
| Balances.Converted | GeminiAPI.rb:93 | `amount.to_f * last.to_f` makes no request or exactly one ticker GET of its pair; without the GET it has raised; a product needs a readable last price; an unreadable amount raises before any request |
| Balances.RecordValue | GeminiAPI.rb:92-98 | One loop iteration: a record whose currency cannot be read raises with no request; at most one request is made, and only for a BTC or ETH record |
| Balances.RunningSum | GeminiAPI.rb:89-99 | The loop from 0.0: no records give 0.0 and no requests; a sum is returned only when every step returned |
| Balances.NotionalOf | GeminiAPI.rb:89-99 | The notional loop over the records returns a sum only when every record's step returned |
| Balances.NotionalAccountValue | GeminiAPI.rb:91-101 | A balance answer that cannot be iterated (nil from a failed request) raises with no ticker request; a list answer is the notional loop over its records |
| Balances.RunningSumAppend | GeminiAPI.rb:91-99 | The loop over a + b is the loop over a followed by the loop over b from the sum a reached, unless a raised |
| Balances.RunningSumFront | GeminiAPI.rb:91-99 | The loop over [t] + rest runs the step of t first, then the rest from its value |
| Balances.RunningSumCons | GeminiAPI.rb:91-99 | A returning first step followed by a returning rest gives the sum of both and their calls in order |
| Balances.RunningSumTotal | GeminiAPI.rb:89-101 | When every step returns, the loop returns the total of the step values from 0.0, and the steps' calls in order |
| Balances.NotionalStep | GeminiAPI.rb:91-99 | One more record continues the loop: the sum is increased by that record's value and its requests follow the earlier ones |
| Balances.RaisedStays | GeminiAPI.rb:91-99 | Once a record raises, later records make no request and change nothing |
| Balances.OtherCurrencyIgnored | GeminiAPI.rb:92-98 | A readable record whose currency is none of BTC, ETH and USD adds nothing and requests nothing |
| Balances.ConvertedPriced | GeminiAPI.rb:93-95 | A record whose amount converts, at a price that converts, contributes amount times price, after one ticker GET of its pair |
| Balances.RecordValuePriced | GeminiAPI.rb:92-98 | A priced record adds its USD worth: amount times last price for BTC and ETH, the amount for USD, 0 otherwise. It requests exactly the ticker of its pair |
| Balances.NotionalIsWorth | GeminiAPI.rb:87-103 | Over priced records, the notional value is the sum of the records' USD worth (0.0 for none). It makes one ticker GET per BTC or ETH record, in record order |
| Balances.BtcRecordWorth | GeminiAPI.rb:93 | Two BTC at a last price of "100" add 200.0 and request the btcusd ticker |
| Balances.UsdRecordWorth | GeminiAPI.rb:97 | A USD record of "50" adds 50.0 and requests nothing |
| Balances.NotionalExample | GeminiAPI.rb:87-103 | Two BTC at 100 next to 50 USD are worth 250.0, with only the btcusd ticker requested |
| Client.GeminiApi.constructor | GeminiAPI.rb:11-20 | The key and the secret are kept; the base URL is the sandbox URL exactly when the sandbox flag is set, and production otherwise |
| Client.GeminiApi.SignedPost | GeminiAPI.rb:64-70 | One POST to base URL + path carrying the envelope of the descriptor, and nothing else logged; the answer is the exchange's |
| Client.GeminiApi.GetMarketSymbols | GeminiAPI.rb:52-56 | Exactly one GET of `/v1/symbols` under the base URL; answers its body |
| Client.GeminiApi.GetTickerInfo | GeminiAPI.rb:109-113 | Exactly one GET of the symbol's ticker; the answer is the field read with `[]`, which raises on nil or an answer that is neither a Hash nor a String |
| Client.GeminiApi.GetAvailableBalances | GeminiAPI.rb:59-71 | Exactly one signed POST of the balances descriptor for the nonce; answers the exchange's answer |
| Client.GeminiApi.GetCurrencyBalance | GeminiAPI.rb:76-84 | One signed balances POST. The answer is the intended balance of the currency in what the exchange returned |
| Client.GeminiApi.ConvertAmount | GeminiAPI.rb:93-95 | Converts the amount before requesting the ticker, and requests it only if that succeeded. The calls and the product are those of `Converted` |
| Client.GeminiApi.RecordStep | GeminiAPI.rb:92-98 | The loop body on one record makes the calls and returns the value of `RecordValue` |
| Client.GeminiApi.SumRecords | GeminiAPI.rb:89-101 | The loop from 0.0 makes exactly the calls of `NotionalOf` and returns its outcome, stopping at the first record that raises |
| Client.GeminiApi.SumBalances | GeminiAPI.rb:91 | A balance answer that is not a list or a Hash raises with no request; otherwise its records are summed |
| Client.GeminiApi.GetNotionalAccountValue | GeminiAPI.rb:87-103 | One signed balances POST, then the ticker GETs of the notional loop; the result is the notional value of what the exchange returned |
| Client.GeminiApi.PlaceOrder | GeminiAPI.rb:119-138 | A price without `to_f` raises before any request. Otherwise exactly one signed POST of the order descriptor, with the price's float text and `options` exactly when the type is not 'limit' |
| Client.GeminiApi.MarketLimit | GeminiAPI.rb:146-169 | The limit price from the ticker: present only for a known symbol and a buy or sell side, never negative, absent when the ticker request failed, and equal to `LimitPrice` at the last price |
| Client.GeminiApi.LastTradePrice | GeminiAPI.rb:146 | Exactly one GET of the symbol's ticker; the result is `LastPrice` of it |
| Client.GeminiApi.PlaceLimitOrder | GeminiAPI.rb:171 | `place_order` with a Float price and order type 'limit' cannot raise: exactly one signed POST of the descriptor with the price's float text and no options |
| Client.GeminiApi.PlaceOrderAtMarketPrice | GeminiAPI.rb:144-176 | Always one ticker GET first. For an unknown symbol or side, or an unreadable price, nothing more and nil. Otherwise one signed 'limit' order at the offset price, without options, and the exchange's answer |
| Client.GeminiApi.GetActiveOrders | GeminiAPI.rb:179-191 | Exactly one signed POST of the `/v1/orders` descriptor |
| Client.GeminiApi.GetPastTrades | GeminiAPI.rb:194-206 | Exactly one signed POST of the `/v1/mytrades` descriptor with the symbol and size |
| Client.GeminiApi.CancelOrder | GeminiAPI.rb:209-221 | Exactly one signed POST of the `/v1/order/cancel` descriptor with the order id |
| Client.GeminiApi.CancelAllActiveOrders | GeminiAPI.rb:224-236 | Exactly one signed POST of the `/v1/order/cancel/all` descriptor |

## Left out

- HTTP, TLS, JSON parsing and the read timeout are not modelled. Each GET and POST is one logged call whose answer comes from an oracle fixed when the transport is created. So a URL always answers the same, and a failed request (which the client prints and turns into nil) is an answer of nil.
- `JSON.generate`, `Base64.strict_encode64`, HMAC-SHA384, `Float#to_s` and `String#to_f` are parameters, not implementations. The round trip through the exchange's decoders is proved under the assumption that the decoders invert the encoders.
- Floats are real numbers, so rounding in `+`, `-` and `*` is not modelled.
- The nonce (`DateTime.now.strftime('%Q')`) is a parameter of each private method. Its freshness and monotonicity are not modelled.
- The credentials and base URL are Ruby class variables (`@@`), shared by every instance; a second `GeminiAPI.new` changes them for all. The model keeps them per instance, as constant fields.
- `puts` of the rescued error messages is not modelled.
- `amount = amount.to_f.to_s` (`GeminiAPI.rb:121`) assigns a local that is never used. It has no effect and is not modelled.
- Symbols, sides and order types are modelled as strings, so a non-String argument is not modelled. In Ruby such an argument behaves differently: `'/v1/pubticker/' + symbol` (`GeminiAPI.rb:110`) raises TypeError, which `place_order_at_market_price` rescues (`GeminiAPI.rb:173`), and `JSON.generate` would serialise it as its own JSON type.
- The `rescue` in `place_order_at_market_price` also covers exceptions raised inside `place_order`; with a Float price none can occur in the model, since the transport answers instead of raising.
- UsageExamples.rb is a script calling the client and is not part of this model.

## Findings

| source | as written | input that shows it | evidently intended | confidence | as-written member | corrected member |
|---|---|---|---|---|---|---|
| GeminiAPI.rb:79-83 | When no record has the currency, the `for` loop finishes and its value, the balance list itself, becomes the method's return value | `get_currency_balance('ETH')` on `[{"currency":"BTC","amount":"1.5"},{"currency":"USD","amount":"100"}]` answers the whole list (`Balances.MissingCurrencyAnswersList`) | nil (absent) when the currency is not in the list | not executed | Balances.CurrencyBalanceAsWritten | Balances.CurrencyBalance |
