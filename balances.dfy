/** The two computations over the `/v1/balances` answer: the balance of one
    currency (`get_currency_balance`) and the notional account value in USD
    (`get_notional_account_value`). The answer is whatever `http_post`
    returned; `for t in balances` visits it as `Elements` says, and each
    record is read with Ruby's `[]` and `to_f`, so a malformed answer raises
    exactly where the Ruby code would. */
module Balances {
  import opened OrderedHash
  import opened RubyValues
  import opened Transport
  import opened Requests

  /** The record's `currency` field is `currency`. */
  predicate Matches(t: Value, currency: string)
  {
    Index(t, "currency") == Returned(Str(currency))
  }

  /** The record's `currency` field can be read and is not `currency`. */
  predicate Skipped(t: Value, currency: string)
  {
    Index(t, "currency").Returned? && Index(t, "currency").value != Str(currency)
  }

  /** The position of the first record of `currency` at or after `from`: None
      when every record there is read and skipped, Raised when reading the
      `currency` field of a record before any match raises. */
  function FirstMatchFrom(items: seq<Value>, currency: string, from: nat): (r: Outcome<Option<nat>>)
    requires from <= |items|
    ensures r.Returned? && r.value.Some? ==>
      from <= r.value.value < |items| && Matches(items[r.value.value], currency) &&
      forall j :: from <= j < r.value.value ==> Skipped(items[j], currency)
    ensures r == Returned(None) <==> forall j :: from <= j < |items| ==> Skipped(items[j], currency)
    ensures (forall j :: from <= j < |items| ==> Index(items[j], "currency").Returned?) ==> r.Returned?
    decreases |items| - from
  {
    if from == |items| then Returned(None)
    else
      match Index(items[from], "currency")
      case Raised => Raised
      case Returned(c) =>
        if c == Str(currency) then Returned(Some(from))
        else FirstMatchFrom(items, currency, from + 1)
  }

  /** `get_currency_balance` as the code is written: the `amount` of the first
      record of `currency`; when there is none, the `for` loop finishes and the
      method returns the value of the loop, which in Ruby is the list itself. */
  function CurrencyBalanceAsWritten(balances: Value, currency: string): (r: Outcome<Value>)
    ensures balances.Arr? && (forall j :: 0 <= j < |balances.items| ==> Skipped(balances.items[j], currency))
            ==> r == Returned(balances)
  {
    match Elements(balances)
    case Raised => Raised
    case Returned(items) =>
      match FirstMatchFrom(items, currency, 0)
      case Raised => Raised
      case Returned(None) => Returned(balances)
      case Returned(Some(i)) => Index(items[i], "amount")
  }

  /** `get_currency_balance` as intended: the `amount` of the first record of
      `currency`, or nil when there is none. */
  function CurrencyBalance(balances: Value, currency: string): (r: Outcome<Value>)
    ensures balances.Arr? && (forall j :: 0 <= j < |balances.items| ==> Skipped(balances.items[j], currency))
            ==> r == Returned(Null)
    ensures Elements(balances).Raised? ==> r.Raised?
  {
    match Elements(balances)
    case Raised => Raised
    case Returned(items) =>
      match FirstMatchFrom(items, currency, 0)
      case Raised => Raised
      case Returned(None) => Returned(Null)
      case Returned(Some(i)) => Index(items[i], "amount")
  }

  /** The loop of `get_currency_balance`: return from inside the loop at the
      first record of `currency`; nil after the loop. */
  method ScanBalances(balances: Value, currency: string) returns (r: Outcome<Value>)
    ensures r == CurrencyBalance(balances, currency)
  {
    var elements := Elements(balances);
    if elements.Raised? {
      return Raised;
    }
    var items := elements.value;
    for i := 0 to |items|
      invariant FirstMatchFrom(items, currency, i) == FirstMatchFrom(items, currency, 0)
    {
      var c := Index(items[i], "currency");
      if c.Raised? {
        return Raised;
      }
      if c.value == Str(currency) {
        return Index(items[i], "amount");
      }
    }
    return Returned(Null);
  }

  /** The search from `from` stops at `i` when `i` is the first record of
      `currency` and every record before it is readable. */
  lemma {:induction false} FirstMatchFinds(items: seq<Value>, currency: string, from: nat, i: nat)
    requires from <= i < |items| && Matches(items[i], currency)
    requires forall j :: from <= j < i ==> Skipped(items[j], currency)
    ensures FirstMatchFrom(items, currency, from) == Returned(Some(i))
    decreases i - from
  {
    if from < i {
      assert Skipped(items[from], currency);
      FirstMatchFinds(items, currency, from + 1, i);
    }
  }

  /** When the records before it are readable and of other currencies, the
      balance is the `amount` of the first record of `currency`. */
  lemma CurrencyBalanceFindsFirst(items: seq<Value>, currency: string, i: nat)
    requires i < |items| && Matches(items[i], currency)
    requires forall j :: 0 <= j < i ==> Skipped(items[j], currency)
    ensures CurrencyBalance(Arr(items), currency) == Index(items[i], "amount")
    ensures CurrencyBalanceAsWritten(Arr(items), currency) == Index(items[i], "amount")
  {
    FirstMatchFinds(items, currency, 0, i);
  }

  /** A BTC record of 1.5 followed by a USD record of 100. */
  function SampleBalances(): Value
  {
    Arr([Obj([("currency", Str("BTC")), ("amount", Str("1.5"))]),
         Obj([("currency", Str("USD")), ("amount", Str("100"))])])
  }

  /** On the sample list BTC is found with its amount text, and for the
      missing ETH the code as written answers the list itself where nil is
      meant. */
  lemma MissingCurrencyAnswersList()
    ensures CurrencyBalance(SampleBalances(), "BTC") == Returned(Str("1.5"))
    ensures CurrencyBalanceAsWritten(SampleBalances(), "ETH") == Returned(SampleBalances())
    ensures CurrencyBalance(SampleBalances(), "ETH") == Returned(Null)
  {
    var btc: Assoc<Value> := [("currency", Str("BTC")), ("amount", Str("1.5"))];
    var usd: Assoc<Value> := [("currency", Str("USD")), ("amount", Str("100"))];
    GetUnique(btc, "currency", Str("BTC"));
    GetUnique(btc, "amount", Str("1.5"));
    GetUnique(usd, "currency", Str("USD"));
    assert "ETH"[0] != "BTC"[0] && "ETH"[0] != "USD"[0];
    assert Skipped(Obj(btc), "ETH") && Skipped(Obj(usd), "ETH");
    CurrencyBalanceFindsFirst([Obj(btc), Obj(usd)], "BTC", 0);
  }

  // ---------------------------------------------------------------------------
  // Notional account value

  /** Where the client reads prices: the GET oracle, the base URL, and
      `String#to_f`. */
  datatype Market = Market(get: string -> Value, base: string, stringToF: string -> real)

  /** An outcome together with the network calls made on the way to it. */
  datatype Trace<T> = Trace(outcome: Outcome<T>, calls: seq<Call>)

  /** `get_ticker_info(pair, 'last').to_f`, after its GET has been made. */
  function LastPrice(m: Market, pair: string): (r: Outcome<real>)
    ensures m.get(TickerUrl(m.base, pair)).Null? ==> r.Raised?
    ensures m.get(TickerUrl(m.base, pair)).Obj? && "last" !in Keys(m.get(TickerUrl(m.base, pair)).fields) ==>
      r == Returned(0.0)
    ensures r.Returned? ==> Index(m.get(TickerUrl(m.base, pair)), "last").Returned?
  {
    match Index(m.get(TickerUrl(m.base, pair)), "last")
    case Raised => Raised
    case Returned(v) => ToF(m.stringToF, v)
  }

  /** Ruby's `Float#*`. */
  function Times(x: real, y: real): real
  {
    x * y
  }

  /** `t['amount'].to_f * get_ticker_info(pair, 'last').to_f`: the amount is
      converted first, and the ticker is requested only if that succeeds. */
  function Converted(m: Market, t: Value, pair: string): (r: Trace<real>)
    ensures r.calls == [] || r.calls == [GetCall(TickerUrl(m.base, pair))]
    ensures r.calls == [] ==> r.outcome.Raised?
    ensures r.outcome.Returned? ==> LastPrice(m, pair).Returned?
    ensures Index(t, "amount").Raised? ==> r == Trace(Raised, [])
  {
    var amount := Index(t, "amount");
    if amount.Raised? then Trace(Raised, [])
    else
      var a := ToF(m.stringToF, amount.value);
      if a.Raised? then Trace(Raised, [])
      else
        var last := LastPrice(m, pair);
        Trace(if last.Raised? then Raised else Returned(Times(a.value, last.value)),
              [GetCall(TickerUrl(m.base, pair))])
  }

  /** What one balance record adds to the notional value, and the ticker
      requests it makes: BTC and ETH are converted at the last USD price, USD
      counts as it is, any other currency adds nothing. */
  function RecordValue(m: Market, t: Value): (r: Trace<real>)
    ensures Index(t, "currency").Raised? ==> r == Trace(Raised, [])
    ensures |r.calls| <= 1
    ensures r.calls != [] ==> Matches(t, "BTC") || Matches(t, "ETH")
  {
    match Index(t, "currency")
    case Raised => Trace(Raised, [])
    case Returned(c) =>
      if c == Str("BTC") then Converted(m, t, "btcusd")
      else if c == Str("ETH") then Converted(m, t, "ethusd")
      else if c == Str("USD") then
        Trace(match Index(t, "amount") case Raised => Raised case Returned(a) => ToF(m.stringToF, a), [])
      else Trace(Returned(0.0), [])
  }

  /** Adds `x` to the outcome of `t` and puts `calls` before its calls. */
  function After(x: real, calls: seq<Call>, t: Trace<real>): Trace<real>
  {
    Trace(match t.outcome case Raised => Raised case Returned(y) => Returned(x + y), calls + t.calls)
  }

  /** The loop `for t in items: sum += step(t)` from 0.0, stopping at the
      first step that raises. */
  function RunningSum(step: Value -> Trace<real>, items: seq<Value>): (r: Trace<real>)
    ensures items == [] ==> r == Trace(Returned(0.0), [])
    ensures r.outcome.Returned? ==> forall t :: t in items ==> step(t).outcome.Returned?
  {
    if items == [] then Trace(Returned(0.0), [])
    else
      var prefix := RunningSum(step, items[..|items| - 1]);
      match prefix.outcome
      case Raised => prefix
      case Returned(sum) => After(sum, prefix.calls, step(items[|items| - 1]))
  }

  /** The loop body of `get_notional_account_value` as a step of `RunningSum`. */
  function Step(m: Market): Value -> Trace<real>
  {
    t => RecordValue(m, t)
  }

  /** The notional-value loop over the records `items`. */
  function NotionalOf(m: Market, items: seq<Value>): (r: Trace<real>)
    ensures r.outcome.Returned? ==> forall t :: t in items ==> RecordValue(m, t).outcome.Returned?
  {
    RunningSum(Step(m), items)
  }

  /** `get_notional_account_value` after its `/v1/balances` request answered `balances`. */
  function NotionalAccountValue(m: Market, balances: Value): (r: Trace<real>)
    ensures Elements(balances).Raised? ==> r == Trace(Raised, [])
    ensures balances.Arr? ==> r == NotionalOf(m, balances.items)
  {
    match Elements(balances)
    case Raised => Trace(Raised, [])
    case Returned(items) => NotionalOf(m, items)
  }

  /** The loop over `a + b` is the loop over `a` followed by the loop over `b`
      started from the sum `a` reached. */
  lemma {:induction false} RunningSumAppend(step: Value -> Trace<real>, a: seq<Value>, b: seq<Value>)
    ensures RunningSum(step, a + b) ==
      match RunningSum(step, a).outcome
      case Raised => RunningSum(step, a)
      case Returned(x) => After(x, RunningSum(step, a).calls, RunningSum(step, b))
    decreases |b|
  {
    if b == [] {
      assert a + b == a;
    } else {
      var b' := b[..|b| - 1];
      assert (a + b)[..|a + b| - 1] == a + b';
      assert (a + b)[|a + b| - 1] == b[|b| - 1];
      RunningSumAppend(step, a, b');
    }
  }

  /** The loop over `[t] + rest` takes the step of `t` first. */
  lemma RunningSumFront(step: Value -> Trace<real>, t: Value, rest: seq<Value>)
    ensures RunningSum(step, [t] + rest) ==
      match step(t).outcome
      case Raised => Trace(Raised, step(t).calls)
      case Returned(x) => After(x, step(t).calls, RunningSum(step, rest))
  {
    assert [t][..0] == [];
    RunningSumAppend(step, [t], rest);
  }

  /** A step that returns `x` with `calls`, in front of a loop that returns `w`
      with `cs`, returns `x + w` with `calls + cs`. */
  lemma RunningSumCons(step: Value -> Trace<real>, t: Value, rest: seq<Value>,
                       x: real, calls: seq<Call>, w: real, cs: seq<Call>)
    requires step(t) == Trace(Returned(x), calls)
    requires RunningSum(step, rest) == Trace(Returned(w), cs)
    ensures RunningSum(step, [t] + rest) == Trace(Returned(x + w), calls + cs)
  {
    RunningSumFront(step, t, rest);
  }

  /** One more record: the loop over `items[..i + 1]` continues the loop over
      `items[..i]` with the step of `items[i]`. */
  lemma NotionalStep(m: Market, items: seq<Value>, i: nat)
    requires i < |items|
    ensures NotionalOf(m, items[..i + 1]) ==
      match NotionalOf(m, items[..i]).outcome
      case Raised => NotionalOf(m, items[..i])
      case Returned(sum) => After(sum, NotionalOf(m, items[..i]).calls, RecordValue(m, items[i]))
  {
    assert items[..i + 1][..i] == items[..i];
  }

  /** Once a record raises, the records after it change nothing: no more
      requests are made and the method raises. */
  lemma RaisedStays(m: Market, items: seq<Value>, k: nat)
    requires k <= |items|
    requires NotionalOf(m, items[..k]).outcome.Raised?
    ensures NotionalOf(m, items) == NotionalOf(m, items[..k])
  {
    assert items == items[..k] + items[k..];
    RunningSumAppend(Step(m), items[..k], items[k..]);
  }

  /** A readable record of any currency other than BTC, ETH and USD leaves the
      sum unchanged and makes no request. */
  lemma OtherCurrencyIgnored(m: Market, items: seq<Value>, t: Value)
    requires Index(t, "currency").Returned?
    requires Index(t, "currency").value !in {Str("BTC"), Str("ETH"), Str("USD")}
    ensures NotionalOf(m, items + [t]) == NotionalOf(m, items)
  {
    assert (items + [t])[..|items|] == items;
  }

  /** A record the model can value without raising: a Hash whose amount
      converts, and whose ticker price converts when it is BTC or ETH. */
  predicate Priced(m: Market, t: Value)
  {
    t.Obj? &&
    ToF(m.stringToF, Index(t, "amount").value).Returned? &&
    (Matches(t, "BTC") ==> LastPrice(m, "btcusd").Returned?) &&
    (Matches(t, "ETH") ==> LastPrice(m, "ethusd").Returned?)
  }

  /** The record's `amount` converted with `to_f`, or 0.0 where that raises. */
  function Amount(m: Market, t: Value): real
  {
    var amount := Index(t, "amount");
    if amount.Returned? && ToF(m.stringToF, amount.value).Returned?
    then ToF(m.stringToF, amount.value).value
    else 0.0
  }

  /** The last USD price of `pair`, or 0.0 where reading it raises. */
  function Price(m: Market, pair: string): real
  {
    var last := LastPrice(m, pair);
    if last.Returned? then last.value else 0.0
  }

  /** The record's worth in USD: the amount times the last price for BTC
      and ETH, the amount itself for USD, nothing for any other currency. */
  function Usd(m: Market, t: Value): real
  {
    if Matches(t, "BTC") then Times(Amount(m, t), Price(m, "btcusd"))
    else if Matches(t, "ETH") then Times(Amount(m, t), Price(m, "ethusd"))
    else if Matches(t, "USD") then Amount(m, t)
    else 0.0
  }

  /** The ticker request a record causes. */
  function TickerCalls(m: Market, t: Value): seq<Call>
  {
    if Matches(t, "BTC") then [GetCall(TickerUrl(m.base, "btcusd"))]
    else if Matches(t, "ETH") then [GetCall(TickerUrl(m.base, "ethusd"))]
    else []
  }

  /** `value` summed over `items` from the front. */
  function Total(value: Value -> real, items: seq<Value>): real
  {
    if items == [] then 0.0 else value(items[0]) + Total(value, items[1..])
  }

  /** The calls `calls` gives for each of `items`, in order. */
  function AllCalls(calls: Value -> seq<Call>, items: seq<Value>): seq<Call>
  {
    if items == [] then [] else calls(items[0]) + AllCalls(calls, items[1..])
  }

  /** When every step returns, the loop returns the total of the steps' values
      and makes the steps' calls in order. */
  lemma {:induction false} RunningSumTotal(step: Value -> Trace<real>, value: Value -> real,
                                           calls: Value -> seq<Call>, items: seq<Value>)
    requires forall t :: t in items ==> step(t) == Trace(Returned(value(t)), calls(t))
    ensures RunningSum(step, items) == Trace(Returned(Total(value, items)), AllCalls(calls, items))
    decreases |items|
  {
    if items != [] {
      var t, rest := items[0], items[1..];
      assert items == [t] + rest;
      assert t in items;
      RunningSumTotal(step, value, calls, rest);
      RunningSumCons(step, t, rest, value(t), calls(t), Total(value, rest), AllCalls(calls, rest));
    }
  }

  /** The worth in USD of each record. */
  function UsdOf(m: Market): Value -> real
  {
    t => Usd(m, t)
  }

  /** The ticker requests of each record. */
  function TickerCallsOf(m: Market): Value -> seq<Call>
  {
    t => TickerCalls(m, t)
  }

  /** A BTC or ETH record whose amount and price convert contributes their product. */
  lemma ConvertedPriced(m: Market, t: Value, pair: string)
    requires Priced(m, t) && LastPrice(m, pair).Returned?
    ensures Converted(m, t, pair) ==
      Trace(Returned(Times(Amount(m, t), Price(m, pair))), [GetCall(TickerUrl(m.base, pair))])
  {
  }

  /** One priced record contributes its worth in USD and makes its ticker request. */
  lemma RecordValuePriced(m: Market, t: Value)
    requires Priced(m, t)
    ensures RecordValue(m, t) == Trace(Returned(Usd(m, t)), TickerCalls(m, t))
  {
    var c := Index(t, "currency").value;
    assert "ETH"[0] != "BTC"[0] && "USD"[0] != "BTC"[0] && "USD"[0] != "ETH"[0];
    if c == Str("BTC") {
      ConvertedPriced(m, t, "btcusd");
    } else if c == Str("ETH") {
      assert !Matches(t, "BTC");
      ConvertedPriced(m, t, "ethusd");
    } else if c == Str("USD") {
      assert !Matches(t, "BTC") && !Matches(t, "ETH");
    } else {
      assert !Matches(t, "BTC") && !Matches(t, "ETH") && !Matches(t, "USD");
    }
  }

  /** Over priced records the notional value is the sum of the records' worth
      in USD (an empty list gives 0.0), with one ticker request per BTC or ETH
      record, in the order of the records. */
  lemma NotionalIsWorth(m: Market, items: seq<Value>)
    requires forall t :: t in items ==> Priced(m, t)
    ensures NotionalOf(m, items) ==
      Trace(Returned(Total(UsdOf(m), items)), AllCalls(TickerCallsOf(m), items))
  {
    forall t | t in items
      ensures Step(m)(t) == Trace(Returned(UsdOf(m)(t)), TickerCallsOf(m)(t))
    {
      RecordValuePriced(m, t);
    }
    RunningSumTotal(Step(m), UsdOf(m), TickerCallsOf(m), items);
  }

  /** A record of two BTC with the BTC ticker at 100 USD adds 200 USD and
      requests the BTC ticker. */
  lemma BtcRecordWorth(m: Market)
    requires m.stringToF("2") == 2.0 && m.stringToF("100") == 100.0
    requires m.get(TickerUrl(m.base, "btcusd")) == Obj([("last", Str("100"))])
    ensures RecordValue(m, Obj([("currency", Str("BTC")), ("amount", Str("2"))])) ==
      Trace(Returned(200.0), [GetCall(TickerUrl(m.base, "btcusd"))])
  {
    var btc: Assoc<Value> := [("currency", Str("BTC")), ("amount", Str("2"))];
    GetUnique(btc, "currency", Str("BTC"));
    GetUnique(btc, "amount", Str("2"));
    GetUnique([("last", Str("100"))], "last", Str("100"));
    assert LastPrice(m, "btcusd") == Returned(100.0);
    RecordValuePriced(m, Obj(btc));
  }

  /** A record of 50 USD adds 50 USD and requests nothing. */
  lemma UsdRecordWorth(m: Market)
    requires m.stringToF("50") == 50.0
    ensures RecordValue(m, Obj([("currency", Str("USD")), ("amount", Str("50"))])) == Trace(Returned(50.0), [])
  {
    var usd: Assoc<Value> := [("currency", Str("USD")), ("amount", Str("50"))];
    GetUnique(usd, "currency", Str("USD"));
    GetUnique(usd, "amount", Str("50"));
    assert "USD"[0] != "BTC"[0] && "USD"[0] != "ETH"[0];
  }

  /** Two BTC at a last price of 100 USD next to 50 USD are worth 250 USD, and
      only the BTC ticker is requested. */
  lemma NotionalExample(m: Market)
    requires m.stringToF("2") == 2.0 && m.stringToF("50") == 50.0 && m.stringToF("100") == 100.0
    requires m.get(TickerUrl(m.base, "btcusd")) == Obj([("last", Str("100"))])
    ensures NotionalAccountValue(m, Arr([Obj([("currency", Str("BTC")), ("amount", Str("2"))]),
                                         Obj([("currency", Str("USD")), ("amount", Str("50"))])]))
            == Trace(Returned(250.0), [GetCall(TickerUrl(m.base, "btcusd"))])
  {
    var btc := Obj([("currency", Str("BTC")), ("amount", Str("2"))]);
    var usd := Obj([("currency", Str("USD")), ("amount", Str("50"))]);
    BtcRecordWorth(m);
    UsdRecordWorth(m);
    RunningSumCons(Step(m), usd, [], 50.0, [], 0.0, []);
    RunningSumCons(Step(m), btc, [usd], 200.0, [GetCall(TickerUrl(m.base, "btcusd"))], 50.0, []);
    assert [btc] + [usd] == [btc, usd] && [usd] + [] == [usd];
  }
}
