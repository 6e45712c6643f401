/**
 * The rate table in fixed point, the USD reference rate, and the trade prices
 * derived from an amount, its price rate and that USD rate.
 */
module TradePrice {
  import opened Wrappers
  import opened FixedPoint
  import opened ExchangeState
  import opened ExchangeSelectors

  /** The rate table with every entry parsed; keys are kept as they are. */
  function ExchangeRatesWei(wei: Parser, rates: map<string, string>): (table: map<string, real>)
    ensures table.Keys == rates.Keys
    ensures forall k :: k in rates ==> table[k] == wei(rates[k])
  {
    map k | k in rates :: wei(rates[k])
  }

  /**
   * The accumulation of the source: entries are copied one at a time into an
   * initially empty table, in whatever order the keys are visited.
   */
  method AccumulateRatesWei(wei: Parser, rates: map<string, string>) returns (table: map<string, real>)
    ensures table.Keys == rates.Keys
    ensures forall k :: k in table ==> table[k] == wei(rates[k])
  {
    table := map[];
    var pending := rates.Keys;
    while pending != {}
      invariant pending <= rates.Keys
      invariant table.Keys == rates.Keys - pending
      invariant forall k :: k in table ==> k in rates && table[k] == wei(rates[k])
      decreases pending
    {
      var key :| key in pending;
      table := table[key := wei(rates[key])];
      pending := pending - {key};
    }
  }

  /** The order-free accumulation builds exactly the parsed table. */
  lemma AccumulationIsExchangeRatesWei(wei: Parser, rates: map<string, string>, table: map<string, real>)
    requires table.Keys == rates.Keys
    requires forall k :: k in table ==> table[k] == wei(rates[k])
    ensures table == ExchangeRatesWei(wei, rates)
  {
  }

  /** The `sUSD` entry of the parsed table, undefined when the table has none. */
  function UsdRateWei(wei: Parser, s: Snapshot): (r: Option<real>)
    ensures r.Some? <==> SUSD in s.exchange.exchangeRates
    ensures r.Some? ==> r.value == wei(s.exchange.exchangeRates[SUSD])
  {
    var table := ExchangeRatesWei(wei, s.exchange.exchangeRates);
    if SUSD in table then Some(table[SUSD]) else None
  }

  /**
   * A present USD rate must be nonzero: the source tests only that the rate
   * exists before dividing by it.
   */
  predicate UsdDivisible(usdRate: Option<real>) {
    usdRate.Some? ==> usdRate.value != 0.0
  }

  /**
   * `amount * priceRate`, expressed in USD when a USD rate is present and left
   * in native terms otherwise.
   */
  function PriceInUsd(amount: real, priceRate: real, usdRate: Option<real>): (price: real)
    requires UsdDivisible(usdRate)
    ensures usdRate.None? ==> price == amount * priceRate
    ensures usdRate.Some? ==> price * usdRate.value == amount * priceRate
  {
    var native := amount * priceRate;
    if usdRate.Some? then native / usdRate.value else native
  }

  function TotalTradePrice(wei: Parser, s: Snapshot): (price: real)
    requires UsdDivisible(UsdRateWei(wei, s))
    ensures SUSD !in s.exchange.exchangeRates
            ==> price == QuoteAmountWei(wei, s) * QuotePriceRateWei(wei, s)
    ensures SUSD in s.exchange.exchangeRates
            ==> price * wei(s.exchange.exchangeRates[SUSD]) == QuoteAmountWei(wei, s) * QuotePriceRateWei(wei, s)
  {
    PriceInUsd(QuoteAmountWei(wei, s), QuotePriceRateWei(wei, s), UsdRateWei(wei, s))
  }

  function EstimatedBaseTradePrice(wei: Parser, s: Snapshot): (price: real)
    requires UsdDivisible(UsdRateWei(wei, s))
    ensures SUSD !in s.exchange.exchangeRates
            ==> price == BaseAmountWei(wei, s) * BasePriceRateWei(wei, s)
    ensures SUSD in s.exchange.exchangeRates
            ==> price * wei(s.exchange.exchangeRates[SUSD]) == BaseAmountWei(wei, s) * BasePriceRateWei(wei, s)
  {
    PriceInUsd(BaseAmountWei(wei, s), BasePriceRateWei(wei, s), UsdRateWei(wei, s))
  }

  /** Ten units at price two: twenty without a USD rate, five at a USD rate of four. */
  lemma TradePriceExamples()
    ensures PriceInUsd(10.0, 2.0, None) == 20.0
    ensures PriceInUsd(10.0, 2.0, Some(4.0)) == 5.0
  {
  }

  /** The same state with the `sUSD` entry removed from its rate table. */
  function WithoutUsdRate(s: Snapshot): (native: Snapshot)
    ensures SUSD !in native.exchange.exchangeRates
    ensures forall k :: k in s.exchange.exchangeRates && k != SUSD ==> k in native.exchange.exchangeRates
  {
    s.(exchange := s.exchange.(exchangeRates := s.exchange.exchangeRates - {SUSD}))
  }

  /** The total trade price with a nonzero `sUSD` rate u, times u, is the price without that rate. */
  lemma TotalTradePriceRescales(wei: Parser, s: Snapshot)
    requires SUSD in s.exchange.exchangeRates
    requires wei(s.exchange.exchangeRates[SUSD]) != 0.0
    ensures TotalTradePrice(wei, s) * wei(s.exchange.exchangeRates[SUSD]) == TotalTradePrice(wei, WithoutUsdRate(s))
  {
    var native := WithoutUsdRate(s);
    assert QuoteAmountWei(wei, native) == QuoteAmountWei(wei, s);
    assert QuotePriceRateWei(wei, native) == QuotePriceRateWei(wei, s);
  }

  /** The estimated base trade price with a nonzero `sUSD` rate u, times u, is the price without that rate. */
  lemma EstimatedBaseTradePriceRescales(wei: Parser, s: Snapshot)
    requires SUSD in s.exchange.exchangeRates
    requires wei(s.exchange.exchangeRates[SUSD]) != 0.0
    ensures EstimatedBaseTradePrice(wei, s) * wei(s.exchange.exchangeRates[SUSD])
            == EstimatedBaseTradePrice(wei, WithoutUsdRate(s))
  {
    var native := WithoutUsdRate(s);
    assert BaseAmountWei(wei, native) == BaseAmountWei(wei, s);
    assert BasePriceRateWei(wei, native) == BasePriceRateWei(wei, s);
  }

  /**
   * The `sUSD` entry only rescales: both trade prices of a state with a nonzero
   * `sUSD` rate, multiplied by that rate, equal the prices of the same state
   * with the `sUSD` entry removed from the rate table.
   */
  lemma UsdRateOnlyRescales(wei: Parser, s: Snapshot)
    requires SUSD in s.exchange.exchangeRates
    requires wei(s.exchange.exchangeRates[SUSD]) != 0.0
    ensures TotalTradePrice(wei, s) * wei(s.exchange.exchangeRates[SUSD]) == TotalTradePrice(wei, WithoutUsdRate(s))
    ensures EstimatedBaseTradePrice(wei, s) * wei(s.exchange.exchangeRates[SUSD])
            == EstimatedBaseTradePrice(wei, WithoutUsdRate(s))
  {
    TotalTradePriceRescales(wei, s);
    EstimatedBaseTradePriceRescales(wei, s);
  }
}
