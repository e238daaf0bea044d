/** The currency service: a fixed table of USD exchange rates, price
    conversion, and currency symbols and names. */
module Currency {
  const ExchangeRates: map<string, real> :=
    map["USD" := 1.0, "INR" := 83.12, "CNY" := 7.24, "AED" := 3.67,
        "EUR" := 0.92, "GBP" := 0.79, "JPY" := 149.50]

  /** The rate used for a code: its table entry, 1.0 for an unknown code. */
  function RateFor(currency: string): real
  {
    if currency in ExchangeRates then ExchangeRates[currency] else 1.0
  }

  /** convert_price: USD prices are returned as they are, any other code
      multiplies by its rate. */
  function ConvertPrice(usdPrice: real, targetCurrency: string): real
  {
    if targetCurrency == "USD" then usdPrice else usdPrice * RateFor(targetCurrency)
  }

  const Dollar := "$"
  const Rupee := "\U{20B9}"
  const Yen := "\U{00A5}"
  const Dirham := "\U{062F}.\U{0625}"
  const EuroSign := "\U{20AC}"
  const Pound := "\U{00A3}"

  const Symbols: map<string, string> :=
    map["USD" := Dollar, "INR" := Rupee, "CNY" := Yen, "AED" := Dirham,
        "EUR" := EuroSign, "GBP" := Pound, "JPY" := Yen]

  /** get_currency_symbol: "$" for an unknown code. */
  function CurrencySymbol(currency: string): string
  {
    if currency in Symbols then Symbols[currency] else Dollar
  }

  datatype CurrencyInfo = CurrencyInfo(name: string, symbol: string)

  /** get_supported_currencies */
  const SupportedCurrencies: map<string, CurrencyInfo> :=
    map["USD" := CurrencyInfo("US Dollar", Dollar),
        "INR" := CurrencyInfo("Indian Rupee", Rupee),
        "CNY" := CurrencyInfo("Chinese Yuan", Yen),
        "AED" := CurrencyInfo("UAE Dirham", Dirham),
        "EUR" := CurrencyInfo("Euro", EuroSign),
        "GBP" := CurrencyInfo("British Pound", Pound),
        "JPY" := CurrencyInfo("Japanese Yen", Yen)]

  /** Conversion: the identity for USD and for unknown codes, the table rate
      for known codes. */
  lemma ConvertPriceCases(p: real, c: string)
    ensures c == "USD" ==> ConvertPrice(p, c) == p
    ensures c in ExchangeRates ==> ConvertPrice(p, c) == p * ExchangeRates[c]
    ensures c !in ExchangeRates ==> ConvertPrice(p, c) == p
  {
  }

  /** Every rate is positive, so conversion keeps the sign and the order of
      prices, and dividing by the rate gives the USD price back. */
  lemma ConversionMonotone(p: real, q: real, c: string)
    ensures RateFor(c) > 0.0
    ensures p < q ==> ConvertPrice(p, c) < ConvertPrice(q, c)
    ensures p > 0.0 ==> ConvertPrice(p, c) > 0.0
    ensures p == 0.0 ==> ConvertPrice(p, c) == 0.0
    ensures ConvertPrice(p, c) / RateFor(c) == p
  {
    var r := RateFor(c);
    assert r > 0.0 by {
      if c in ExchangeRates {
        assert c in {"USD", "INR", "CNY", "AED", "EUR", "GBP", "JPY"};
      }
    }
    assert ConvertPrice(p, c) == p * r;
    if p < q {
      assert (q - p) * r > 0.0;
    }
    if p > 0.0 {
      assert p * r > 0.0;
    }
  }

  /** The three tables cover the same codes, and the symbol a code reports
      is the one listed among the supported currencies. */
  lemma TablesAgree(c: string)
    ensures ExchangeRates.Keys == SupportedCurrencies.Keys == Symbols.Keys
    ensures c in SupportedCurrencies ==> CurrencySymbol(c) == SupportedCurrencies[c].symbol
    ensures c !in SupportedCurrencies ==> CurrencySymbol(c) == Dollar && RateFor(c) == 1.0
  {
    assert ExchangeRates.Keys == {"USD", "INR", "CNY", "AED", "EUR", "GBP", "JPY"};
    assert SupportedCurrencies.Keys == {"USD", "INR", "CNY", "AED", "EUR", "GBP", "JPY"};
    assert Symbols.Keys == {"USD", "INR", "CNY", "AED", "EUR", "GBP", "JPY"};
  }
}
