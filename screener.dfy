/** The stock screener: the per-symbol filter ladder of screen_by_criteria
    over already fetched stock information, RSI and moving averages. */
module Screener {
  import opened Common

  /** A float as Python sees it after a pandas computation: NaN or a number. */
  datatype Float = NaN | Finite(v: real)

  /** The fields of get_stock_info that the screen reads. A field that the
      provider reports as null is None; a field it omits already holds its
      default (0 for numbers, None for the P/E ratio). */
  datatype StockInfo = StockInfo(symbol: string, name: string, price: Option<real>, marketCap: Option<real>,
                                 peRatio: Option<real>, volume: Option<real>)

  /** calculate_sma_50_200: {} when the download fails, otherwise both
      averages (NaN while there are too few closes). */
  datatype SmaData = NoSma | Sma(sma50: Float, sma200: Float)

  /** Everything fetched for one symbol: the stock information (None when
      get_stock_info returns {}), the RSI (None when calculate_rsi returns
      None) and the moving averages. */
  datatype Fetched = Fetched(info: Option<StockInfo>, rsi: Option<Float>, sma: SmaData)

  function FetchedFor(market: map<string, Fetched>, symbol: string): Fetched
  {
    if symbol in market then market[symbol] else Fetched(None, None, NoSma)
  }

  /** The criteria dictionary; an absent key is None. */
  datatype Criteria = Criteria(priceMin: Option<real>, priceMax: Option<real>,
                               marketCapMin: Option<real>, marketCapMax: Option<real>,
                               peRatioMax: Option<real>, minVolume: Option<real>,
                               rsiOversold: bool, rsiOverbought: bool, smaCrossover: Option<string>)

  /** criteria.get(key) is truthy: present and non-zero. */
  predicate Active(c: Option<real>)
  {
    c.Some? && c.value != 0.0
  }

  /** `if rsi:` -- None and 0.0 are falsy, NaN is truthy. */
  predicate Truthy(x: Option<Float>)
  {
    match x
    case None => false
    case Some(NaN) => true
    case Some(Finite(v)) => v != 0.0
  }

  /** Comparisons with NaN are false. */
  predicate AtLeast(x: Float, bound: real)
  {
    x.Finite? && x.v >= bound
  }

  predicate AtMost(x: Float, bound: real)
  {
    x.Finite? && x.v <= bound
  }

  const Oversold := 30.0
  const Overbought := 70.0

  /** "bullish" if sma_50 > sma_200 else "bearish"; NaN compares false. */
  function Crossover(sma50: Float, sma200: Float): string
  {
    if sma50.Finite? && sma200.Finite? && sma50.v > sma200.v then "bullish" else "bearish"
  }

  /** A lower bound check: inactive, or the value is present and not below
      the bound. A null value makes the comparison raise, which skips the
      symbol. */
  predicate LowerOk(c: Option<real>, x: Option<real>)
  {
    Active(c) ==> x.Some? && !(x.value < c.value)
  }

  predicate UpperOk(c: Option<real>, x: Option<real>)
  {
    Active(c) ==> x.Some? && !(x.value > c.value)
  }

  /** The price, market-cap, P/E and volume checks. */
  predicate FundamentalsOk(c: Criteria, info: StockInfo)
  {
    && LowerOk(c.priceMin, info.price)
    && UpperOk(c.priceMax, info.price)
    && LowerOk(c.marketCapMin, info.marketCap)
    && UpperOk(c.marketCapMax, info.marketCap)
    && (Active(c.peRatioMax) ==> !(info.peRatio.Some? && info.peRatio.value != 0.0 && info.peRatio.value > c.peRatioMax.value))
    && LowerOk(c.minVolume, info.volume)
  }

  /** The RSI and moving-average checks. */
  predicate IndicatorsOk(c: Criteria, rsi: Option<Float>, sma: SmaData)
  {
    && (Truthy(rsi) ==> (c.rsiOversold ==> !AtLeast(rsi.value, Oversold))
                        && (c.rsiOverbought ==> !AtMost(rsi.value, Overbought)))
    && (c.smaCrossover.Some? && c.smaCrossover.value != "" && sma.Sma? ==>
          Crossover(sma.sma50, sma.sma200) == c.smaCrossover.value)
  }

  /** The filter ladder for one symbol whose information was fetched. */
  predicate Keeps(c: Criteria, info: StockInfo, rsi: Option<Float>, sma: SmaData)
  {
    FundamentalsOk(c, info) && IndicatorsOk(c, rsi, sma)
  }

  /** A kept stock: its information with the RSI and the moving averages
      added. */
  datatype Screened = Screened(info: StockInfo, rsi: Option<Float>, sma: SmaData)

  function Outcome(c: Criteria, f: Fetched): seq<Screened>
  {
    if f.info.Some? && Keeps(c, f.info.value, f.rsi, f.sma) then [Screened(f.info.value, f.rsi, f.sma)] else []
  }

  function Screen(symbols: seq<string>, c: Criteria, market: map<string, Fetched>): seq<Screened>
  {
    if symbols == [] then []
    else Screen(symbols[..|symbols| - 1], c, market) + Outcome(c, FetchedFor(market, symbols[|symbols| - 1]))
  }

  /** Lines of the loop body of screen_by_criteria before the RSI: each
      `continue` of the source returns false here. */
  method CheckFundamentals(c: Criteria, info: StockInfo) returns (keep: bool)
    ensures keep <==> FundamentalsOk(c, info)
  {
    if c.priceMin.Some? && c.priceMin.value != 0.0 {
      if info.price.None? || info.price.value < c.priceMin.value {
        return false;
      }
    }
    assert LowerOk(c.priceMin, info.price);
    if c.priceMax.Some? && c.priceMax.value != 0.0 {
      if info.price.None? || info.price.value > c.priceMax.value {
        return false;
      }
    }
    assert UpperOk(c.priceMax, info.price);
    if c.marketCapMin.Some? && c.marketCapMin.value != 0.0 {
      if info.marketCap.None? || info.marketCap.value < c.marketCapMin.value {
        return false;
      }
    }
    assert LowerOk(c.marketCapMin, info.marketCap);
    if c.marketCapMax.Some? && c.marketCapMax.value != 0.0 {
      if info.marketCap.None? || info.marketCap.value > c.marketCapMax.value {
        return false;
      }
    }
    assert UpperOk(c.marketCapMax, info.marketCap);
    if c.peRatioMax.Some? && c.peRatioMax.value != 0.0 {
      var pe := info.peRatio;
      if pe.Some? && pe.value != 0.0 && pe.value > c.peRatioMax.value {
        return false;
      }
    }
    if c.minVolume.Some? && c.minVolume.value != 0.0 {
      if info.volume.None? || info.volume.value < c.minVolume.value {
        return false;
      }
    }
    return true;
  }

  /** The RSI and crossover steps of the loop body. */
  method CheckIndicators(c: Criteria, rsi: Option<Float>, sma: SmaData) returns (keep: bool)
    ensures keep <==> IndicatorsOk(c, rsi, sma)
  {
    if Truthy(rsi) {
      if c.rsiOversold && AtLeast(rsi.value, Oversold) {
        return false;
      }
      if c.rsiOverbought && AtMost(rsi.value, Overbought) {
        return false;
      }
    }
    if c.smaCrossover.Some? && c.smaCrossover.value != "" {
      if sma.Sma? && Crossover(sma.sma50, sma.sma200) != c.smaCrossover.value {
        return false;
      }
    }
    return true;
  }

  /** The whole loop body for one symbol. */
  method Check(c: Criteria, f: Fetched) returns (keep: bool)
    ensures keep <==> f.info.Some? && Keeps(c, f.info.value, f.rsi, f.sma)
  {
    if f.info.None? {
      return false;
    }
    keep := CheckFundamentals(c, f.info.value);
    if keep {
      keep := CheckIndicators(c, f.rsi, f.sma);
    }
  }

  /** screen_by_criteria */
  method ScreenByCriteria(symbols: seq<string>, c: Criteria, market: map<string, Fetched>) returns (results: seq<Screened>)
    ensures results == Screen(symbols, c, market)
  {
    results := [];
    for k := 0 to |symbols|
      invariant results == Screen(symbols[..k], c, market)
    {
      assert symbols[..k + 1][..k] == symbols[..k];
      var f := FetchedFor(market, symbols[k]);
      var keep := Check(c, f);
      if keep {
        results := results + [Screened(f.info.value, f.rsi, f.sma)];
      }
    }
    assert symbols[..|symbols|] == symbols;
  }

  // ---------------------------------------------------------------------------
  // Properties

  /** Screening a concatenation screens each part in turn, so results keep
      the order of the input symbols. */
  lemma {:induction false} ScreenSplits(a: seq<string>, b: seq<string>, c: Criteria, market: map<string, Fetched>)
    ensures Screen(a + b, c, market) == Screen(a, c, market) + Screen(b, c, market)
    decreases |b|
  {
    if b == [] {
      assert a + b == a;
    } else {
      var n := |b| - 1;
      assert (a + b)[..|a + b| - 1] == a + b[..n];
      ScreenSplits(a, b[..n], c, market);
    }
  }

  /** A record is in the results exactly when it comes from a listed symbol
      whose information was fetched and passed every filter; it carries the
      computed RSI. */
  lemma {:induction false} ScreenMembership(symbols: seq<string>, c: Criteria, market: map<string, Fetched>, r: Screened)
    ensures r in Screen(symbols, c, market) <==>
            exists k :: 0 <= k < |symbols| && Outcome(c, FetchedFor(market, symbols[k])) == [r]
    ensures r in Screen(symbols, c, market) ==> Keeps(c, r.info, r.rsi, r.sma)
    decreases |symbols|
  {
    if symbols != [] {
      var n := |symbols| - 1;
      var prev := symbols[..n];
      ScreenMembership(prev, c, market, r);
      var last := Outcome(c, FetchedFor(market, symbols[n]));
      assert forall k :: 0 <= k < n ==> prev[k] == symbols[k];
      if exists k :: 0 <= k < |symbols| && Outcome(c, FetchedFor(market, symbols[k])) == [r] {
        var k :| 0 <= k < |symbols| && Outcome(c, FetchedFor(market, symbols[k])) == [r];
        if k < n {
          assert prev[k] == symbols[k];
        } else {
          assert r in last;
        }
      }
    }
  }

  /** Results never outnumber the symbols. */
  lemma {:induction false} ScreenShorter(symbols: seq<string>, c: Criteria, market: map<string, Fetched>)
    ensures |Screen(symbols, c, market)| <= |symbols|
    decreases |symbols|
  {
    if symbols != [] {
      ScreenShorter(symbols[..|symbols| - 1], c, market);
    }
  }

  /** A kept stock satisfies every active bound; a P/E ratio only rejects
      when present, non-zero and above the bound. */
  lemma KeptSatisfiesBounds(c: Criteria, info: StockInfo, rsi: Option<Float>, sma: SmaData)
    requires Keeps(c, info, rsi, sma)
    ensures Active(c.priceMin) ==> info.price.Some? && info.price.value >= c.priceMin.value
    ensures Active(c.priceMax) ==> info.price.Some? && info.price.value <= c.priceMax.value
    ensures Active(c.marketCapMin) ==> info.marketCap.Some? && info.marketCap.value >= c.marketCapMin.value
    ensures Active(c.marketCapMax) ==> info.marketCap.Some? && info.marketCap.value <= c.marketCapMax.value
    ensures Active(c.minVolume) ==> info.volume.Some? && info.volume.value >= c.minVolume.value
    ensures Active(c.peRatioMax) && info.peRatio.Some? && info.peRatio.value != 0.0 ==> info.peRatio.value <= c.peRatioMax.value
  {
  }

  /** A bound of 0 switches its filter off, exactly like leaving it out. */
  lemma ZeroDisablesBound(c: Criteria, info: StockInfo, rsi: Option<Float>, sma: SmaData)
    ensures Keeps(c.(priceMin := Some(0.0)), info, rsi, sma) == Keeps(c.(priceMin := None), info, rsi, sma)
    ensures Keeps(c.(priceMax := Some(0.0)), info, rsi, sma) == Keeps(c.(priceMax := None), info, rsi, sma)
    ensures Keeps(c.(marketCapMin := Some(0.0)), info, rsi, sma) == Keeps(c.(marketCapMin := None), info, rsi, sma)
    ensures Keeps(c.(marketCapMax := Some(0.0)), info, rsi, sma) == Keeps(c.(marketCapMax := None), info, rsi, sma)
    ensures Keeps(c.(peRatioMax := Some(0.0)), info, rsi, sma) == Keeps(c.(peRatioMax := None), info, rsi, sma)
    ensures Keeps(c.(minVolume := Some(0.0)), info, rsi, sma) == Keeps(c.(minVolume := None), info, rsi, sma)
  {
  }

  /** The RSI filters: with a numeric non-zero RSI, oversold keeps only
      RSI < 30, overbought only RSI > 70, and both together keep nothing;
      a missing or zero RSI, and a NaN one, pass both. */
  lemma RsiFilters(c: Criteria, info: StockInfo, rsi: Option<Float>, sma: SmaData)
    ensures rsi.Some? && rsi.value.Finite? && rsi.value.v != 0.0 && c.rsiOversold && Keeps(c, info, rsi, sma) ==> rsi.value.v < Oversold
    ensures rsi.Some? && rsi.value.Finite? && rsi.value.v != 0.0 && c.rsiOverbought && Keeps(c, info, rsi, sma) ==> rsi.value.v > Overbought
    ensures rsi.Some? && rsi.value.Finite? && rsi.value.v != 0.0 && c.rsiOversold && c.rsiOverbought ==> !Keeps(c, info, rsi, sma)
    ensures !Truthy(rsi) || rsi == Some(NaN) ==>
              Keeps(c, info, rsi, sma) == Keeps(c.(rsiOversold := false, rsiOverbought := false), info, rsi, sma)
  {
  }

  /** The crossover label is "bullish" exactly when both averages are
      numbers and the 50-day one is above the 200-day one; ties are
      "bearish". The filter rejects only when averages were fetched and the
      label differs. */
  lemma CrossoverFilter(c: Criteria, info: StockInfo, rsi: Option<Float>, sma50: Float, sma200: Float)
    ensures Crossover(sma50, sma200) == "bullish" <==> sma50.Finite? && sma200.Finite? && sma50.v > sma200.v
    ensures sma50 == sma200 ==> Crossover(sma50, sma200) == "bearish"
    ensures Keeps(c, info, rsi, NoSma) == Keeps(c.(smaCrossover := None), info, rsi, NoSma)
    ensures c.smaCrossover == Some("bullish") && Keeps(c, info, rsi, Sma(sma50, sma200)) ==> sma50.Finite? && sma200.Finite? && sma50.v > sma200.v
  {
  }
}
