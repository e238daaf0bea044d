/** The backtesting engine: a bar-by-bar replay that goes long on an entry
    signal with all the cash it can, closes the whole position on an exit
    signal, and samples the portfolio value after every replayed bar; and the
    metrics computed from the replay's result. The RSI, SMA-crossover and
    custom strategies are the same replay fed with different signals. */
module Backtesting {
  import opened Common

  /** One bar of market data: its date label and closing price. */
  datatype Bar = Bar(date: string, close: real)

  /** What a bar's indicator says: enter when flat, close when long. */
  datatype Signal = Signal(enter: bool, exit: bool)

  /** The simulation state: cash, shares held, and the price of the last entry
      (which, as in the engine, is not reset when the position is closed). */
  datatype Book = Book(cash: real, position: int, entryPrice: real)

  /** A closed round trip. The custom strategy records no percentage. */
  datatype BacktestTrade = BacktestTrade(entryPrice: real, exitPrice: real, quantity: int,
                                         pnl: real, pnlPercent: Option<real>)

  /** The four lists of a backtest result. */
  datatype Outcome = Outcome(trades: seq<BacktestTrade>, portfolioValues: seq<real>,
                             equityCurve: seq<real>, dates: seq<string>)

  const NoOutcome := Outcome([], [], [], [])

  function Opening(initialCapital: real): Book
  {
    Book(initialCapital, 0, 0.0)
  }

  predicate PositivePrices(bars: seq<Bar>)
  {
    forall i :: 0 <= i < |bars| ==> bars[i].close > 0.0
  }

  /** The trade recorded when the position of `b` is closed at `price`. */
  function ClosingTrade(b: Book, price: real, withPercent: bool): BacktestTrade
  {
    var pnl := b.position as real * (price - b.entryPrice);
    var basis := b.position as real * b.entryPrice;
    BacktestTrade(b.entryPrice, price, b.position, pnl,
                  if !withPercent then None
                  else if basis > 0.0 then Some(pnl / basis * 100.0) else Some(0.0))
  }

  /** One bar's decision: enter (flat and the signal says enter), else close
      (long and the signal says exit), else hold. */
  function Act(b: Book, s: Signal, price: real, withPercent: bool): (Book, Option<BacktestTrade>)
    requires price > 0.0
  {
    if b.position == 0 && s.enter then
      var shares := Trunc(b.cash / price);
      (Book(b.cash - shares as real * price, shares, price), None)
    else if b.position > 0 && s.exit then
      (Book(b.cash + b.position as real * price, 0, b.entryPrice),
       Some(ClosingTrade(b, price, withPercent)))
    else (b, None)
  }

  /** The portfolio value of a book at a price: the position counts only when long. */
  function Mark(b: Book, price: real): real
  {
    if b.position > 0 then b.cash + b.position as real * price else b.cash
  }

  /** The state of a replay and what it has recorded so far. */
  datatype Run = Run(book: Book, result: Outcome)

  /** One replayed bar: act on the signal, then sample the portfolio value,
      the equity (value minus initial capital) and the date. A None signal is
      a bar whose signal raised: it is skipped and leaves no sample. */
  function Advance(initialCapital: real, r: Run, bar: Bar, signal: Option<Signal>, withPercent: bool): Run
    requires bar.close > 0.0
  {
    match signal
    case None => r
    case Some(s) =>
      var step := Act(r.book, s, bar.close, withPercent);
      var value := Mark(step.0, bar.close);
      var o := r.result;
      Run(step.0, Outcome(o.trades + (if step.1.Some? then [step.1.value] else []),
                          o.portfolioValues + [value],
                          o.equityCurve + [value - initialCapital],
                          o.dates + [bar.date]))
  }

  /** The state and result after replaying the first k bars. */
  function Replayed(initialCapital: real, bars: seq<Bar>, signals: seq<Option<Signal>>,
                    withPercent: bool, k: nat): Run
    requires |signals| == |bars| && PositivePrices(bars) && k <= |bars|
  {
    if k == 0 then Run(Opening(initialCapital), NoOutcome)
    else Advance(initialCapital, Replayed(initialCapital, bars, signals, withPercent, k - 1),
                 bars[k - 1], signals[k - 1], withPercent)
  }

  /** The entry/exit decision of one bar, on the book's three variables. */
  method ActOnBar(cash: real, position: int, entryPrice: real, s: Signal, price: real, withPercent: bool)
    returns (cash': real, position': int, entryPrice': real, trade: Option<BacktestTrade>)
    requires price > 0.0
    ensures (Book(cash', position', entryPrice'), trade) == Act(Book(cash, position, entryPrice), s, price, withPercent)
  {
    cash', position', entryPrice', trade := cash, position, entryPrice, None;
    if position == 0 && s.enter {
      position' := Trunc(cash / price);
      entryPrice' := price;
      cash' := cash - position' as real * price;
      assert Book(cash', position', entryPrice') == Act(Book(cash, position, entryPrice), s, price, withPercent).0;
      assert trade == Act(Book(cash, position, entryPrice), s, price, withPercent).1;
    } else if position > 0 && s.exit {
      trade := Some(ClosingTrade(Book(cash, position, entryPrice), price, withPercent));
      cash' := cash + position as real * price;
      position' := 0;
      assert Book(cash', position', entryPrice') == Act(Book(cash, position, entryPrice), s, price, withPercent).0;
      assert trade == Act(Book(cash, position, entryPrice), s, price, withPercent).1;
    } else {
      assert Book(cash', position', entryPrice') == Act(Book(cash, position, entryPrice), s, price, withPercent).0;
    }
  }

  /** One replayed bar whose signal fired: act on it, then append the
      portfolio value, the equity and the date. */
  method ReplayBar(initialCapital: real, cash: real, position: int, entryPrice: real,
                   trades: seq<BacktestTrade>, values: seq<real>, equity: seq<real>, dates: seq<string>,
                   bar: Bar, s: Signal, withPercent: bool)
    returns (cash': real, position': int, entryPrice': real,
             trades': seq<BacktestTrade>, values': seq<real>, equity': seq<real>, dates': seq<string>)
    requires bar.close > 0.0
    ensures Run(Book(cash', position', entryPrice'), Outcome(trades', values', equity', dates'))
            == Advance(initialCapital, Run(Book(cash, position, entryPrice), Outcome(trades, values, equity, dates)),
                       bar, Some(s), withPercent)
  {
    var price := bar.close;
    var trade;
    cash', position', entryPrice', trade := ActOnBar(cash, position, entryPrice, s, price, withPercent);
    trades' := trades;
    if trade.Some? {
      trades' := trades + [trade.value];
    } else {
      assert trades' == trades + [];
    }
    var value := if position' > 0 then cash' + position' as real * price else cash';
    values' := values + [value];
    equity' := equity + [value - initialCapital];
    dates' := dates + [bar.date];
    ghost var step := Act(Book(cash, position, entryPrice), s, price, withPercent);
    assert step.0 == Book(cash', position', entryPrice') && value == Mark(step.0, price);
    assert trades' == trades + (if step.1.Some? then [step.1.value] else []);
  }

  /** The simulation loop shared by the three strategies. */
  method Replay(initialCapital: real, bars: seq<Bar>, signals: seq<Option<Signal>>, withPercent: bool)
    returns (book: Book, result: Outcome)
    requires |signals| == |bars| && PositivePrices(bars)
    ensures Run(book, result) == Replayed(initialCapital, bars, signals, withPercent, |bars|)
  {
    var cash, position, entryPrice := initialCapital, 0, 0.0;
    var trades: seq<BacktestTrade> := [];
    var values: seq<real> := [];
    var equity: seq<real> := [];
    var dates: seq<string> := [];
    var i := 0;
    while i < |bars|
      invariant 0 <= i <= |bars|
      invariant Run(Book(cash, position, entryPrice), Outcome(trades, values, equity, dates))
                == Replayed(initialCapital, bars, signals, withPercent, i)
    {
      match signals[i] {
        case None =>
        case Some(s) =>
          cash, position, entryPrice, trades, values, equity, dates :=
            ReplayBar(initialCapital, cash, position, entryPrice, trades, values, equity, dates,
                      bars[i], s, withPercent);
      }
      i := i + 1;
    }
    book := Book(cash, position, entryPrice);
    result := Outcome(trades, values, equity, dates);
  }

  // ---------------------------------------------------------------------------
  // The three strategies as signal sequences

  /** RSI thresholds: enter below the oversold level, exit above the overbought
      level. An undefined RSI (None, NaN in the engine) compares false both ways. */
  function RsiSignals(rsi: seq<Option<real>>, oversold: real, overbought: real): (r: seq<Option<Signal>>)
    ensures |r| == |rsi|
    ensures forall i :: 0 <= i < |rsi| ==>
              && r[i].Some?
              && (r[i].value.enter <==> rsi[i].Some? && rsi[i].value < oversold)
              && (r[i].value.exit <==> rsi[i].Some? && rsi[i].value > overbought)
  {
    seq(|rsi|, i requires 0 <= i < |rsi| =>
      match rsi[i]
      case None => Some(Signal(false, false))
      case Some(x) => Some(Signal(x < oversold, x > overbought)))
  }

  /** SMA crossover: enter while the fast average is above the slow one, exit
      while it is below; a tie holds. Undefined averages compare false. */
  function SmaSignals(fast: seq<Option<real>>, slow: seq<Option<real>>): (r: seq<Option<Signal>>)
    requires |fast| == |slow|
    ensures |r| == |fast|
    ensures forall i :: 0 <= i < |fast| ==>
              && r[i].Some?
              && (r[i].value.enter <==> fast[i].Some? && slow[i].Some? && fast[i].value > slow[i].value)
              && (r[i].value.exit <==> fast[i].Some? && slow[i].Some? && fast[i].value < slow[i].value)
  {
    seq(|fast|, i requires 0 <= i < |fast| =>
      if fast[i].Some? && slow[i].Some?
      then Some(Signal(fast[i].value > slow[i].value, fast[i].value < slow[i].value))
      else Some(Signal(false, false)))
  }

  /** A caller-supplied signal: True enters when flat, False exits when long,
      and a signal function that raised (None) skips the bar. */
  function CustomSignals(signal: seq<Option<bool>>): (r: seq<Option<Signal>>)
    ensures |r| == |signal|
    ensures forall i :: 0 <= i < |signal| ==>
              && (r[i].None? <==> signal[i].None?)
              && (signal[i].Some? ==> r[i].value == Signal(signal[i].value, !signal[i].value))
  {
    seq(|signal|, i requires 0 <= i < |signal| =>
      match signal[i]
      case None => None
      case Some(b) => Some(Signal(b, !b)))
  }

  /** The number of bars, among the first k, whose signal did not raise: every
      one of them exactly when no signal among them raised. */
  function Fired(signals: seq<Option<Signal>>, k: nat): (n: nat)
    requires k <= |signals|
    ensures n <= k
    ensures n == k <==> forall i :: 0 <= i < k ==> signals[i].Some?
  {
    if k == 0 then 0 else Fired(signals, k - 1) + (if signals[k - 1].Some? then 1 else 0)
  }

  lemma PositiveSuffix(bars: seq<Bar>, from: nat)
    requires PositivePrices(bars) && from <= |bars|
    ensures PositivePrices(bars[from..])
  {
    assert forall i :: 0 <= i < |bars| - from ==> bars[from..][i] == bars[from + i];
  }

  /** The RSI strategy replays every bar from the second one, with percentages. */
  method BacktestRsi(initialCapital: real, bars: seq<Bar>, rsi: seq<Option<real>>,
                     oversold: real, overbought: real) returns (result: Outcome)
    requires |rsi| == |bars| && PositivePrices(bars)
    ensures bars == [] ==> result == NoOutcome
    ensures bars != [] ==>
              result == Replayed(initialCapital, bars[1..], RsiSignals(rsi, oversold, overbought)[1..], true, |bars| - 1).result
    ensures |result.portfolioValues| == |result.equityCurve| == |result.dates| == Max0(|bars| - 1)
  {
    if bars == [] {
      return NoOutcome;
    }
    var signals := RsiSignals(rsi, oversold, overbought);
    PositiveSuffix(bars, 1);
    var book;
    book, result := Replay(initialCapital, bars[1..], signals[1..], true);
    ReplayedLengths(initialCapital, bars[1..], signals[1..], true, |bars| - 1);
  }

  /** The SMA strategy replays every bar from index max(fast, slow), with percentages. */
  method BacktestSma(initialCapital: real, bars: seq<Bar>, fastPeriod: nat, slowPeriod: nat,
                     smaFast: seq<Option<real>>, smaSlow: seq<Option<real>>) returns (result: Outcome)
    requires |smaFast| == |smaSlow| == |bars| && PositivePrices(bars)
    ensures var start := if fastPeriod >= slowPeriod then fastPeriod else slowPeriod;
      && (start >= |bars| ==> result == NoOutcome)
      && (start < |bars| ==>
            result == Replayed(initialCapital, bars[start..], SmaSignals(smaFast, smaSlow)[start..], true,
                               |bars| - start).result)
      && |result.portfolioValues| == |result.equityCurve| == |result.dates| == Max0(|bars| - start)
  {
    if bars == [] {
      return NoOutcome;
    }
    var start := if fastPeriod >= slowPeriod then fastPeriod else slowPeriod;
    if start >= |bars| {
      return NoOutcome;
    }
    var signals := SmaSignals(smaFast, smaSlow);
    PositiveSuffix(bars, start);
    var book;
    book, result := Replay(initialCapital, bars[start..], signals[start..], true);
    ReplayedLengths(initialCapital, bars[start..], signals[start..], true, |bars| - start);
  }

  /** The custom strategy replays every bar from the second one, skipping the
      bars whose signal raised, and records no percentages. */
  method BacktestCustom(initialCapital: real, bars: seq<Bar>, signal: seq<Option<bool>>)
    returns (result: Outcome)
    requires |signal| == |bars| && PositivePrices(bars)
    ensures bars == [] ==> result == NoOutcome
    ensures bars != [] ==>
              result == Replayed(initialCapital, bars[1..], CustomSignals(signal)[1..], false, |bars| - 1).result
    ensures |result.portfolioValues| == |result.equityCurve| == |result.dates| <= Max0(|bars| - 1)
    ensures forall k :: 0 <= k < |result.trades| ==> result.trades[k].pnlPercent.None?
  {
    if bars == [] {
      return NoOutcome;
    }
    var signals := CustomSignals(signal);
    PositiveSuffix(bars, 1);
    var book;
    book, result := Replay(initialCapital, bars[1..], signals[1..], false);
    ReplayedLengths(initialCapital, bars[1..], signals[1..], false, |bars| - 1);
    ReplayedTrades(initialCapital, bars[1..], signals[1..], false, |bars| - 1);
  }

  function Max0(n: int): nat { if n > 0 then n else 0 }

  // ---------------------------------------------------------------------------
  // Properties of the replay

  /** One sample per replayed bar: the three lists have equal length, one entry
      per bar whose signal fired, and the equity point is the value minus the
      initial capital. */
  lemma {:induction false} ReplayedLengths(initialCapital: real, bars: seq<Bar>, signals: seq<Option<Signal>>,
                                           withPercent: bool, k: nat)
    requires |signals| == |bars| && PositivePrices(bars) && k <= |bars|
    ensures var o := Replayed(initialCapital, bars, signals, withPercent, k).result;
      && |o.portfolioValues| == |o.equityCurve| == |o.dates| == Fired(signals, k)
      && (forall j :: 0 <= j < |o.equityCurve| ==> o.equityCurve[j] == o.portfolioValues[j] - initialCapital)
  {
    if k > 0 {
      ReplayedLengths(initialCapital, bars, signals, withPercent, k - 1);
    }
  }

  /** When every signal fired, there is one sample per bar, dated by that bar. */
  lemma {:induction false} ReplayedDates(initialCapital: real, bars: seq<Bar>, signals: seq<Option<Signal>>,
                                         withPercent: bool, k: nat)
    requires |signals| == |bars| && PositivePrices(bars) && k <= |bars|
    requires forall i :: 0 <= i < |signals| ==> signals[i].Some?
    ensures var o := Replayed(initialCapital, bars, signals, withPercent, k).result;
      |o.dates| == k && forall j :: 0 <= j < k ==> o.dates[j] == bars[j].date
  {
    if k > 0 {
      ReplayedDates(initialCapital, bars, signals, withPercent, k - 1);
    }
  }

  /** The shares an entry buys cost no more than the cash, and less than one
      more share would. */
  lemma EntryAffordable(cash: real, price: real)
    requires cash >= 0.0 && price > 0.0
    ensures var shares := Trunc(cash / price);
      && shares >= 0
      && shares as real * price <= cash < shares as real * price + price
  {
    var shares := Trunc(cash / price);
    var q := cash / price;
    assert q * price == cash;
    MulMono(shares as real, q, price);
    assert q < shares as real + 1.0;
    MulMono(q, shares as real + 1.0, price);
    assert cash < (shares as real + 1.0) * price;
    assert (shares as real + 1.0) * price == shares as real * price + price;
  }

  /** A book with cash and no short position stays that way across one bar. */
  lemma AdvanceSolvent(initialCapital: real, r: Run, bar: Bar, signal: Option<Signal>, withPercent: bool)
    requires bar.close > 0.0 && r.book.cash >= 0.0 && r.book.position >= 0
    ensures var b := Advance(initialCapital, r, bar, signal, withPercent).book;
      b.cash >= 0.0 && b.position >= 0 && Mark(b, bar.close) >= 0.0
  {
    var b := r.book;
    var price := bar.close;
    if signal.Some? {
      if b.position == 0 && signal.value.enter {
        EntryAffordable(b.cash, price);
        var shares := Trunc(b.cash / price);
        if shares > 0 {
          MulMono(0.0, shares as real, price);
        }
      } else if b.position > 0 {
        MulMono(0.0, b.position as real, price);
      }
    }
  }

  /** With a non-negative starting capital the book never goes short of cash
      and never holds a negative number of shares. */
  lemma {:induction false} ReplayedSolvent(initialCapital: real, bars: seq<Bar>, signals: seq<Option<Signal>>,
                                           withPercent: bool, k: nat)
    requires |signals| == |bars| && PositivePrices(bars) && k <= |bars|
    requires initialCapital >= 0.0
    ensures var b := Replayed(initialCapital, bars, signals, withPercent, k).book;
      b.cash >= 0.0 && b.position >= 0
  {
    if k > 0 {
      ReplayedSolvent(initialCapital, bars, signals, withPercent, k - 1);
      AdvanceSolvent(initialCapital, Replayed(initialCapital, bars, signals, withPercent, k - 1),
                     bars[k - 1], signals[k - 1], withPercent);
    }
  }

  /** Every sample of a run with non-negative capital is non-negative. */
  lemma {:induction false} ReplayedValuesNonNegative(initialCapital: real, bars: seq<Bar>,
                                                     signals: seq<Option<Signal>>, withPercent: bool, k: nat)
    requires |signals| == |bars| && PositivePrices(bars) && k <= |bars| && initialCapital >= 0.0
    ensures var o := Replayed(initialCapital, bars, signals, withPercent, k).result;
      forall j :: 0 <= j < |o.portfolioValues| ==> o.portfolioValues[j] >= 0.0
  {
    if k > 0 {
      ReplayedValuesNonNegative(initialCapital, bars, signals, withPercent, k - 1);
      ReplayedSolvent(initialCapital, bars, signals, withPercent, k - 1);
      AdvanceSolvent(initialCapital, Replayed(initialCapital, bars, signals, withPercent, k - 1),
                     bars[k - 1], signals[k - 1], withPercent);
    }
  }

  /** Each recorded trade closed a long position: a positive quantity, the
      P&L is quantity times the price move, and the percentage is present only
      when asked for and is 0 when the cost at entry is not positive. */
  predicate ClosedRoundTrip(t: BacktestTrade, withPercent: bool)
  {
    var basis := t.quantity as real * t.entryPrice;
    && t.quantity > 0
    && t.pnl == t.quantity as real * (t.exitPrice - t.entryPrice)
    && (!withPercent ==> t.pnlPercent.None?)
    && (withPercent && basis > 0.0 ==> t.pnlPercent == Some(t.pnl / basis * 100.0))
    && (withPercent && basis <= 0.0 ==> t.pnlPercent == Some(0.0))
  }

  lemma ClosingTradeIsRoundTrip(b: Book, price: real, withPercent: bool)
    requires b.position > 0
    ensures ClosedRoundTrip(ClosingTrade(b, price, withPercent), withPercent)
  {
    var t := ClosingTrade(b, price, withPercent);
    assert t.quantity == b.position && t.entryPrice == b.entryPrice;
    assert t.quantity as real * t.entryPrice == b.position as real * b.entryPrice;
  }

  predicate AllRoundTrips(ts: seq<BacktestTrade>, withPercent: bool)
  {
    forall j :: 0 <= j < |ts| ==> ClosedRoundTrip(ts[j], withPercent)
  }

  lemma {:induction false} ReplayedTrades(initialCapital: real, bars: seq<Bar>, signals: seq<Option<Signal>>,
                                          withPercent: bool, k: nat)
    requires |signals| == |bars| && PositivePrices(bars) && k <= |bars|
    ensures AllRoundTrips(Replayed(initialCapital, bars, signals, withPercent, k).result.trades, withPercent)
  {
    if k > 0 {
      var prev := Replayed(initialCapital, bars, signals, withPercent, k - 1);
      ReplayedTrades(initialCapital, bars, signals, withPercent, k - 1);
      var ts := prev.result.trades;
      var ts' := Replayed(initialCapital, bars, signals, withPercent, k).result.trades;
      if ts' != ts {
        var b := prev.book;
        var t := ClosingTrade(b, bars[k - 1].close, withPercent);
        assert b.position > 0 && ts' == ts + [t];
        ClosingTradeIsRoundTrip(b, bars[k - 1].close, withPercent);
        assert forall j :: 0 <= j < |ts| ==> ts'[j] == ts[j];
      }
    }
  }

  /** The P&L column of a backtest's trade list. A backtest trade is another
      record than a paper-trading trade, so its column has its own function. */
  function TradePnls(ts: seq<BacktestTrade>): seq<real>
  {
    seq(|ts|, i requires 0 <= i < |ts| => ts[i].pnl)
  }

  /** Cash plus what the open position cost at entry. */
  function Committed(b: Book): real
  {
    b.cash + b.position as real * b.entryPrice
  }

  /** Money is conserved: cash plus what the open position cost at entry is the
      initial capital plus the P&L of the closed trades. */
  predicate Conserved(initialCapital: real, r: Run)
  {
    Committed(r.book) == initialCapital + Total(TradePnls(r.result.trades))
  }

  /** Entering moves cash into the position at cost. */
  lemma EntryCommits(b: Book, price: real)
    requires b.position == 0 && price > 0.0
    ensures var shares := Trunc(b.cash / price);
      Committed(Book(b.cash - shares as real * price, shares, price)) == Committed(b)
  {
    assert b.position as real * b.entryPrice == 0.0;
  }

  /** Closing turns the position's cost at entry plus its P&L back into cash. */
  lemma ExitCommits(b: Book, price: real, withPercent: bool)
    ensures Committed(Book(b.cash + b.position as real * price, 0, b.entryPrice))
            == Committed(b) + ClosingTrade(b, price, withPercent).pnl
  {
    assert 0 as real * b.entryPrice == 0.0;
    assert b.position as real * (price - b.entryPrice) == b.position as real * price - b.position as real * b.entryPrice;
  }

  lemma AdvanceConserves(initialCapital: real, r: Run, bar: Bar, signal: Option<Signal>, withPercent: bool)
    requires bar.close > 0.0 && Conserved(initialCapital, r)
    ensures Conserved(initialCapital, Advance(initialCapital, r, bar, signal, withPercent))
  {
    if signal.Some? {
      var b := r.book;
      var price := bar.close;
      var ts := r.result.trades;
      var r' := Advance(initialCapital, r, bar, signal, withPercent);
      if b.position == 0 && signal.value.enter {
        EntryCommits(b, price);
        assert r'.result.trades == ts + [] == ts;
      } else if b.position > 0 && signal.value.exit {
        var t := ClosingTrade(b, price, withPercent);
        ExitCommits(b, price, withPercent);
        assert r'.result.trades == ts + [t];
        assert TradePnls(ts + [t]) == TradePnls(ts) + [t.pnl];
        SumAppend(TradePnls(ts), t.pnl);
      } else {
        assert r'.book == b && r'.result.trades == ts + [] == ts;
      }
    }
  }

  lemma {:induction false} ReplayedConservation(initialCapital: real, bars: seq<Bar>, signals: seq<Option<Signal>>,
                                                withPercent: bool, k: nat)
    requires |signals| == |bars| && PositivePrices(bars) && k <= |bars|
    ensures Conserved(initialCapital, Replayed(initialCapital, bars, signals, withPercent, k))
  {
    if k > 0 {
      ReplayedConservation(initialCapital, bars, signals, withPercent, k - 1);
      AdvanceConserves(initialCapital, Replayed(initialCapital, bars, signals, withPercent, k - 1),
                       bars[k - 1], signals[k - 1], withPercent);
    }
  }

  /** While no bar has fired, nothing has happened yet. */
  lemma {:induction false} ReplayedBeforeFirstSample(initialCapital: real, bars: seq<Bar>,
                                                     signals: seq<Option<Signal>>, withPercent: bool, k: nat)
    requires |signals| == |bars| && PositivePrices(bars) && k <= |bars|
    requires Replayed(initialCapital, bars, signals, withPercent, k).result.portfolioValues == []
    ensures Replayed(initialCapital, bars, signals, withPercent, k) == Run(Opening(initialCapital), NoOutcome)
  {
    if k > 0 {
      ReplayedBeforeFirstSample(initialCapital, bars, signals, withPercent, k - 1);
    }
  }

  /** The first sample of a fresh book is worth exactly the initial capital:
      an entry is marked at the price it was bought at. */
  lemma FirstSampleIsCapital(initialCapital: real, bar: Bar, signal: Option<Signal>, withPercent: bool)
    requires bar.close > 0.0 && initialCapital >= 0.0 && signal.Some?
    ensures var o := Advance(initialCapital, Run(Opening(initialCapital), NoOutcome), bar, signal, withPercent).result;
      o.portfolioValues == [initialCapital] && o.equityCurve == [0.0]
  {
    if signal.value.enter {
      EntryAffordable(initialCapital, bar.close);
    }
  }

  lemma {:induction false} ReplayedFirstValue(initialCapital: real, bars: seq<Bar>, signals: seq<Option<Signal>>,
                                              withPercent: bool, k: nat)
    requires |signals| == |bars| && PositivePrices(bars) && k <= |bars|
    requires initialCapital >= 0.0
    ensures var o := Replayed(initialCapital, bars, signals, withPercent, k).result;
      && (o.portfolioValues != [] ==> o.portfolioValues[0] == initialCapital)
      && (o.equityCurve != [] ==> o.equityCurve[0] == 0.0)
  {
    if k > 0 {
      var prev := Replayed(initialCapital, bars, signals, withPercent, k - 1);
      if prev.result.portfolioValues == [] {
        ReplayedBeforeFirstSample(initialCapital, bars, signals, withPercent, k - 1);
        if signals[k - 1].Some? {
          FirstSampleIsCapital(initialCapital, bars[k - 1], signals[k - 1], withPercent);
        }
      } else {
        ReplayedLengths(initialCapital, bars, signals, withPercent, k - 1);
        ReplayedFirstValue(initialCapital, bars, signals, withPercent, k - 1);
      }
    }
  }

  /** A run that ends flat is worth its cash at the last sample, which is the
      initial capital plus the closed trades' P&L; a position still open at
      the last bar is not closed and is valued at that bar's price instead. */
  lemma {:induction false} ReplayedLastValue(initialCapital: real, bars: seq<Bar>, signals: seq<Option<Signal>>,
                                             withPercent: bool, k: nat)
    requires |signals| == |bars| && PositivePrices(bars) && k <= |bars|
    ensures var r := Replayed(initialCapital, bars, signals, withPercent, k);
      r.result.portfolioValues != [] && r.book.position == 0 ==>
        r.result.portfolioValues[|r.result.portfolioValues| - 1] == r.book.cash
          == initialCapital + Total(TradePnls(r.result.trades))
  {
    ReplayedConservation(initialCapital, bars, signals, withPercent, k);
    if k > 0 {
      ReplayedLastValue(initialCapital, bars, signals, withPercent, k - 1);
    }
  }

  // ---------------------------------------------------------------------------
  // Metrics

  datatype BacktestMetrics = BacktestMetrics(
    totalTrades: nat, winningTrades: nat, losingTrades: nat, winRate: real,
    totalPnl: real, grossProfit: real, grossLoss: real, profitFactor: real,
    maxDrawdown: Option<real>, totalReturnPercent: real, finalPortfolioValue: real)

  /** The return is measured against this capital whatever the run started with. */
  const ReferenceCapital: real := 100000.0

  /** Running sums (numpy's cumsum). */
  function CumSum(s: seq<real>): (r: seq<real>)
    ensures |r| == |s|
    ensures |s| > 0 ==> r[0] == s[0]
    ensures forall i :: 0 < i < |s| ==> r[i] == r[i - 1] + s[i]
  {
    if |s| <= 1 then s
    else
      var c := CumSum(s[..|s| - 1]);
      c + [c[|c| - 1] + s[|s| - 1]]
  }

  /** Running maxima (numpy's maximum.accumulate). */
  function RunningMax(s: seq<real>): (r: seq<real>)
    ensures |r| == |s|
    ensures |s| > 0 ==> r[0] == s[0]
    ensures forall i :: 0 < i < |s| ==> r[i] == Max(r[i - 1], s[i])
  {
    if |s| <= 1 then s
    else
      var m := RunningMax(s[..|s| - 1]);
      m + [Max(m[|m| - 1], s[|s| - 1])]
  }

  lemma {:induction false} RunningMaxBounds(s: seq<real>)
    ensures forall i :: 0 <= i < |s| ==> s[i] <= RunningMax(s)[i] && s[0] <= RunningMax(s)[i]
  {
    var m := RunningMax(s);
    var i := 0;
    while i < |s|
      invariant 0 <= i <= |s|
      invariant forall j :: 0 <= j < i ==> s[j] <= m[j] && s[0] <= m[j]
    {
      if i > 0 {
        assert m[i] == Max(m[i - 1], s[i]) && s[0] <= m[i - 1];
      }
      i := i + 1;
    }
  }

  predicate HasZero(s: seq<real>)
  {
    exists i :: 0 <= i < |s| && s[i] == 0.0
  }

  /** The largest relative fall from the running maximum, in percent. None
      stands for the non-finite result numpy gives when a running maximum is 0
      (0/0 is NaN, a positive fall over 0 is infinite). */
  function CurveDrawdown(curve: seq<real>): Option<real>
  {
    if curve == [] then Some(0.0)
    else
      var peaks := RunningMax(curve);
      if HasZero(peaks) then None
      else Some(SeqMax(seq(|curve|, i requires 0 <= i < |curve| => (peaks[i] - curve[i]) / peaks[i])) * 100.0)
  }

  lemma FallAtMostOne(peak: real, v: real)
    requires peak > 0.0 && 0.0 <= v <= peak
    ensures 0.0 <= (peak - v) / peak <= 1.0
  {
    MulMono((peak - v) / peak, 1.0, peak);
  }

  /** For a curve that starts positive the drawdown is defined and non-negative,
      and at most 100 when the curve never goes below zero. */
  lemma CurveDrawdownBounds(curve: seq<real>)
    requires curve != [] && curve[0] > 0.0
    ensures CurveDrawdown(curve).Some?
    ensures CurveDrawdown(curve).value >= 0.0
    ensures (forall i :: 0 <= i < |curve| ==> curve[i] >= 0.0) ==> CurveDrawdown(curve).value <= 100.0
  {
    var peaks := RunningMax(curve);
    RunningMaxBounds(curve);
    assert !HasZero(peaks);
    var falls := seq(|curve|, i requires 0 <= i < |curve| => (peaks[i] - curve[i]) / peaks[i]);
    assert falls[0] >= 0.0;
    if forall i :: 0 <= i < |curve| ==> curve[i] >= 0.0 {
      var j :| 0 <= j < |falls| && falls[j] == SeqMax(falls);
      assert curve[j] >= 0.0 && peaks[j] > 0.0;
      FallAtMostOne(peaks[j], curve[j]);
    }
  }

  /** calculate_metrics: None for an empty trade log or no samples (the empty
      map). Otherwise the trade counts, gross profit and loss, the drawdown of
      the cumulative sum of the equity curve, and the return of the last
      portfolio value against the fixed reference capital. */
  function CalculateMetrics(o: Outcome): Option<BacktestMetrics>
  {
    if o.trades == [] || o.portfolioValues == [] then None
    else
      var pnls := TradePnls(o.trades);
      var total := |pnls|;
      var winners, losers := |Positives(pnls)|, |Negatives(pnls)|;
      var grossProfit := Total(Positives(pnls));
      var grossLoss := Abs(Total(Negatives(pnls)));
      var finalValue := o.portfolioValues[|o.portfolioValues| - 1];
      Some(BacktestMetrics(
        total, winners, losers, winners as real / total as real * 100.0,
        Total(pnls), grossProfit, grossLoss,
        if grossLoss != 0.0 then grossProfit / grossLoss else 0.0,
        CurveDrawdown(CumSum(o.equityCurve)),
        (finalValue - ReferenceCapital) / ReferenceCapital * 100.0,
        finalValue))
  }

  lemma {:induction false} PositivesTotal(s: seq<real>)
    ensures Total(Positives(s)) >= 0.0
  {
    SumNonNegative(Positives(s));
  }

  /** The metrics are consistent: the counts are those of the winning and
      losing trades and never exceed the trade count, the win rate is the
      winners' share as a percentage, gross profit and loss are the sums of
      the gains and of the losses, non-negative, and the total P&L is their
      difference, and the profit factor is their ratio, non-negative, and 0
      when nothing lost. */
  lemma MetricsConsistent(o: Outcome)
    ensures CalculateMetrics(o).None? <==> o.trades == [] || o.portfolioValues == []
    ensures CalculateMetrics(o).Some? ==>
      var m := CalculateMetrics(o).value;
      var pnls := TradePnls(o.trades);
      && m.totalTrades == |o.trades|
      && m.winningTrades == |Positives(pnls)| && m.losingTrades == |Negatives(pnls)|
      && m.winningTrades + m.losingTrades <= m.totalTrades
      && m.winRate == m.winningTrades as real / m.totalTrades as real * 100.0
      && 0.0 <= m.winRate <= 100.0
      && m.totalPnl == Total(pnls)
      && m.grossProfit == Total(Positives(pnls)) && m.grossLoss == -Total(Negatives(pnls))
      && m.grossProfit >= 0.0 && m.grossLoss >= 0.0
      && m.totalPnl == m.grossProfit - m.grossLoss
      && m.profitFactor >= 0.0
      && (m.grossLoss != 0.0 ==> m.profitFactor == m.grossProfit / m.grossLoss)
      && (m.grossLoss == 0.0 ==> m.profitFactor == 0.0)
  {
    if o.trades != [] && o.portfolioValues != [] {
      var pnls := TradePnls(o.trades);
      WinLossSplit(pnls);
      RatioPercent(|Positives(pnls)|, |pnls|);
      PositivesTotal(pnls);
      NegativeSum(Negatives(pnls));
      assert Total(Negatives(pnls)) <= 0.0;
    }
  }

  /** The return is measured against the reference capital, not the run's own:
      it is 0 exactly when the last sample is 100000, and positive exactly
      when it is above. */
  lemma ReturnAgainstReference(o: Outcome)
    requires CalculateMetrics(o).Some?
    ensures var m := CalculateMetrics(o).value;
      && m.finalPortfolioValue == o.portfolioValues[|o.portfolioValues| - 1]
      && (m.totalReturnPercent == 0.0 <==> m.finalPortfolioValue == ReferenceCapital)
      && (m.totalReturnPercent > 0.0 <==> m.finalPortfolioValue > ReferenceCapital)
  {
  }

  /** As written, the drawdown of any replay that recorded a trade is undefined:
      the equity curve starts at 0, so the running maximum of its cumulative
      sum starts at 0 and numpy divides 0 by 0. */
  lemma AsWrittenDrawdownUndefined(initialCapital: real, bars: seq<Bar>, signals: seq<Option<Signal>>,
                                   withPercent: bool)
    requires |signals| == |bars| && PositivePrices(bars) && initialCapital >= 0.0
    requires CalculateMetrics(Replayed(initialCapital, bars, signals, withPercent, |bars|).result).Some?
    ensures CalculateMetrics(Replayed(initialCapital, bars, signals, withPercent, |bars|).result).value.maxDrawdown.None?
  {
    var o := Replayed(initialCapital, bars, signals, withPercent, |bars|).result;
    ReplayedFirstValue(initialCapital, bars, signals, withPercent, |bars|);
    ReplayedLengths(initialCapital, bars, signals, withPercent, |bars|);
    var peaks := RunningMax(CumSum(o.equityCurve));
    assert peaks[0] == 0.0;
    assert HasZero(peaks);
  }

  /** The evidently intended drawdown: the largest fall of the portfolio value
      from its running peak, in percent. */
  function CorrectedDrawdown(o: Outcome): Option<real>
  {
    CurveDrawdown(o.portfolioValues)
  }

  /** For a replay with positive capital the corrected drawdown is always
      defined and lies between 0 and 100. */
  lemma CorrectedDrawdownBounds(initialCapital: real, bars: seq<Bar>, signals: seq<Option<Signal>>,
                                withPercent: bool)
    requires |signals| == |bars| && PositivePrices(bars) && initialCapital > 0.0
    ensures var d := CorrectedDrawdown(Replayed(initialCapital, bars, signals, withPercent, |bars|).result);
      d.Some? && 0.0 <= d.value <= 100.0
  {
    var o := Replayed(initialCapital, bars, signals, withPercent, |bars|).result;
    if o.portfolioValues != [] {
      ReplayedFirstValue(initialCapital, bars, signals, withPercent, |bars|);
      ReplayedValuesNonNegative(initialCapital, bars, signals, withPercent, |bars|);
      CurveDrawdownBounds(o.portfolioValues);
    }
  }

  /** The run behind the counterexample: buy 1000 shares at 100 with 100000
      on the first bar, sell them at 90 on the second. */
  lemma CounterexampleRun()
    ensures Replayed(100000.0, [Bar("d1", 100.0), Bar("d2", 90.0)],
                     [Some(Signal(true, false)), Some(Signal(false, true))], true, 2)
            == Run(Book(90000.0, 0, 100.0),
                   Outcome([BacktestTrade(100.0, 90.0, 1000, -10000.0, Some(-10.0))],
                           [100000.0, 90000.0], [0.0, -10000.0], ["d1", "d2"]))
  {
    var bars := [Bar("d1", 100.0), Bar("d2", 90.0)];
    var signals := [Some(Signal(true, false)), Some(Signal(false, true))];
    assert Trunc(100000.0 / 100.0) == 1000;
    var r0 := Run(Opening(100000.0), NoOutcome);
    var r1 := Replayed(100000.0, bars, signals, true, 1);
    assert r1 == Advance(100000.0, r0, bars[0], signals[0], true);
    assert r1 == Run(Book(0.0, 1000, 100.0), Outcome([], [100000.0], [0.0], ["d1"]));
    var t := ClosingTrade(r1.book, 90.0, true);
    assert t == BacktestTrade(100.0, 90.0, 1000, -10000.0, Some(-10.0));
    assert Replayed(100000.0, bars, signals, true, 2) == Advance(100000.0, r1, bars[1], signals[1], true);
  }

  /** The input that exposes the drawdown discrepancy: the portfolio of
      CounterexampleRun fell 10% from its peak, yet as written the drawdown is
      undefined. */
  lemma DrawdownCounterexample()
    ensures var o := Replayed(100000.0, [Bar("d1", 100.0), Bar("d2", 90.0)],
                              [Some(Signal(true, false)), Some(Signal(false, true))], true, 2).result;
      && CalculateMetrics(o).Some? && CalculateMetrics(o).value.maxDrawdown.None?
      && CorrectedDrawdown(o) == Some(10.0)
  {
    var bars := [Bar("d1", 100.0), Bar("d2", 90.0)];
    var signals := [Some(Signal(true, false)), Some(Signal(false, true))];
    CounterexampleRun();
    AsWrittenDrawdownUndefined(100000.0, bars, signals, true);
    TenPercentFall();
  }

  lemma TenPercentFall()
    ensures CurveDrawdown([100000.0, 90000.0]) == Some(10.0)
  {
    var values := [100000.0, 90000.0];
    var peaks := RunningMax(values);
    assert peaks == [100000.0, 100000.0];
    var falls := seq(2, i requires 0 <= i < 2 => (peaks[i] - values[i]) / peaks[i]);
    assert falls == [0.0, 0.1];
    assert SeqMax(falls) == 0.1;
  }
}
