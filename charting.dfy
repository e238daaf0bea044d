/** The charting service after the price history is fetched: Heikin-Ashi
    candles, comparison series, Fibonacci retracements, pivot points,
    support and resistance levels and Donchian channels. An empty history
    (a failed or empty download) gives the empty result of each. */
module Charting {
  import opened Common

  datatype Bar = Bar(time: int, open: real, high: real, low: real, close: real, volume: real)

  /** A bar whose low and high enclose its open and close. */
  predicate WellFormed(b: Bar)
  {
    b.low <= b.open <= b.high && b.low <= b.close <= b.high
  }

  function Highs(bars: seq<Bar>): seq<real>
  {
    seq(|bars|, i requires 0 <= i < |bars| => bars[i].high)
  }

  function Lows(bars: seq<Bar>): seq<real>
  {
    seq(|bars|, i requires 0 <= i < |bars| => bars[i].low)
  }

  // ---------------------------------------------------------------------------
  // Heikin-Ashi

  function HaClose(b: Bar): real
  {
    (b.open + b.high + b.low + b.close) / 4.0
  }

  /** HA_Open[0] = (Open[0] + Close[0]) / 2, then the mean of the previous
      Heikin-Ashi open and close. */
  function HaOpen(bars: seq<Bar>, i: nat): real
    requires i < |bars|
  {
    if i == 0 then (bars[0].open + bars[0].close) / 2.0
    else HaStep(HaOpen(bars, i - 1), bars[i - 1])
  }

  /** The next Heikin-Ashi open from the previous open and the previous bar. */
  function HaStep(prevOpen: real, prev: Bar): real
  {
    (prevOpen + HaClose(prev)) / 2.0
  }

  function Max3(a: real, b: real, c: real): real { Max(Max(a, b), c) }
  function Min3(a: real, b: real, c: real): real { Min(Min(a, b), c) }

  function HaCandle(b: Bar, haOpen: real): Bar
  {
    var haClose := HaClose(b);
    Bar(b.time, haOpen, Max3(haOpen, haClose, b.high), Min3(haOpen, haClose, b.low), haClose, b.volume)
  }

  function HeikinAshiCandles(bars: seq<Bar>): seq<Bar>
  {
    seq(|bars|, i requires 0 <= i < |bars| => HaCandle(bars[i], HaOpen(bars, i)))
  }

  /** The HA_Open column, written one row at a time. */
  method HaOpenColumn(bars: seq<Bar>) returns (haOpen: array<real>)
    requires bars != []
    ensures fresh(haOpen) && haOpen.Length == |bars|
    ensures forall j :: 0 <= j < |bars| ==> haOpen[j] == HaOpen(bars, j)
  {
    haOpen := new real[|bars|];
    haOpen[0] := (bars[0].open + bars[0].close) / 2.0;
    for i := 1 to |bars|
      invariant forall j :: 0 <= j < i ==> haOpen[j] == HaOpen(bars, j)
    {
      haOpen[i] := HaStep(haOpen[i - 1], bars[i - 1]);
    }
  }

  /** get_heikin_ashi */
  method HeikinAshi(bars: seq<Bar>) returns (candles: seq<Bar>)
    ensures candles == HeikinAshiCandles(bars)
  {
    if |bars| == 0 {
      return [];
    }
    var haOpen := HaOpenColumn(bars);
    candles := [];
    for j := 0 to |bars|
      invariant candles == HeikinAshiCandles(bars)[..j]
    {
      candles := candles + [HaCandle(bars[j], haOpen[j])];
    }
  }

  /** Each Heikin-Ashi candle encloses its own open and close and the bar's
      high and low. */
  lemma HeikinAshiEncloses(bars: seq<Bar>, i: nat)
    requires i < |bars|
    ensures var c := HeikinAshiCandles(bars)[i];
      && c.high >= c.open && c.high >= c.close && c.high >= bars[i].high
      && c.low <= c.open && c.low <= c.close && c.low <= bars[i].low
      && WellFormed(c)
      && c.close == (bars[i].open + bars[i].high + bars[i].low + bars[i].close) / 4.0
  {
  }

  /** With well-formed bars inside a price band, every Heikin-Ashi open and
      close stays inside the band. */
  lemma {:induction false} HeikinAshiInBand(bars: seq<Bar>, i: nat, lo: real, hi: real)
    requires i < |bars|
    requires forall j :: 0 <= j < |bars| ==> WellFormed(bars[j]) && lo <= bars[j].low && bars[j].high <= hi
    ensures lo <= HaOpen(bars, i) <= hi
    ensures lo <= HaClose(bars[i]) <= hi
  {
    assert WellFormed(bars[i]);
    if i > 0 {
      HeikinAshiInBand(bars, i - 1, lo, hi);
    }
  }

  // ---------------------------------------------------------------------------
  // compare_stocks

  datatype ComparePoint = ComparePoint(time: int, close: real, pctChange: Option<real>)

  /** (close - first) / first * 100; a zero first close gives a non-finite
      value, shown as None. */
  function PctChange(close: real, first: real): Option<real>
  {
    if first == 0.0 then None else Some((close - first) / first * 100.0)
  }

  function Normalised(bars: seq<Bar>): seq<ComparePoint>
    requires bars != []
  {
    seq(|bars|, i requires 0 <= i < |bars| => ComparePoint(bars[i].time, bars[i].close, PctChange(bars[i].close, bars[0].close)))
  }

  /** The comparison table for the requested symbols; `history` holds each
      symbol's fetched bars, a missing symbol meaning an empty download. */
  function Comparison(symbols: seq<string>, history: map<string, seq<Bar>>): map<string, seq<ComparePoint>>
  {
    map s | s in symbols && s in history && history[s] != [] :: Normalised(history[s])
  }

  method CompareStocks(symbols: seq<string>, history: map<string, seq<Bar>>) returns (comparison: map<string, seq<ComparePoint>>)
    ensures comparison == Comparison(symbols, history)
  {
    comparison := map[];
    for k := 0 to |symbols|
      invariant comparison == Comparison(symbols[..k], history)
    {
      var symbol := symbols[k];
      var bars := if symbol in history then history[symbol] else [];
      if bars != [] {
        comparison := comparison[symbol := Normalised(bars)];
      }
      assert symbols[..k + 1] == symbols[..k] + [symbol];
      assert comparison == Comparison(symbols[..k + 1], history);
    }
    assert symbols[..|symbols|] == symbols;
  }

  /** Each compared series starts at 0%, and with a positive first close a
      point is above 0% exactly when its close is above the first close. */
  lemma ComparisonFromFirstClose(symbols: seq<string>, history: map<string, seq<Bar>>, s: string, i: nat)
    requires s in Comparison(symbols, history)
    ensures var pts := Comparison(symbols, history)[s];
      && |pts| == |history[s]| > 0
      && (history[s][0].close != 0.0 ==> pts[0].pctChange == Some(0.0))
      && (i < |pts| && history[s][0].close > 0.0 ==>
            pts[i].pctChange.Some? && (pts[i].pctChange.value > 0.0 <==> history[s][i].close > history[s][0].close))
  {
    var bars := history[s];
    if i < |bars| && bars[0].close > 0.0 {
      var d := bars[i].close - bars[0].close;
      if d > 0.0 {
        assert d / bars[0].close > 0.0;
      } else {
        assert d / bars[0].close <= 0.0;
      }
    }
  }

  // ---------------------------------------------------------------------------
  // Fibonacci retracement

  datatype FibLevel = FibLevel(name: string, value: real)

  /** get_fibonacci_levels: from the lowest low (0%) to the highest high
      (100%). */
  function FibonacciLevels(bars: seq<Bar>): seq<FibLevel>
  {
    if bars == [] then []
    else
      var high, low := SeqMax(Highs(bars)), SeqMin(Lows(bars));
      var diff := high - low;
      [FibLevel("0%", low),
       FibLevel("23.6%", low + diff * 0.236),
       FibLevel("38.2%", low + diff * 0.382),
       FibLevel("50%", low + diff * 0.5),
       FibLevel("61.8%", low + diff * 0.618),
       FibLevel("78.6%", low + diff * 0.786),
       FibLevel("100%", high)]
  }

  const FibRatios: seq<real> := [0.0, 0.236, 0.382, 0.5, 0.618, 0.786, 1.0]

  /** Seven levels, the k-th at low + (high - low) * ratio k. */
  lemma FibonacciRatios(bars: seq<Bar>)
    requires bars != []
    ensures var ls := FibonacciLevels(bars);
      var high, low := SeqMax(Highs(bars)), SeqMin(Lows(bars));
      && |ls| == 7 && ls[0].value == low && ls[6].value == high
      && forall k :: 0 <= k < 7 ==> ls[k].value == low + (high - low) * FibRatios[k]
  {
  }

  /** With well-formed bars the highest high is at least the lowest low, so
      the levels ascend from 0% to 100%. */
  lemma FibonacciAscending(bars: seq<Bar>)
    requires bars != []
    requires forall j :: 0 <= j < |bars| ==> WellFormed(bars[j])
    ensures var ls := FibonacciLevels(bars);
      forall k :: 0 <= k < |ls| - 1 ==> ls[k].value <= ls[k + 1].value
  {
    var high, low := SeqMax(Highs(bars)), SeqMin(Lows(bars));
    assert WellFormed(bars[0]);
    assert low <= Lows(bars)[0] <= Highs(bars)[0] <= high;
  }

  // ---------------------------------------------------------------------------
  // Pivot points

  datatype Pivots = Pivots(resistance3: real, resistance2: real, resistance1: real, pivot: real,
                           support1: real, support2: real, support3: real)

  /** get_pivot_points, from the last bar; None stands for the empty dict. */
  function PivotPoints(bars: seq<Bar>): Option<Pivots>
  {
    if bars == [] then None
    else
      var last := bars[|bars| - 1];
      var pivot := (last.high + last.low + last.close) / 3.0;
      var range := last.high - last.low;
      Some(Pivots(pivot + range * 1.5, pivot + range * 1.0, pivot + range * 0.5, pivot,
                  pivot - range * 0.5, pivot - range * 1.0, pivot - range * 1.5))
  }

  /** Supports mirror resistances around the pivot; when the last high is
      at least its low they are ordered, and a close inside the bar puts the
      pivot inside it too. */
  lemma PivotsMirrorAndOrder(bars: seq<Bar>)
    requires bars != []
    ensures var p := PivotPoints(bars).value;
      var last := bars[|bars| - 1];
      && p.pivot * 3.0 == last.high + last.low + last.close
      && p.resistance1 - p.pivot == p.pivot - p.support1
      && p.resistance2 - p.pivot == p.pivot - p.support2
      && p.resistance3 - p.pivot == p.pivot - p.support3
      && (last.high >= last.low ==>
            p.support3 <= p.support2 <= p.support1 <= p.pivot <= p.resistance1 <= p.resistance2 <= p.resistance3)
      && (last.low <= last.close <= last.high ==> last.low <= p.pivot <= last.high)
  {
  }

  // ---------------------------------------------------------------------------
  // Support and resistance

  /** xs[i] strictly below (minima) or above (maxima) both neighbours. */
  predicate IsStrictTurn(xs: seq<real>, i: nat, minima: bool)
    requires 1 <= i < |xs| - 1
  {
    if minima then xs[i] < xs[i - 1] && xs[i] < xs[i + 1] else xs[i] > xs[i - 1] && xs[i] > xs[i + 1]
  }

  /** The values of the strict turns at indices 1 <= i < k, in index order. */
  function TurnValues(xs: seq<real>, k: nat, minima: bool): seq<real>
    requires k <= 1 || k + 1 <= |xs|
  {
    if k <= 1 then []
    else TurnValues(xs, k - 1, minima) + (if IsStrictTurn(xs, k - 1, minima) then [xs[k - 1]] else [])
  }

  function AllTurnValues(xs: seq<real>, minima: bool): seq<real>
  {
    if |xs| < 3 then [] else TurnValues(xs, |xs| - 1, minima)
  }

  predicate StrictlyDescending(s: seq<real>)
  {
    forall i, j :: 0 <= i < j < |s| ==> s[i] > s[j]
  }

  /** Inserts x into a descending sequence unless it is already there. */
  function InsertDescending(x: real, s: seq<real>): seq<real>
  {
    if s == [] then [x]
    else if x > s[0] then [x] + s
    else if x == s[0] then s
    else [s[0]] + InsertDescending(x, s[1..])
  }

  /** sorted(set(xs), reverse=True) */
  function SortedDistinctDescending(xs: seq<real>): seq<real>
  {
    if xs == [] then []
    else InsertDescending(xs[|xs| - 1], SortedDistinctDescending(xs[..|xs| - 1]))
  }

  predicate Below(s: seq<real>, b: real)
  {
    forall i :: 0 <= i < |s| ==> s[i] < b
  }

  /** Insertion adds x and keeps every other value. */
  lemma {:induction false} InsertDescendingElements(x: real, s: seq<real>)
    ensures forall y :: y in InsertDescending(x, s) <==> y in s || y == x
    decreases |s|
  {
    if s != [] && x < s[0] {
      InsertDescendingElements(x, s[1..]);
      assert s == [s[0]] + s[1..];
    }
  }

  /** Insertion keeps a strictly descending sequence strictly descending,
      with the larger of x and the old head in front. */
  lemma {:induction false} InsertDescendingSorted(x: real, s: seq<real>)
    requires StrictlyDescending(s)
    ensures StrictlyDescending(InsertDescending(x, s))
    ensures |InsertDescending(x, s)| > 0
    ensures InsertDescending(x, s)[0] == if s == [] then x else Max(x, s[0])
    decreases |s|
  {
    if s != [] && x < s[0] {
      var tail := s[1..];
      InsertDescendingSorted(x, tail);
      var rest := InsertDescending(x, tail);
      assert rest[0] < s[0];
      var r := [s[0]] + rest;
      assert InsertDescending(x, s) == r;
      forall i, j | 0 <= i < j < |r| ensures r[i] > r[j] {
        assert r[j] == rest[j - 1];
        if i > 0 {
          assert r[i] == rest[i - 1];
        } else if j > 1 {
          assert rest[0] > rest[j - 1];
        }
      }
    }
  }

  /** The sorted list is strictly descending and holds exactly the values
      of the input. */
  lemma {:induction false} SortedDistinctDescendingSorted(xs: seq<real>)
    ensures StrictlyDescending(SortedDistinctDescending(xs))
    ensures forall y :: y in SortedDistinctDescending(xs) <==> y in xs
    decreases |xs|
  {
    if xs != [] {
      var init := xs[..|xs| - 1];
      SortedDistinctDescendingSorted(init);
      InsertDescendingSorted(xs[|xs| - 1], SortedDistinctDescending(init));
      InsertDescendingElements(xs[|xs| - 1], SortedDistinctDescending(init));
      assert xs == init + [xs[|xs| - 1]];
    }
  }

  /** The head of a strictly descending sequence is its largest element. */
  lemma HeadIsLargest(s: seq<real>, y: real)
    requires StrictlyDescending(s) && y in s
    ensures s[0] >= y
  {
  }

  /** Two strictly descending sequences with the same elements and the same
      head have tails with the same elements. */
  lemma SameTails(a: seq<real>, b: seq<real>)
    requires StrictlyDescending(a) && StrictlyDescending(b) && a != [] && b != [] && a[0] == b[0]
    requires forall y :: y in a <==> y in b
    ensures forall y :: y in a[1..] <==> y in b[1..]
  {
    forall y | y in a[1..] ensures y in b[1..] {
      var i :| 0 <= i < |a[1..]| && a[1..][i] == y;
      assert a[i + 1] == y && y < a[0] && y in b;
      var j :| 0 <= j < |b| && b[j] == y;
      assert j != 0 && b[1..][j - 1] == y;
    }
    forall y | y in b[1..] ensures y in a[1..] {
      var i :| 0 <= i < |b[1..]| && b[1..][i] == y;
      assert b[i + 1] == y && y < b[0] && y in a;
      var j :| 0 <= j < |a| && a[j] == y;
      assert j != 0 && a[1..][j - 1] == y;
    }
  }

  /** A strictly descending sequence is determined by its elements, so the
      sorted, deduplicated list is the only one with its properties. */
  lemma {:induction false} DescendingUnique(a: seq<real>, b: seq<real>)
    requires StrictlyDescending(a) && StrictlyDescending(b)
    requires forall y :: y in a <==> y in b
    ensures a == b
    decreases |a|
  {
    if a != [] {
      assert a[0] in a;
      assert b != [];
    }
    if b != [] {
      assert b[0] in b;
      assert a != [];
    }
    if a != [] {
      HeadIsLargest(b, a[0]);
      HeadIsLargest(a, b[0]);
      SameTails(a, b);
      assert StrictlyDescending(a[1..]) && StrictlyDescending(b[1..]);
      DescendingUnique(a[1..], b[1..]);
      assert a == [a[0]] + a[1..];
      assert b == [b[0]] + b[1..];
    }
  }

  /** s[:n] with Python's slice bounds: a negative n drops that many from
      the end. */
  function PyTake(s: seq<real>, n: int): (r: seq<real>)
    ensures |r| <= |s| && r == s[..|r|]
    ensures n >= 0 ==> |r| == Min(n as real, |s| as real) as int
    ensures n < 0 ==> |r| == if |s| + n < 0 then 0 else |s| + n
  {
    if n >= 0 then (if n <= |s| then s[..n] else s)
    else if |s| + n <= 0 then [] else s[..|s| + n]
  }

  function Levels(xs: seq<real>, minima: bool, numLevels: int): seq<real>
  {
    PyTake(SortedDistinctDescending(AllTurnValues(xs, minima)), numLevels)
  }

  /** One of the two collecting loops of get_support_resistance: the strict
      local minima (or maxima) at the interior indices, in index order. */
  method CollectTurns(xs: seq<real>, minima: bool) returns (vals: seq<real>)
    ensures vals == AllTurnValues(xs, minima)
  {
    vals := [];
    if |xs| >= 3 {
      for i := 1 to |xs| - 1
        invariant vals == TurnValues(xs, i, minima)
      {
        if IsStrictTurn(xs, i, minima) {
          vals := vals + [xs[i]];
        }
      }
    }
  }

  /** get_support_resistance: the two loops over interior bars, then
      deduplication, descending sort and the first num_levels. */
  method GetSupportResistance(bars: seq<Bar>, numLevels: int) returns (support: seq<real>, resistance: seq<real>)
    ensures support == Levels(Lows(bars), true, numLevels)
    ensures resistance == Levels(Highs(bars), false, numLevels)
  {
    support := CollectTurns(Lows(bars), true);
    resistance := CollectTurns(Highs(bars), false);
    support := PyTake(SortedDistinctDescending(support), numLevels);
    resistance := PyTake(SortedDistinctDescending(resistance), numLevels);
  }

  /** Every collected value is a strict turn of the series. */
  lemma {:induction false} TurnValuesSound(xs: seq<real>, k: nat, minima: bool, y: real)
    requires k <= 1 || k + 1 <= |xs|
    requires y in TurnValues(xs, k, minima)
    ensures exists i :: 1 <= i < k && IsStrictTurn(xs, i, minima) && xs[i] == y
    decreases k
  {
    var prev := TurnValues(xs, k - 1, minima);
    if y in prev {
      TurnValuesSound(xs, k - 1, minima, y);
    } else {
      assert IsStrictTurn(xs, k - 1, minima) && xs[k - 1] == y;
    }
  }

  /** Every strict turn's value is collected. */
  lemma {:induction false} TurnValuesComplete(xs: seq<real>, k: nat, minima: bool, i: nat)
    requires k <= 1 || k + 1 <= |xs|
    requires 1 <= i < k && IsStrictTurn(xs, i, minima)
    ensures xs[i] in TurnValues(xs, k, minima)
    decreases k
  {
    var prev := TurnValues(xs, k - 1, minima);
    if i < k - 1 {
      TurnValuesComplete(xs, k - 1, minima, i);
      assert TurnValues(xs, k, minima)[..|prev|] == prev;
    } else {
      assert TurnValues(xs, k, minima) == prev + [xs[i]];
    }
  }

  /** The reported levels are distinct strict turns in descending order, at
      most num_levels of them, and none left out is above one reported. */
  lemma LevelsAreTopTurns(xs: seq<real>, minima: bool, numLevels: int)
    ensures var r := Levels(xs, minima, numLevels);
      && StrictlyDescending(r)
      && (numLevels >= 0 ==> |r| <= numLevels)
      && (forall y :: y in r ==> exists i :: 1 <= i < |xs| - 1 && IsStrictTurn(xs, i, minima) && xs[i] == y)
      && (forall i :: 1 <= i < |xs| - 1 && IsStrictTurn(xs, i, minima) && xs[i] !in r ==>
            forall y :: y in r ==> y > xs[i])
  {
    var all := AllTurnValues(xs, minima);
    var sorted := SortedDistinctDescending(all);
    SortedDistinctDescendingSorted(all);
    var r := Levels(xs, minima, numLevels);
    assert forall a, b :: 0 <= a < b < |r| ==> r[a] == sorted[a] && r[b] == sorted[b];
    forall y | y in r
      ensures exists i :: 1 <= i < |xs| - 1 && IsStrictTurn(xs, i, minima) && xs[i] == y
    {
      var a :| 0 <= a < |r| && r[a] == y;
      assert sorted[a] == y;
      TurnValuesSound(xs, |xs| - 1, minima, y);
    }
    forall i, y | 1 <= i < |xs| - 1 && IsStrictTurn(xs, i, minima) && xs[i] !in r && y in r
      ensures y > xs[i]
    {
      TurnValuesComplete(xs, |xs| - 1, minima, i);
      var j :| 0 <= j < |sorted| && sorted[j] == xs[i];
      var a :| 0 <= a < |r| && r[a] == y;
      assert sorted[a] == y;
      assert j >= |r|;
    }
  }

  // ---------------------------------------------------------------------------
  // Donchian channels

  datatype Channel = Channel(upper: seq<real>, lower: seq<real>, middle: seq<real>)

  /** calculate_channels: rolling highest high and lowest low over `window`
      bars, their midpoint, with the incomplete leading windows dropped. A
      window of 0 makes every band value NaN, so dropna leaves no entry. */
  function Channels(bars: seq<Bar>, window: nat): Channel
  {
    if window == 0 || |bars| < window then Channel([], [], [])
    else
      var n := |bars| - window + 1;
      var upper := seq(n, k requires 0 <= k < n => SeqMax(Highs(bars)[k..k + window]));
      var lower := seq(n, k requires 0 <= k < n => SeqMin(Lows(bars)[k..k + window]));
      Channel(upper, lower, seq(n, k requires 0 <= k < n => (upper[k] + lower[k]) / 2.0))
  }

  /** The three bands have one entry per complete window (none for a window
      of 0), and the middle band is the midpoint of the others. */
  lemma ChannelsShape(bars: seq<Bar>, window: nat)
    ensures var c := Channels(bars, window);
      && |c.upper| == |c.lower| == |c.middle| == (if window == 0 || |bars| < window then 0 else |bars| - window + 1)
      && forall k :: 0 <= k < |c.middle| ==> c.middle[k] == (c.upper[k] + c.lower[k]) / 2.0
  {
  }

  /** The upper band bounds every high of its window and the lower band
      every low; with well-formed bars the middle lies between them. */
  lemma ChannelsBracket(bars: seq<Bar>, window: nat, k: nat)
    requires window >= 1 && k + window <= |bars|
    ensures var c := Channels(bars, window);
      && (forall j :: k <= j < k + window ==> bars[j].high <= c.upper[k] && c.lower[k] <= bars[j].low)
      && ((forall j :: 0 <= j < |bars| ==> WellFormed(bars[j])) ==> c.lower[k] <= c.middle[k] <= c.upper[k])
  {
    var c := Channels(bars, window);
    var hs := Highs(bars)[k..k + window];
    var ls := Lows(bars)[k..k + window];
    assert c.upper[k] == SeqMax(hs) && c.lower[k] == SeqMin(ls);
    forall j | k <= j < k + window
      ensures bars[j].high <= c.upper[k] && c.lower[k] <= bars[j].low
    {
      assert hs[j - k] == bars[j].high && ls[j - k] == bars[j].low;
    }
    if forall j :: 0 <= j < |bars| ==> WellFormed(bars[j]) {
      assert WellFormed(bars[k]);
      assert c.lower[k] <= bars[k].low <= bars[k].high <= c.upper[k];
      assert c.middle[k] == (c.upper[k] + c.lower[k]) / 2.0;
    }
  }
}
