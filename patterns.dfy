/** The pattern service: candlestick flags, support and resistance levels
    with their strength, and the turning points a trend line is fitted to. */
module Patterns {
  import opened Common

  // ---------------------------------------------------------------------------
  // Candlestick flags

  datatype Candle = Candle(open: real, high: real, low: real, close: real)

  function Body(c: Candle): real
  {
    Abs(c.close - c.open)
  }

  /** The body is at most a tenth of the high-low range. */
  predicate IsDoji(c: Candle)
  {
    Body(c) <= (c.high - c.low) * 0.1
  }

  /** The lower shadow is at least twice the body and the upper shadow at
      most the body. */
  predicate IsHammer(c: Candle)
  {
    Min(c.open, c.close) - c.low >= 2.0 * Body(c) && c.high - Max(c.open, c.close) <= Body(c)
  }

  function Flag(b: bool): int
  {
    if b then 1 else 0
  }

  datatype CandleFlags = CandleFlags(doji: seq<int>, hammer: seq<int>)

  /** detect_candlestick_patterns: one 0/1 flag per candle and pattern. With
      no candle the data frame has no price columns and the lookup raises, so
      the history must not be empty; its one caller rejects an empty history
      first. */
  function DetectCandlestickPatterns(cs: seq<Candle>): CandleFlags
    requires cs != []
  {
    CandleFlags(seq(|cs|, i requires 0 <= i < |cs| => Flag(IsDoji(cs[i]))),
                seq(|cs|, i requires 0 <= i < |cs| => Flag(IsHammer(cs[i]))))
  }

  /** The flag lists are as long as the input, hold only 0 and 1, and read
      the same whichever of open and close is the larger: a bullish candle
      and its bearish mirror get the same flags. */
  lemma CandleFlagsShape(cs: seq<Candle>, i: nat)
    requires i < |cs|
    ensures var f := DetectCandlestickPatterns(cs);
      && |f.doji| == |cs| && |f.hammer| == |cs|
      && (f.doji[i] == 0 || f.doji[i] == 1) && (f.hammer[i] == 0 || f.hammer[i] == 1)
      && (f.doji[i] == 1 <==> IsDoji(cs[i])) && (f.hammer[i] == 1 <==> IsHammer(cs[i]))
      && var m := cs[i].(open := cs[i].close, close := cs[i].open);
         DetectCandlestickPatterns(cs[i := m]).doji[i] == f.doji[i]
         && DetectCandlestickPatterns(cs[i := m]).hammer[i] == f.hammer[i]
  {
  }

  /** A hammer's low is at or below its body, and a doji's high is at or
      above its low. */
  lemma CandleShapes(c: Candle)
    ensures IsHammer(c) ==> c.low <= Min(c.open, c.close)
    ensures IsDoji(c) ==> c.low <= c.high
    ensures IsDoji(c) && c.high == c.low ==> c.open == c.close
  {
  }

  // ---------------------------------------------------------------------------
  // Level strength

  const DefaultTolerance := 0.02

  /** abs(price - level) / level <= tolerance, in numpy arithmetic: dividing
      by a zero level gives infinity or NaN, and both compare false. */
  predicate Touches(price: real, level: real, tolerance: real)
  {
    level != 0.0 && Abs(price - level) / level <= tolerance
  }

  /** Number of prices within the relative tolerance of the level. */
  function Strength(prices: seq<real>, level: real, tolerance: real): (n: nat)
    ensures n <= |prices|
  {
    if prices == [] then 0
    else Strength(prices[..|prices| - 1], level, tolerance)
         + (if Touches(prices[|prices| - 1], level, tolerance) then 1 else 0)
  }

  /** _calculate_level_strength */
  method LevelStrength(prices: seq<real>, level: real, tolerance: real) returns (touches: nat)
    ensures touches == Strength(prices, level, tolerance)
  {
    touches := 0;
    var k := 0;
    while k < |prices|
      invariant 0 <= k <= |prices|
      invariant touches == Strength(prices[..k], level, tolerance)
    {
      assert prices[..k + 1][..k] == prices[..k];
      if level != 0.0 && Abs(prices[k] - level) / level <= tolerance {
        touches := touches + 1;
      }
      k := k + 1;
    }
    assert prices[..k] == prices;
  }

  /** A positive level that is one of the prices touches at least itself;
      a negative level touches every price, since the ratio is never
      positive; a zero level touches nothing. */
  lemma {:induction false} StrengthBounds(prices: seq<real>, level: real, tolerance: real)
    requires tolerance >= 0.0
    ensures level > 0.0 && (exists i :: 0 <= i < |prices| && prices[i] == level) ==> Strength(prices, level, tolerance) >= 1
    ensures level < 0.0 ==> Strength(prices, level, tolerance) == |prices|
    ensures level == 0.0 ==> Strength(prices, level, tolerance) == 0
    decreases |prices|
  {
    if prices != [] {
      var n := |prices| - 1;
      StrengthBounds(prices[..n], level, tolerance);
      if level < 0.0 {
        assert Abs(prices[n] - level) / level <= 0.0;
      }
      if level > 0.0 && exists i :: 0 <= i < |prices| && prices[i] == level {
        var i :| 0 <= i < |prices| && prices[i] == level;
        if i < n {
          assert prices[..n][i] == level;
        } else {
          assert Touches(prices[n], level, tolerance);
        }
      }
    }
  }

  // ---------------------------------------------------------------------------
  // Support and resistance

  datatype Level = Level(level: real, index: nat, strength: nat)

  /** prices[i] is no higher (support) or no lower (resistance) than every
      price of the 2*window+1 centred on it; MinMaxTest shows this is the
      min/max comparison the scan makes. */
  predicate IsLevelAt(prices: seq<real>, window: nat, i: nat, support: bool)
    requires window <= i && i + window < |prices|
  {
    forall j :: i - window <= j <= i + window ==>
      if support then prices[i] <= prices[j] else prices[j] <= prices[i]
  }

  /** The levels found at indices window <= i < k, in index order. */
  function Levels(prices: seq<real>, window: nat, k: nat, support: bool): seq<Level>
    requires k <= window || k + window <= |prices|
  {
    if k <= window then []
    else Levels(prices, window, k - 1, support)
         + (if IsLevelAt(prices, window, k - 1, support)
            then [Level(prices[k - 1], k - 1, Strength(prices, prices[k - 1], DefaultTolerance))]
            else [])
  }

  /** Every level the loop of detect_support_resistance finds. */
  function AllLevels(prices: seq<real>, window: nat, support: bool): seq<Level>
  {
    if |prices| < 2 * window then [] else Levels(prices, window, |prices| - window, support)
  }

  /** s[-5:] */
  function LastFive<T>(s: seq<T>): (r: seq<T>)
    ensures |r| == if |s| < 5 then |s| else 5
    ensures r == s[|s| - |r|..]
  {
    if |s| <= 5 then s else s[|s| - 5..]
  }

  /** One test of the scan: appends the level at i when prices[i] is the
      min (support) or max (resistance) of its window. */
  method ExtendLevels(prices: seq<real>, window: nat, i: nat, support: bool, found: seq<Level>) returns (r: seq<Level>)
    requires window <= i && i + window < |prices|
    requires found == Levels(prices, window, i, support)
    ensures r == Levels(prices, window, i + 1, support)
  {
    var around := prices[i - window..i + window + 1];
    var extreme := if support then SeqMin(around) else SeqMax(around);
    MinMaxTest(prices, window, i, support);
    if prices[i] == extreme {
      var strength := LevelStrength(prices, prices[i], DefaultTolerance);
      r := found + [Level(prices[i], i, strength)];
      assert IsLevelAt(prices, window, i, support);
    } else {
      r := found;
      assert !IsLevelAt(prices, window, i, support);
    }
  }

  /** The scanning loop of detect_support_resistance: every level of each
      kind, in index order. */
  method ScanLevels(prices: seq<real>, window: nat) returns (support: seq<Level>, resistance: seq<Level>)
    ensures support == AllLevels(prices, window, true)
    ensures resistance == AllLevels(prices, window, false)
  {
    support, resistance := [], [];
    if |prices| < 2 * window {
      return;
    }
    var i := window;
    while i < |prices| - window
      invariant window <= i <= |prices| - window
      invariant support == Levels(prices, window, i, true)
      invariant resistance == Levels(prices, window, i, false)
    {
      support := ExtendLevels(prices, window, i, true, support);
      resistance := ExtendLevels(prices, window, i, false, resistance);
      i := i + 1;
    }
  }

  /** detect_support_resistance: the last five levels of each kind. */
  method DetectSupportResistance(prices: seq<real>, window: nat) returns (support: seq<Level>, resistance: seq<Level>)
    ensures support == LastFive(AllLevels(prices, window, true))
    ensures resistance == LastFive(AllLevels(prices, window, false))
  {
    var allSupport, allResistance := ScanLevels(prices, window);
    support := LastFive(allSupport);
    resistance := LastFive(allResistance);
  }

  /** What a found level is: at an index of the scanned range, the price
      there, no higher (support) or no lower (resistance) than every price
      within the window, with its strength. */
  predicate SoundLevel(prices: seq<real>, window: nat, lv: Level, support: bool)
  {
    && window <= lv.index && lv.index + window < |prices|
    && lv.level == prices[lv.index]
    && lv.strength == Strength(prices, lv.level, DefaultTolerance)
    && forall j :: lv.index - window <= j <= lv.index + window ==>
         if support then lv.level <= prices[j] else prices[j] <= lv.level
  }

  predicate AllSound(prices: seq<real>, window: nat, ls: seq<Level>, support: bool)
  {
    forall n :: 0 <= n < |ls| ==> SoundLevel(prices, window, ls[n], support)
  }

  predicate Increasing(ls: seq<Level>)
  {
    forall m, n :: 0 <= m < n < |ls| ==> ls[m].index < ls[n].index
  }

  /** Every index in ls is below k. */
  predicate IndicesBelow(ls: seq<Level>, k: nat)
  {
    forall n :: 0 <= n < |ls| ==> ls[n].index < k
  }

  /** Some level in ls sits at index i. */
  predicate HasLevelAt(ls: seq<Level>, i: nat)
  {
    exists n :: 0 <= n < |ls| && ls[n].index == i
  }

  /** prices[i] == min(window) (support) or prices[i] == max(window)
      (resistance) holds exactly when the price bounds its neighbourhood. */
  lemma MinMaxTest(prices: seq<real>, window: nat, i: nat, support: bool)
    requires window <= i && i + window < |prices|
    ensures var around := prices[i - window..i + window + 1];
      IsLevelAt(prices, window, i, support) <==>
      prices[i] == if support then SeqMin(around) else SeqMax(around)
  {
    var around := prices[i - window..i + window + 1];
    assert around[window] == prices[i];
    assert forall j :: i - window <= j <= i + window ==> around[j - (i - window)] == prices[j];
    if IsLevelAt(prices, window, i, support) {
      var m := if support then SeqMin(around) else SeqMax(around);
      var k :| 0 <= k < |around| && around[k] == m;
      assert around[k] == prices[k + i - window];
    }
  }

  /** Appending a sound level with a larger index than all before keeps
      the list sound and increasing. */
  lemma AppendLevel(prices: seq<real>, window: nat, ls: seq<Level>, lv: Level, support: bool)
    requires AllSound(prices, window, ls, support) && Increasing(ls) && IndicesBelow(ls, lv.index)
    requires SoundLevel(prices, window, lv, support)
    ensures AllSound(prices, window, ls + [lv], support) && Increasing(ls + [lv])
    ensures IndicesBelow(ls + [lv], lv.index + 1)
  {
    var r := ls + [lv];
    assert forall n :: 0 <= n < |ls| ==> r[n] == ls[n];
  }

  /** The found levels are sound, in strictly increasing index order, and
      all below k. */
  lemma {:induction false} LevelsSound(prices: seq<real>, window: nat, k: nat, support: bool)
    requires k <= window || k + window <= |prices|
    ensures AllSound(prices, window, Levels(prices, window, k, support), support)
    ensures Increasing(Levels(prices, window, k, support))
    ensures IndicesBelow(Levels(prices, window, k, support), k)
    decreases k
  {
    if k > window {
      var i := k - 1;
      LevelsSound(prices, window, i, support);
      var prev := Levels(prices, window, i, support);
      if IsLevelAt(prices, window, i, support) {
        AppendLevel(prices, window, prev, Level(prices[i], i, Strength(prices, prices[i], DefaultTolerance)), support);
      } else {
        assert Levels(prices, window, k, support) == prev;
      }
    }
  }

  /** Every index of the scanned range that passes the window test is found. */
  lemma {:induction false} LevelsComplete(prices: seq<real>, window: nat, k: nat, support: bool)
    requires k <= window || k + window <= |prices|
    ensures forall i :: window <= i < k && IsLevelAt(prices, window, i, support) ==>
              HasLevelAt(Levels(prices, window, k, support), i)
    decreases k
  {
    if k > window {
      var i := k - 1;
      LevelsComplete(prices, window, i, support);
      var prev := Levels(prices, window, i, support);
      var extra := if IsLevelAt(prices, window, i, support)
                   then [Level(prices[i], i, Strength(prices, prices[i], DefaultTolerance))] else [];
      var ls := prev + extra;
      assert ls == Levels(prices, window, k, support);
      forall j | window <= j < k && IsLevelAt(prices, window, j, support)
        ensures HasLevelAt(ls, j)
      {
        if j < i {
          var n :| 0 <= n < |prev| && prev[n].index == j;
          assert ls[n] == prev[n];
        } else {
          assert ls[|prev|].index == j;
        }
      }
    }
  }

  /** A found level at a positive price has strength at least 1. */
  lemma FoundLevelTouchesItself(prices: seq<real>, window: nat, lv: Level, support: bool)
    requires SoundLevel(prices, window, lv, support) && lv.level > 0.0
    ensures 1 <= lv.strength <= |prices|
  {
    StrengthBounds(prices, lv.level, DefaultTolerance);
  }

  /** A suffix of a sound, increasing list is sound and increasing, and
      every dropped level comes before every kept one. */
  lemma SuffixOfLevels(prices: seq<real>, window: nat, ls: seq<Level>, off: nat, support: bool)
    requires off <= |ls| && AllSound(prices, window, ls, support) && Increasing(ls)
    ensures AllSound(prices, window, ls[off..], support) && Increasing(ls[off..])
    ensures forall n, m :: 0 <= n < off && 0 <= m < |ls| - off ==> ls[n].index < ls[off..][m].index
  {
    assert forall m :: 0 <= m < |ls| - off ==> ls[off..][m] == ls[off + m];
  }

  /** What detect_support_resistance returns: at most five sound levels of
      each kind, in index order, later than every level it drops. */
  lemma DetectedLevels(prices: seq<real>, window: nat, support: bool)
    ensures var all := AllLevels(prices, window, support);
      && |LastFive(all)| <= 5
      && AllSound(prices, window, LastFive(all), support)
      && Increasing(LastFive(all))
      && forall n, m :: 0 <= n < |all| - |LastFive(all)| && 0 <= m < |LastFive(all)| ==> all[n].index < LastFive(all)[m].index
  {
    var all := AllLevels(prices, window, support);
    if |prices| >= 2 * window {
      LevelsSound(prices, window, |prices| - window, support);
    }
    var off := |all| - |LastFive(all)|;
    SuffixOfLevels(prices, window, all, off, support);
  }

  // ---------------------------------------------------------------------------
  // Turning points for trend lines

  datatype Point = Point(index: nat, price: real)

  /** prices[i] is strictly above (peak) or strictly below (trough) both
      neighbours. */
  predicate IsTurn(prices: seq<real>, i: nat, peak: bool)
    requires 1 <= i < |prices| - 1
  {
    if peak then prices[i] > prices[i - 1] && prices[i] > prices[i + 1]
    else prices[i] < prices[i - 1] && prices[i] < prices[i + 1]
  }

  /** The turning points at indices 2 <= i < k, in index order. */
  function Turns(prices: seq<real>, k: nat, peak: bool): seq<Point>
    requires k <= 2 || k + 2 <= |prices|
  {
    if k <= 2 then []
    else Turns(prices, k - 1, peak) + (if IsTurn(prices, k - 1, peak) then [Point(k - 1, prices[k - 1])] else [])
  }

  function AllTurns(prices: seq<real>, peak: bool): seq<Point>
  {
    if |prices| < 4 then [] else Turns(prices, |prices| - 2, peak)
  }

  /** The points a trend line is fitted through: the last four, or none when
      fewer than four were found. */
  function TrendPoints(turns: seq<Point>): (r: Option<seq<Point>>)
    ensures r.Some? <==> |turns| >= 4
    ensures r.Some? ==> |r.value| == 4 && r.value == turns[|turns| - 4..]
  {
    if |turns| >= 4 then Some(turns[|turns| - 4..]) else None
  }

  /** detect_trend_lines, up to the points handed to the line fit. */
  method DetectTrendLines(prices: seq<real>) returns (uptrend: Option<seq<Point>>, downtrend: Option<seq<Point>>)
    ensures uptrend == TrendPoints(AllTurns(prices, false))
    ensures downtrend == TrendPoints(AllTurns(prices, true))
  {
    var peaks: seq<Point> := [];
    var troughs: seq<Point> := [];
    if |prices| >= 4 {
      var i := 2;
      while i < |prices| - 2
        invariant 2 <= i <= |prices| - 2
        invariant peaks == Turns(prices, i, true) && troughs == Turns(prices, i, false)
      {
        if prices[i] > prices[i - 1] && prices[i] > prices[i + 1] {
          peaks := peaks + [Point(i, prices[i])];
        }
        if prices[i] < prices[i - 1] && prices[i] < prices[i + 1] {
          troughs := troughs + [Point(i, prices[i])];
        }
        i := i + 1;
      }
    }
    uptrend := if |troughs| >= 4 then Some(troughs[|troughs| - 4..]) else None;
    downtrend := if |peaks| >= 4 then Some(peaks[|peaks| - 4..]) else None;
  }

  predicate SoundTurn(prices: seq<real>, p: Point, peak: bool)
  {
    && 2 <= p.index && p.index + 2 < |prices|
    && p.price == prices[p.index]
    && IsTurn(prices, p.index, peak)
  }

  predicate AllTurnsSound(prices: seq<real>, ps: seq<Point>, peak: bool)
  {
    forall n :: 0 <= n < |ps| ==> SoundTurn(prices, ps[n], peak)
  }

  predicate PointsIncreasing(ps: seq<Point>)
  {
    forall m, n :: 0 <= m < n < |ps| ==> ps[m].index < ps[n].index
  }

  predicate PointsBelow(ps: seq<Point>, k: nat)
  {
    forall n :: 0 <= n < |ps| ==> ps[n].index < k
  }

  /** Some point in ps sits at index i. */
  predicate HasPointAt(ps: seq<Point>, i: nat)
  {
    exists n :: 0 <= n < |ps| && ps[n].index == i
  }

  /** Appending a turning point past all earlier ones keeps the list sound
      and increasing. */
  lemma AppendPoint(prices: seq<real>, ps: seq<Point>, p: Point, peak: bool)
    requires AllTurnsSound(prices, ps, peak) && PointsIncreasing(ps) && PointsBelow(ps, p.index)
    requires SoundTurn(prices, p, peak)
    ensures AllTurnsSound(prices, ps + [p], peak) && PointsIncreasing(ps + [p])
    ensures PointsBelow(ps + [p], p.index + 1)
  {
    var r := ps + [p];
    assert forall n :: 0 <= n < |ps| ==> r[n] == ps[n];
  }

  /** Found turning points are strict local extremes inside [2, len-2), in
      increasing index order. */
  lemma {:induction false} TurnsSound(prices: seq<real>, k: nat, peak: bool)
    requires k <= 2 || k + 2 <= |prices|
    ensures AllTurnsSound(prices, Turns(prices, k, peak), peak)
    ensures PointsIncreasing(Turns(prices, k, peak))
    ensures PointsBelow(Turns(prices, k, peak), k)
    decreases k
  {
    if k > 2 {
      var i := k - 1;
      TurnsSound(prices, i, peak);
      var prev := Turns(prices, i, peak);
      if IsTurn(prices, i, peak) {
        AppendPoint(prices, prev, Point(i, prices[i]), peak);
      } else {
        assert Turns(prices, k, peak) == prev;
      }
    }
  }

  /** Every strict local extreme inside [2, k) is found. */
  lemma {:induction false} TurnsComplete(prices: seq<real>, k: nat, peak: bool)
    requires k <= 2 || k + 2 <= |prices|
    ensures forall i :: 2 <= i < k && IsTurn(prices, i, peak) ==> HasPointAt(Turns(prices, k, peak), i)
    decreases k
  {
    if k > 2 {
      var i := k - 1;
      TurnsComplete(prices, i, peak);
      var prev := Turns(prices, i, peak);
      var extra := if IsTurn(prices, i, peak) then [Point(i, prices[i])] else [];
      var ps := prev + extra;
      assert ps == Turns(prices, k, peak);
      forall j | 2 <= j < k && IsTurn(prices, j, peak)
        ensures HasPointAt(ps, j)
      {
        if j < i {
          var n :| 0 <= n < |prev| && prev[n].index == j;
          assert ps[n] == prev[n];
        } else {
          assert ps[|prev|].index == j;
        }
      }
    }
  }

  /** No index is both a peak and a trough, and every reported point is a
      found turning point. */
  lemma PeaksAndTroughsDisjoint(prices: seq<real>)
    ensures forall m, n :: 0 <= m < |AllTurns(prices, true)| && 0 <= n < |AllTurns(prices, false)| ==>
              AllTurns(prices, true)[m].index != AllTurns(prices, false)[n].index
    ensures AllTurnsSound(prices, AllTurns(prices, true), true)
    ensures AllTurnsSound(prices, AllTurns(prices, false), false)
  {
    if |prices| >= 4 {
      TurnsSound(prices, |prices| - 2, true);
      TurnsSound(prices, |prices| - 2, false);
    }
  }
}
