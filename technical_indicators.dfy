/**
 * The indicator library: SMA, EMA, RSI, MACD and Bollinger bands over a price
 * series. Each indicator fills an index-aligned array whose warm-up prefix is
 * NaN (`None`); each element has a closed-form specification below, and each
 * method is proved to fill its array with exactly those values.
 */
module TechnicalIndicators {
  import opened Wrappers
  import opened Doubles
  import opened Stocks

  /** A support/resistance level, consumed by the validator (computed elsewhere). */
  datatype SupportResistanceLevel = SupportResistanceLevel(level: real, isSupport: bool, isResistance: bool)

  /** The ADX series, consumed by the validators (computed elsewhere). */
  datatype ADXResult = ADXResult(adx: seq<Double>)

  datatype MACDResult = MACDResult(macdLine: seq<Double>, signalLine: seq<Double>, histogram: seq<Double>)

  datatype BollingerBands = BollingerBands(middle: seq<Double>, upper: seq<Double>, lower: seq<Double>)

  // ---------------------------------------------------------------- SMA

  /** Simple moving average of `s` at `i`: NaN in the warm-up, and NaN when a term of the window is. */
  function SmaAt(s: seq<Double>, period: int, i: int): Double
    requires period >= 1 && 0 <= i < |s|
  {
    if i < period - 1 then None else DivBy(WindowSum(s, i - period + 1, i + 1), period as real)
  }

  /** The loop of `calculateSMA`, run over any series of doubles. */
  method MovingAverage(s: seq<Double>, period: int) returns (sma: seq<Double>)
    requires period >= 1
    ensures |sma| == |s|
    ensures forall i :: 0 <= i < |s| ==> sma[i] == SmaAt(s, period, i)
  {
    var a := new Double[|s|];
    for i := 0 to |s|
      invariant forall k :: 0 <= k < i ==> a[k] == SmaAt(s, period, k)
    {
      if i < period - 1 {
        a[i] := None;
      } else {
        var sum: Double := Some(0.0);
        for j := i - period + 1 to i + 1
          invariant sum == WindowSum(s, i - period + 1, j)
        {
          sum := Plus(sum, s[j]);
        }
        a[i] := DivBy(sum, period as real);
      }
    }
    sma := a[..];
  }

  /** SMA of the closes: undefined exactly before `period - 1`, the window mean from there on. */
  method CalculateSMA(data: seq<StockData>, period: int) returns (sma: seq<Double>)
    requires period >= 1
    ensures |sma| == |data|
    ensures forall i :: 0 <= i < |data| ==> (sma[i].None? <==> i < period - 1)
    ensures forall i :: period - 1 <= i < |data| ==>
              sma[i] == Some(Sum(Closes(data), i - period + 1, i + 1) / period as real)
  {
    sma := MovingAverage(Lift(Closes(data)), period);
    forall i | period - 1 <= i < |data|
      ensures sma[i] == Some(Sum(Closes(data), i - period + 1, i + 1) / period as real)
    {
      WindowSumLift(Closes(data), i - period + 1, i + 1);
    }
  }

  // ---------------------------------------------------------------- EMA

  function Multiplier(period: int): real
    requires period >= 1
  {
    2.0 / (period + 1) as real
  }

  /** One EMA step: move the fraction `m` of the way from `prev` towards `close`. */
  function EmaStep(close: real, prev: real, m: real): real {
    (close - prev) * m + prev
  }

  /** The EMA recurrence, seeded with the mean of the first `period` closes. */
  function EmaValue(c: seq<real>, period: int, i: int): real
    requires 1 <= period && period - 1 <= i < |c|
    decreases i
  {
    if i == period - 1 then Sum(c, 0, period) / period as real
    else EmaStep(c[i], EmaValue(c, period, i - 1), Multiplier(period))
  }

  function EmaAt(c: seq<real>, period: int, i: int): Double
    requires 1 <= period && 0 <= i < |c|
  {
    if i < period - 1 then None else Some(EmaValue(c, period, i))
  }

  method CalculateEMA(data: seq<StockData>, period: int) returns (ema: seq<Double>)
    requires 1 <= period <= |data|
    ensures |ema| == |data|
    ensures forall i :: 0 <= i < |data| ==> ema[i] == EmaAt(Closes(data), period, i)
  {
    ghost var c := Closes(data);
    var a := new Double[|data|];
    var multiplier := Multiplier(period);
    var sum := 0.0;
    for i := 0 to period
      invariant sum == Sum(c, 0, i)
    {
      sum := sum + data[i].close;
    }
    a[period - 1] := Some(sum / period as real);
    for i := period to |data|
      modifies a
      invariant forall k {:trigger a[k]} :: period - 1 <= k < i ==> a[k] == Some(EmaValue(c, period, k))
    {
      a[i] := Some(EmaStep(data[i].close, a[i - 1].value, multiplier));
    }
    for i := 0 to period - 1
      modifies a
      invariant forall k {:trigger a[k]} :: 0 <= k < i ==> a[k] == None
      invariant forall k {:trigger a[k]} :: period - 1 <= k < |data| ==> a[k] == Some(EmaValue(c, period, k))
    {
      a[i] := None;
    }
    ema := a[..];
  }

  /** The EMA weight lies in (0, 1] for every positive period. */
  lemma MultiplierInRange(period: int)
    requires period >= 1
    ensures 0.0 < Multiplier(period) <= 1.0
  {
  }

  /** Moving a fraction `m` in (0, 1] from `p` towards `x` stays between the two. */
  lemma BlendBetween(x: real, p: real, m: real)
    requires 0.0 < m <= 1.0
    ensures MinReal(x, p) <= (x - p) * m + p <= MaxReal(x, p)
  {
    var d := x - p;
    var k := 1.0 - m;
    if d >= 0.0 {
      ProductSign(d, m);
      ProductSign(d, k);
      assert d * k == d - d * m;
    } else {
      ProductSign(-d, m);
      ProductSign(-d, k);
      assert (-d) * m == -(d * m);
      assert (-d) * k == d * m - d;
    }
  }

  /** Each EMA value after the seed lies between that bar's close and the previous EMA. */
  lemma EmaBetweenCloseAndPrevious(c: seq<real>, period: int, i: int)
    requires 1 <= period <= i < |c|
    ensures MinReal(c[i], EmaValue(c, period, i - 1)) <= EmaValue(c, period, i)
                                                      <= MaxReal(c[i], EmaValue(c, period, i - 1))
  {
    MultiplierInRange(period);
    BlendBetween(c[i], EmaValue(c, period, i - 1), Multiplier(period));
  }

  // ---------------------------------------------------------------- RSI

  function Gain(c: seq<real>, i: int): real
    requires 1 <= i < |c|
  {
    var change := c[i] - c[i - 1];
    if change > 0.0 then change else 0.0
  }

  function Loss(c: seq<real>, i: int): real
    requires 1 <= i < |c|
  {
    var change := c[i] - c[i - 1];
    if change < 0.0 then -change else 0.0
  }

  /** Per-bar gains and losses are non-negative, at most one is non-zero, and they recover the change. */
  lemma GainLossSplit(c: seq<real>, i: int)
    requires 1 <= i < |c|
    ensures 0.0 <= Gain(c, i) && 0.0 <= Loss(c, i)
    ensures Gain(c, i) == 0.0 || Loss(c, i) == 0.0
    ensures Gain(c, i) - Loss(c, i) == c[i] - c[i - 1]
  {
  }

  /** The `gains[]` array: zero at index 0, never negative. */
  function Gains(c: seq<real>): (g: seq<real>)
    ensures |g| == |c| && (|c| > 0 ==> g[0] == 0.0)
    ensures forall i :: 0 <= i < |c| ==> g[i] >= 0.0
  {
    seq(|c|, i requires 0 <= i < |c| => if i == 0 then 0.0 else Gain(c, i))
  }

  /** The `losses[]` array: zero at index 0, never negative. */
  function Losses(c: seq<real>): (l: seq<real>)
    ensures |l| == |c| && (|c| > 0 ==> l[0] == 0.0)
    ensures forall i :: 0 <= i < |c| ==> l[i] >= 0.0
  {
    seq(|c|, i requires 0 <= i < |c| => if i == 0 then 0.0 else Loss(c, i))
  }

  lemma {:induction false} SumNonNegative(s: seq<real>, lo: int, hi: int)
    requires 0 <= lo <= hi <= |s|
    requires forall k :: lo <= k < hi ==> s[k] >= 0.0
    ensures Sum(s, lo, hi) >= 0.0
    decreases hi - lo
  {
    if lo < hi {
      SumNonNegative(s, lo, hi - 1);
    }
  }

  /** Wilder's smoothing step: the previous average weighted `period - 1` against the new term. */
  function Smooth(prev: real, term: real, period: int): real
    requires period >= 1
  {
    (prev * (period - 1) as real + term) / period as real
  }

  /** A smoothing step keeps averages of non-negative terms non-negative. */
  lemma SmoothNonNegative(prev: real, term: real, period: int)
    requires period >= 1 && prev >= 0.0 && term >= 0.0
    ensures Smooth(prev, term, period) >= 0.0
  {
    assert prev * (period - 1) as real >= 0.0;
  }

  /** Wilder-smoothed average gain after bar `i`. */
  function AvgGain(c: seq<real>, period: int, i: int): (r: real)
    requires 1 <= period <= i < |c|
    ensures r >= 0.0
    decreases i
  {
    if i == period then
      SumNonNegative(Gains(c), 1, period + 1);
      Sum(Gains(c), 1, period + 1) / period as real
    else
      SmoothNonNegative(AvgGain(c, period, i - 1), Gains(c)[i], period);
      Smooth(AvgGain(c, period, i - 1), Gains(c)[i], period)
  }

  /** Wilder-smoothed average loss after bar `i`. */
  function AvgLoss(c: seq<real>, period: int, i: int): (r: real)
    requires 1 <= period <= i < |c|
    ensures r >= 0.0
    decreases i
  {
    if i == period then
      SumNonNegative(Losses(c), 1, period + 1);
      Sum(Losses(c), 1, period + 1) / period as real
    else
      SmoothNonNegative(AvgLoss(c, period, i - 1), Losses(c)[i], period);
      Smooth(AvgLoss(c, period, i - 1), Losses(c)[i], period)
  }

  /** RSI from the two averages, with the zero-loss fallbacks. */
  function RsiValue(avgGain: real, avgLoss: real): real
    requires avgGain >= 0.0 && avgLoss >= 0.0
  {
    if avgLoss == 0.0 then (if avgGain == 0.0 then 50.0 else 100.0)
    else 100.0 - 100.0 / (1.0 + avgGain / avgLoss)
  }

  function RsiAt(c: seq<real>, period: int, i: int): Double
    requires 1 <= period < |c| && 0 <= i < |c|
  {
    if i <= period then None else Some(RsiValue(AvgGain(c, period, i), AvgLoss(c, period, i)))
  }

  /** The first loop of `calculateRSI`: per-bar gains and losses, index 0 left at zero. */
  method PriceChanges(data: seq<StockData>) returns (gains: seq<real>, losses: seq<real>)
    ensures gains == Gains(Closes(data)) && losses == Losses(Closes(data))
  {
    ghost var c := Closes(data);
    var g := new real[|data|](_ => 0.0);
    var l := new real[|data|](_ => 0.0);
    var i := 1;
    while i < |data|
      modifies g, l
      invariant 1 <= i <= |data| || |data| == 0
      invariant forall k {:trigger g[k]} :: 0 <= k < |data| ==> g[k] == if 1 <= k < i then Gain(c, k) else 0.0
      invariant forall k {:trigger l[k]} :: 0 <= k < |data| ==> l[k] == if 1 <= k < i then Loss(c, k) else 0.0
    {
      var change := data[i].close - data[i - 1].close;
      g[i] := if change > 0.0 then change else 0.0;
      l[i] := if change < 0.0 then -change else 0.0;
      i := i + 1;
    }
    gains, losses := g[..], l[..];
  }

  function Filled<T>(n: nat, x: T): (s: seq<T>)
    ensures |s| == n
  {
    seq(n, _ => x)
  }

  /** The second loop of `calculateRSI`: plain means of the first `period` gains and losses. */
  method SeedAverages(gains: seq<real>, losses: seq<real>, period: int) returns (avgGain: real, avgLoss: real)
    requires 1 <= period < |gains| && period < |losses|
    ensures avgGain == Sum(gains, 1, period + 1) / period as real
    ensures avgLoss == Sum(losses, 1, period + 1) / period as real
  {
    avgGain, avgLoss := 0.0, 0.0;
    for i := 1 to period + 1
      invariant avgGain == Sum(gains, 1, i) && avgLoss == Sum(losses, 1, i)
    {
      avgGain := avgGain + gains[i];
      avgLoss := avgLoss + losses[i];
    }
    avgGain := avgGain / period as real;
    avgLoss := avgLoss / period as real;
  }

  /** The third loop of `calculateRSI`: Wilder smoothing from the seed averages, one RSI value per bar after `period`. */
  method SmoothedRsi(data: seq<StockData>, period: int, gains: seq<real>, losses: seq<real>,
                     seedGain: real, seedLoss: real, r0: seq<Double>) returns (r: seq<Double>)
    requires 1 <= period < |data| && |r0| == |data|
    requires gains == Gains(Closes(data)) && losses == Losses(Closes(data))
    requires seedGain == AvgGain(Closes(data), period, period) && seedLoss == AvgLoss(Closes(data), period, period)
    ensures |r| == |data|
    ensures forall k :: 0 <= k <= period ==> r[k] == r0[k]
    ensures forall k :: period + 1 <= k < |data| ==> r[k] == RsiAt(Closes(data), period, k)
  {
    ghost var c := Closes(data);
    var avgGain, avgLoss := seedGain, seedLoss;
    r := r0;
    for i := period + 1 to |data|
      invariant |r| == |data|
      invariant avgGain == AvgGain(c, period, i - 1) && avgLoss == AvgLoss(c, period, i - 1)
      invariant forall k :: 0 <= k <= period ==> r[k] == r0[k]
      invariant forall k :: period + 1 <= k < i ==> r[k] == RsiAt(c, period, k)
    {
      avgGain := Smooth(avgGain, gains[i], period);
      avgLoss := Smooth(avgLoss, losses[i], period);
      assert avgGain == AvgGain(c, period, i) && avgLoss == AvgLoss(c, period, i);
      r := r[i := Some(RsiValue(avgGain, avgLoss))];
    }
  }

  method CalculateRSI(data: seq<StockData>, period: int) returns (rsi: seq<Double>)
    requires 1 <= period < |data|
    ensures |rsi| == |data|
    ensures forall i :: 0 <= i < |data| ==> rsi[i] == RsiAt(Closes(data), period, i)
  {
    var n := |data|;
    var r: seq<Double> := Filled(n, Some(0.0));
    var gains, losses := PriceChanges(data);
    var avgGain, avgLoss := SeedAverages(gains, losses, period);
    r := SmoothedRsi(data, period, gains, losses, avgGain, avgLoss, r);
    ghost var computed := r;
    for i := 0 to period + 1
      invariant |r| == n
      invariant forall k :: 0 <= k < i ==> r[k] == None
      invariant forall k :: period + 1 <= k < n ==> r[k] == computed[k]
    {
      r := r[i := None];
    }
    rsi := r;
  }

  /** RSI always lies in [0, 100]. */
  lemma RsiInRange(avgGain: real, avgLoss: real)
    requires avgGain >= 0.0 && avgLoss >= 0.0
    ensures 0.0 <= RsiValue(avgGain, avgLoss) <= 100.0
  {
    if avgLoss != 0.0 {
      var rs := avgGain / avgLoss;
      assert rs >= 0.0;
      assert 0.0 < 100.0 / (1.0 + rs) <= 100.0;
    }
  }

  /** RSI is exactly 100 when there are gains and no losses, and only then. */
  lemma RsiHundredExactly(avgGain: real, avgLoss: real)
    requires avgGain >= 0.0 && avgLoss >= 0.0
    ensures RsiValue(avgGain, avgLoss) == 100.0 <==> avgLoss == 0.0 && avgGain > 0.0
  {
    if avgLoss != 0.0 {
      var rs := avgGain / avgLoss;
      assert rs >= 0.0;
      assert 100.0 / (1.0 + rs) > 0.0;
    }
  }

  /** Every defined RSI value of a series lies in [0, 100]; the warm-up is exactly 0..period. */
  lemma RsiSeriesInRange(c: seq<real>, period: int, i: int)
    requires 1 <= period < |c| && 0 <= i < |c|
    ensures RsiAt(c, period, i).None? <==> i <= period
    ensures RsiAt(c, period, i).Some? ==> 0.0 <= RsiAt(c, period, i).value <= 100.0
  {
    if i > period {
      RsiInRange(AvgGain(c, period, i), AvgLoss(c, period, i));
    }
  }

  // ---------------------------------------------------------------- MACD

  /** The signal line of an indicator defined from index `start` on is defined from `start + period - 1` on. */
  lemma SmaOfSuffixDefined(s: seq<Double>, start: int, period: int, i: int)
    requires period >= 1 && 0 <= i < |s| && start >= 0
    requires forall k :: 0 <= k < |s| ==> (s[k].Some? <==> k >= start)
    ensures SmaAt(s, period, i).Some? <==> i >= start + period - 1
  {
    if i >= period - 1 {
      WindowSumDefined(s, i - period + 1, i + 1);
      if i < start + period - 1 {
        assert s[i - period + 1].None?;
      }
    }
  }

  method CalculateMACD(data: seq<StockData>, fast: int, slow: int, signal: int) returns (r: MACDResult)
    requires 1 <= fast <= |data| && 1 <= slow <= |data| && signal >= 1
    ensures |r.macdLine| == |data| && |r.signalLine| == |data| && |r.histogram| == |data|
    ensures forall i :: 0 <= i < |data| ==>
              r.macdLine[i] == Minus(EmaAt(Closes(data), fast, i), EmaAt(Closes(data), slow, i))
    ensures forall i :: 0 <= i < |data| ==> (r.macdLine[i].Some? <==> i >= Max(fast, slow) - 1)
    ensures forall i :: 0 <= i < |data| ==> r.signalLine[i] == SmaAt(r.macdLine, signal, i)
    ensures forall i :: 0 <= i < |data| ==> (r.signalLine[i].Some? <==> i >= Max(fast, slow) + signal - 2)
    ensures forall i :: 0 <= i < |data| ==> r.histogram[i] == Minus(r.macdLine[i], r.signalLine[i])
    ensures forall i :: 0 <= i < |data| ==> (r.histogram[i].Some? <==> r.signalLine[i].Some?)
  {
    var ema12 := CalculateEMA(data, fast);
    var ema26 := CalculateEMA(data, slow);
    var macd := new Double[|data|];
    for i := 0 to |data|
      invariant forall k {:trigger macd[k]} :: 0 <= k < i ==> macd[k] == Minus(ema12[k], ema26[k])
    {
      if ema12[i].None? || ema26[i].None? {
        macd[i] := None;
      } else {
        macd[i] := Some(ema12[i].value - ema26[i].value);
      }
    }
    var macdLine := macd[..];
    var signalLine := MovingAverage(macdLine, signal);
    forall i | 0 <= i < |data|
      ensures signalLine[i].Some? <==> i >= Max(fast, slow) + signal - 2
    {
      SmaOfSuffixDefined(macdLine, Max(fast, slow) - 1, signal, i);
    }
    var hist := new Double[|data|];
    for i := 0 to |data|
      invariant forall k {:trigger hist[k]} :: 0 <= k < i ==> hist[k] == Minus(macdLine[k], signalLine[k])
    {
      if macdLine[i].None? || signalLine[i].None? {
        hist[i] := None;
      } else {
        hist[i] := Some(macdLine[i].value - signalLine[i].value);
      }
    }
    r := MACDResult(macdLine, signalLine, hist[..]);
  }

  // ---------------------------------------------------------------- Bollinger bands

  /** Sum of squared deviations of `c[lo..hi]` from `mean`. */
  function SquaredDeviations(c: seq<real>, lo: int, hi: int, mean: real): real
    requires 0 <= lo <= hi <= |c|
    decreases hi - lo
  {
    if lo == hi then 0.0 else SquaredDeviations(c, lo, hi - 1, mean) + (c[hi - 1] - mean) * (c[hi - 1] - mean)
  }

  /** The mean of the `period` closes ending at `i`. */
  function WindowMean(c: seq<real>, period: int, i: int): real
    requires 1 <= period && period - 1 <= i < |c|
  {
    Sum(c, i - period + 1, i + 1) / period as real
  }

  /** `k` times the (abstract) square root of the window's variance. */
  function BandWidth(c: seq<real>, period: int, i: int, k: real, sqrt: real -> real): real
    requires 1 <= period && period - 1 <= i < |c|
  {
    sqrt(SquaredDeviations(c, i - period + 1, i + 1, WindowMean(c, period, i)) / period as real) * k
  }

  /** `sqrt` maps non-negative arguments to non-negative results, as `Math.sqrt` does. */
  ghost predicate NonNegativeRoot(sqrt: real -> real) {
    forall x :: 0.0 <= x ==> 0.0 <= sqrt(x)
  }

  /** The inner loop of `calculateBollingerBands`: squared deviations of the closes in `[lo, hi)`. */
  method SumSquaredDeviations(data: seq<StockData>, lo: int, hi: int, mean: real) returns (sum: real)
    requires 0 <= lo <= hi <= |data|
    ensures sum == SquaredDeviations(Closes(data), lo, hi, mean)
  {
    ghost var c := Closes(data);
    sum := 0.0;
    for j := lo to hi
      invariant sum == SquaredDeviations(c, lo, j, mean)
    {
      sum := sum + (data[j].close - mean) * (data[j].close - mean);
    }
  }

  /** `Math.sqrt` is the parameter `sqrt`. */
  method CalculateBollingerBands(data: seq<StockData>, period: int, stdDevMultiplier: real, sqrt: real -> real)
    returns (bb: BollingerBands)
    requires 1 <= period <= |data| + 1
    ensures |bb.middle| == |data| && |bb.upper| == |data| && |bb.lower| == |data|
    ensures forall i :: 0 <= i < |data| && i < period - 1 ==>
              bb.middle[i].None? && bb.upper[i].None? && bb.lower[i].None?
    ensures forall i :: period - 1 <= i < |data| ==>
              bb.middle[i] == Some(WindowMean(Closes(data), period, i)) &&
              bb.upper[i] == Some(WindowMean(Closes(data), period, i) + BandWidth(Closes(data), period, i, stdDevMultiplier, sqrt)) &&
              bb.lower[i] == Some(WindowMean(Closes(data), period, i) - BandWidth(Closes(data), period, i, stdDevMultiplier, sqrt))
  {
    ghost var c := Closes(data);
    var middle := CalculateSMA(data, period);
    var upper: seq<Double> := Filled(|data|, Some(0.0));
    var lower: seq<Double> := Filled(|data|, Some(0.0));
    for i := period - 1 to |data|
      invariant |upper| == |data| && |lower| == |data|
      invariant forall k :: period - 1 <= k < i ==>
                  upper[k] == Some(WindowMean(c, period, k) + BandWidth(c, period, k, stdDevMultiplier, sqrt)) &&
                  lower[k] == Some(WindowMean(c, period, k) - BandWidth(c, period, k, stdDevMultiplier, sqrt))
    {
      var mean := middle[i].value;
      var sum := SumSquaredDeviations(data, i - period + 1, i + 1, mean);
      var stdDev := sqrt(sum / period as real);
      assert stdDev * stdDevMultiplier == BandWidth(c, period, i, stdDevMultiplier, sqrt);
      upper := upper[i := Some(mean + stdDev * stdDevMultiplier)];
      lower := lower[i := Some(mean - stdDev * stdDevMultiplier)];
    }
    ghost var m0, u0, l0 := middle, upper, lower;
    for i := 0 to period - 1
      invariant |middle| == |data| && |upper| == |data| && |lower| == |data|
      invariant forall k :: 0 <= k < i ==> middle[k].None? && upper[k].None? && lower[k].None?
      invariant forall k :: period - 1 <= k < |data| ==> middle[k] == m0[k] && upper[k] == u0[k] && lower[k] == l0[k]
    {
      middle := middle[i := None];
      upper := upper[i := None];
      lower := lower[i := None];
    }
    bb := BollingerBands(middle, upper, lower);
  }

  lemma {:induction false} SquaredDeviationsNonNegative(c: seq<real>, lo: int, hi: int, mean: real)
    requires 0 <= lo <= hi <= |c|
    ensures SquaredDeviations(c, lo, hi, mean) >= 0.0
    decreases hi - lo
  {
    if lo < hi {
      SquaredDeviationsNonNegative(c, lo, hi - 1, mean);
      var d := c[hi - 1] - mean;
      assert d * d >= 0.0;
    }
  }

  /**
   * With a non-negative multiplier and a non-negative root the bands are
   * ordered lower <= middle <= upper.
   */
  lemma BandsOrdered(c: seq<real>, period: int, i: int, k: real, sqrt: real -> real)
    requires 1 <= period && period - 1 <= i < |c|
    ensures NonNegativeRoot(sqrt) && k >= 0.0 ==>
              WindowMean(c, period, i) - BandWidth(c, period, i, k, sqrt)
                <= WindowMean(c, period, i)
                <= WindowMean(c, period, i) + BandWidth(c, period, i, k, sqrt)
  {
    var m := WindowMean(c, period, i);
    SquaredDeviationsNonNegative(c, i - period + 1, i + 1, m);
    if NonNegativeRoot(sqrt) && k >= 0.0 {
      var v := SquaredDeviations(c, i - period + 1, i + 1, m) / period as real;
      assert v >= 0.0;
      assert sqrt(v) >= 0.0;
      assert sqrt(v) * k >= 0.0;
    }
  }
}
