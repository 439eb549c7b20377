/**
 * The historical-analogue backtest: for the current bar, scan up to 100
 * earlier bars (never the 10 most recent) for a similar market state, count
 * how often the move after such a state reached 5% in the signal's
 * direction within 1, 3, 5 or 10 bars, and map the success rate to a
 * confidence multiplier. A divisor that is zero gives an infinity or NaN as
 * in Java (`Doubles.Extended`).
 */
module BacktestValidator {
  import opened Wrappers
  import opened Doubles
  import opened Stocks
  import opened TechnicalIndicators

  // ---------------------------------------------------------------- IEEE quotients

  /** `Math.abs(x - y) > c` for two indicator values: false when either is NaN. */
  predicate DiffAbove(x: Double, y: Double, c: real) {
    x.Some? && y.Some? && Abs(x.value - y.value) > c
  }

  /** `(double) num / den >= c` for a positive bound `c`: a zero `den` passes only as +infinity. */
  predicate QuotientAtLeast(num: real, den: real, c: real)
    requires c > 0.0
  {
    if den == 0.0 then num > 0.0 else num / den >= c
  }

  // ---------------------------------------------------------------- data

  /** The series the backtest reads, index-aligned with `data`. */
  datatype History = History(data: seq<StockData>, sma20: seq<Double>, sma50: seq<Double>, rsi: seq<Double>, adx: ADXResult)
  {
    /** Every series has a value at `idx`. */
    predicate Covers(idx: int) {
      0 <= idx < |data| && idx < |sma20| && idx < |sma50| && idx < |rsi| && idx < |adx.adx|
    }
  }

  /** One analogue: where it was, whether it succeeded, its close and its largest favourable move. */
  datatype Example = Example(index: int, successful: bool, close: real, maxMove: Extended)

  /** The `reason` of a backtest: two fixed texts, and the summary whose format string is filled from the result's fields and the signal. */
  datatype Reason = InsufficientHistory | NoSimilarSignal | Summary
  {
    function Text(): string {
      match this
      case InsufficientHistory => "Yetersiz geçmiş veri"
      case NoSimilarSignal => "Benzer geçmiş sinyal bulunamadı"
      case Summary => "Son 100 günde %d benzer %s sinyali, %d başarılı (%.0f%%)"
    }
  }

  datatype BacktestResult = BacktestResult(
    totalSignals: nat,
    successfulSignals: nat,
    successRate: real,
    reason: Reason,
    examples: seq<Example>)

  /** A move of at least 5% counts as success. */
  const SuccessThreshold: real := 0.05

  /** The horizons, in bars after the signal, at which the target is checked. */
  const Horizons: seq<nat> := [1, 3, 5, 10]

  // ---------------------------------------------------------------- market similarity

  /** Close relative to SMA20, `(close - sma20) / sma20`. */
  function PricePosition(h: History, idx: int): Extended
    requires h.Covers(idx)
  {
    var m := h.sma20[idx];
    Quotient(h.data[idx].close - (if m.Some? then m.value else 0.0), m)
  }

  /** SMA20 above SMA50; false when either is NaN. */
  predicate Uptrend(h: History, idx: int)
    requires h.Covers(idx)
  {
    Less(h.sma50[idx], h.sma20[idx])
  }

  /** `isSimilarMarketCondition`: RSI and ADX within 15, same trend, price positions within 5 points. */
  predicate Similar(h: History, pastIdx: int, currentIdx: int)
    requires h.Covers(pastIdx) && h.Covers(currentIdx)
  {
    && !DiffAbove(h.rsi[pastIdx], h.rsi[currentIdx], 15.0)
    && !DiffAbove(h.adx.adx[pastIdx], h.adx.adx[currentIdx], 15.0)
    && Uptrend(h, pastIdx) == Uptrend(h, currentIdx)
    && !AbsAbove(Difference(PricePosition(h, pastIdx), PricePosition(h, currentIdx)), 0.05)
  }

  // ---------------------------------------------------------------- target reached

  /** `max(entry, high[lo..hi])`. */
  function MaxHigh(data: seq<StockData>, entry: real, lo: int, hi: int): real
    requires 0 <= lo <= hi <= |data|
    decreases hi - lo
  {
    if lo == hi then entry else MaxReal(MaxHigh(data, entry, lo, hi - 1), data[hi - 1].high)
  }

  /** `min(entry, low[lo..hi])`. */
  function MinLow(data: seq<StockData>, entry: real, lo: int, hi: int): real
    requires 0 <= lo <= hi <= |data|
    decreases hi - lo
  {
    if lo == hi then entry else MinReal(MinLow(data, entry, lo, hi - 1), data[hi - 1].low)
  }

  /** The target of a BUY (a 5% gain of the highest high) or SELL (a 5% fall of the lowest low) is met within `period` bars. */
  predicate ReachedAt(data: seq<StockData>, s: int, signal: string, period: nat)
    requires 0 <= s < |data|
  {
    var entry := data[s].close;
    s + period < |data|
    && ((signal == "BUY" && QuotientAtLeast(MaxHigh(data, entry, s + 1, s + period + 1) - entry, entry, SuccessThreshold))
        || (signal == "SELL" && QuotientAtLeast(entry - MinLow(data, entry, s + 1, s + period + 1), entry, SuccessThreshold)))
  }

  /** `checkIfTargetReached`: the target is met at one of the horizons that fit in the data. */
  predicate TargetReached(data: seq<StockData>, s: int, signal: string)
    requires 0 <= s < |data|
  {
    exists j :: 0 <= j < |Horizons| && ReachedAt(data, s, signal, Horizons[j])
  }

  method CheckIfTargetReached(data: seq<StockData>, signalIdx: int, signal: string) returns (b: bool)
    requires 0 <= signalIdx < |data|
    ensures b == TargetReached(data, signalIdx, signal)
  {
    var entryPrice := data[signalIdx].close;
    for k := 0 to |Horizons|
      invariant forall j :: 0 <= j < k ==> !ReachedAt(data, signalIdx, signal, Horizons[j])
    {
      var checkIdx := signalIdx + Horizons[k];
      if checkIdx < |data| {
        var maxPrice, minPrice := entryPrice, entryPrice;
        var i := signalIdx + 1;
        while i <= checkIdx && i < |data|
          invariant signalIdx + 1 <= i <= checkIdx + 1
          invariant maxPrice == MaxHigh(data, entryPrice, signalIdx + 1, i)
          invariant minPrice == MinLow(data, entryPrice, signalIdx + 1, i)
          decreases checkIdx - i
        {
          maxPrice := MaxReal(maxPrice, data[i].high);
          minPrice := MinReal(minPrice, data[i].low);
          i := i + 1;
        }
        if signal == "BUY" && QuotientAtLeast(maxPrice - entryPrice, entryPrice, SuccessThreshold) {
          assert ReachedAt(data, signalIdx, signal, Horizons[k]);
          return true;
        }
        if signal == "SELL" && QuotientAtLeast(entryPrice - minPrice, entryPrice, SuccessThreshold) {
          assert ReachedAt(data, signalIdx, signal, Horizons[k]);
          return true;
        }
      }
    }
    return false;
  }

  // ---------------------------------------------------------------- maximum move

  /** The move of bar `i` after a signal at `s`: the gain to its high for BUY, the fall to its low for anything else. */
  function Move(data: seq<StockData>, s: int, signal: string, i: int): Extended
    requires 0 <= s < |data| && 0 <= i < |data|
  {
    var entry := data[s].close;
    if signal == "BUY" then Quotient(data[i].high - entry, Some(entry))
    else Quotient(entry - data[i].low, Some(entry))
  }

  /** `max(0, moves of bars s+1 .. hi-1)`. */
  function MoveUpTo(data: seq<StockData>, s: int, signal: string, hi: int): Extended
    requires 0 <= s < |data| && s + 1 <= hi <= |data|
    decreases hi
  {
    if hi == s + 1 then Finite(0.0) else MaxExt(MoveUpTo(data, s, signal, hi - 1), Move(data, s, signal, hi - 1))
  }

  /** `calculateMaxMove`: the largest move over the 10 bars after the signal that exist. */
  function MaxMove(data: seq<StockData>, s: int, signal: string): Extended
    requires 0 <= s < |data|
  {
    MoveUpTo(data, s, signal, Min(s + 11, |data|))
  }

  method CalculateMaxMove(data: seq<StockData>, signalIdx: int, signal: string) returns (maxMove: Extended)
    requires 0 <= signalIdx < |data|
    ensures maxMove == MaxMove(data, signalIdx, signal)
  {
    var entryPrice := data[signalIdx].close;
    maxMove := Finite(0.0);
    var i := signalIdx + 1;
    while i < Min(signalIdx + 11, |data|)
      invariant signalIdx + 1 <= i <= Min(signalIdx + 11, |data|)
      invariant maxMove == MoveUpTo(data, signalIdx, signal, i)
    {
      if signal == "BUY" {
        var gain := Quotient(data[i].high - entryPrice, Some(entryPrice));
        maxMove := MaxExt(maxMove, gain);
      } else {
        var loss := Quotient(entryPrice - data[i].low, Some(entryPrice));
        maxMove := MaxExt(maxMove, loss);
      }
      i := i + 1;
    }
  }

  // ---------------------------------------------------------------- the scan

  /** The first index the scan examines: `currentIdx - min(100, currentIdx - 20)`. */
  function WindowStart(currentIdx: int): int {
    currentIdx - Min(100, currentIdx - 20)
  }

  /** The analogue an index yields. */
  function ExampleAt(signal: string, h: History, i: int): Example
    requires 0 <= i < |h.data|
  {
    Example(i, TargetReached(h.data, i, signal), h.data[i].close, MaxMove(h.data, i, signal))
  }

  /** The analogues in `[lo, hi)`, in chronological order: one per index similar to the current bar. */
  function Analogues(signal: string, h: History, currentIdx: int, lo: int, hi: int): seq<Example>
    requires h.Covers(currentIdx) && 0 <= lo <= hi <= currentIdx
    decreases hi - lo
  {
    if lo == hi then []
    else Analogues(signal, h, currentIdx, lo, hi - 1)
         + (if Similar(h, hi - 1, currentIdx) then [ExampleAt(signal, h, hi - 1)] else [])
  }

  /** The analogues of the whole scan window. */
  function AllAnalogues(signal: string, h: History, currentIdx: int): seq<Example>
    requires currentIdx >= 60 && h.Covers(currentIdx)
  {
    Analogues(signal, h, currentIdx, WindowStart(currentIdx), currentIdx - 10)
  }

  /** How many of the analogues succeeded. */
  function Successes(m: seq<Example>): nat {
    if |m| == 0 then 0 else Successes(m[..|m| - 1]) + (if m[|m| - 1].successful then 1 else 0)
  }

  /** The first (up to) three analogues. */
  function FirstThree(m: seq<Example>): seq<Example> {
    m[..Min(3, |m|)]
  }

  /** The examples list after one more analogue: kept while fewer than three are held. */
  lemma FirstThreeStep(m: seq<Example>, e: Example)
    ensures FirstThree(m + [e]) == if |m| < 3 then m + [e] else FirstThree(m)
  {
    if |m| >= 3 {
      assert (m + [e])[..3] == m[..3];
    }
  }

  lemma SuccessesStep(m: seq<Example>, e: Example)
    ensures Successes(m + [e]) == Successes(m) + (if e.successful then 1 else 0)
  {
    assert (m + [e])[..|m|] == m;
  }

  /** The counters after one more index: the analogue list grows by the analogue at `i`, if any. */
  lemma AnalogueStep(signal: string, h: History, currentIdx: int, lo: int, i: int)
    requires h.Covers(currentIdx) && 0 <= lo <= i < currentIdx
    ensures var m := Analogues(signal, h, currentIdx, lo, i);
            var e := if Similar(h, i, currentIdx) then [ExampleAt(signal, h, i)] else [];
            var n := Analogues(signal, h, currentIdx, lo, i + 1);
            && |n| == |m| + |e|
            && Successes(n) == Successes(m) + Successes(e)
            && FirstThree(n) == if |FirstThree(m)| < 3 then FirstThree(m) + e else FirstThree(m)
  {
    var m := Analogues(signal, h, currentIdx, lo, i);
    if Similar(h, i, currentIdx) {
      var e := ExampleAt(signal, h, i);
      FirstThreeStep(m, e);
      SuccessesStep(m, e);
      assert Successes([e]) == Successes([e][..0]) + (if e.successful then 1 else 0);
    } else {
      assert Analogues(signal, h, currentIdx, lo, i + 1) == m;
    }
  }

  /** One iteration of the scan at index `i`: a similar state is counted, its success tallied and, while fewer than three are held, kept as an example. */
  method ScanIndex(signal: string, h: History, currentIdx: int, i: int,
                   total0: nat, successful0: nat, examples0: seq<Example>)
    returns (total: nat, successful: nat, examples: seq<Example>)
    requires h.Covers(currentIdx) && 0 <= i < currentIdx
    ensures var e := if Similar(h, i, currentIdx) then [ExampleAt(signal, h, i)] else [];
            && total == total0 + |e|
            && successful == successful0 + Successes(e)
            && examples == if |examples0| < 3 then examples0 + e else examples0
  {
    total, successful, examples := total0, successful0, examples0;
    if Similar(h, i, currentIdx) {
      total := total + 1;
      var ok := CheckIfTargetReached(h.data, i, signal);
      if ok {
        successful := successful + 1;
      }
      if |examples| < 3 {
        var maxGain := CalculateMaxMove(h.data, i, signal);
        examples := examples + [Example(i, ok, h.data[i].close, maxGain)];
      }
      assert [ExampleAt(signal, h, i)][..0] == [];
    }
  }

  /** What `validateSignalWithBacktest` returns, as a function of its inputs. */
  function Backtest(signal: string, h: History, currentIdx: int): (r: BacktestResult)
    requires currentIdx >= 60 ==> h.Covers(currentIdx)
  {
    if currentIdx < 60 then BacktestResult(0, 0, 0.0, InsufficientHistory, [])
    else
      var m := AllAnalogues(signal, h, currentIdx);
      if |m| > 0 then BacktestResult(|m|, Successes(m), Successes(m) as real / |m| as real, Summary, FirstThree(m))
      else BacktestResult(0, 0, 0.5, NoSimilarSignal, [])
  }

  /** `validateSignalWithBacktest`. */
  method ValidateSignalWithBacktest(signal: string, h: History, currentIdx: int) returns (r: BacktestResult)
    requires currentIdx >= 60 ==> h.Covers(currentIdx)
    ensures r == Backtest(signal, h, currentIdx)
  {
    if currentIdx < 60 {
      return BacktestResult(0, 0, 0.0, InsufficientHistory, []);
    }
    var lookback := Min(100, currentIdx - 20);
    var start := currentIdx - lookback;
    var total, successful, examples := 0, 0, [];
    for i := start to currentIdx - 10
      invariant total == |Analogues(signal, h, currentIdx, start, i)|
      invariant successful == Successes(Analogues(signal, h, currentIdx, start, i))
      invariant examples == FirstThree(Analogues(signal, h, currentIdx, start, i))
    {
      AnalogueStep(signal, h, currentIdx, start, i);
      if i >= 20 {
        total, successful, examples := ScanIndex(signal, h, currentIdx, i, total, successful, examples);
      }
    }
    if total > 0 {
      r := BacktestResult(total, successful, successful as real / total as real, Summary, examples);
    } else {
      r := BacktestResult(total, successful, 0.5, NoSimilarSignal, examples);
    }
  }

  /** `calculateConfidenceMultiplier`: 0.8 on fewer than three analogues, else a step function of the success rate. */
  function ConfidenceMultiplier(b: BacktestResult): (r: real)
    ensures 0.0 <= r <= 1.0
    ensures b.totalSignals < 3 ==> r == 0.8
    ensures b.totalSignals >= 3 ==> (r == 1.0 <==> b.successRate >= 0.7) && (r == 0.0 <==> b.successRate < 0.3)
  {
    if b.totalSignals < 3 then 0.8
    else if b.successRate >= 0.7 then 1.0
    else if b.successRate >= 0.5 then 0.7
    else if b.successRate >= 0.3 then 0.4
    else 0.0
  }

  // ---------------------------------------------------------------- properties

  /** The scan window lies in `[max(20, currentIdx - 100), currentIdx - 11]`: the `i < 20` skip never fires and the 10 latest bars are never analogues. */
  lemma WindowBounds(currentIdx: int)
    requires currentIdx >= 60
    ensures WindowStart(currentIdx) == Max(20, currentIdx - 100)
    ensures 20 <= WindowStart(currentIdx) < currentIdx - 10
  {
  }

  /** `e` is the analogue of a bar in `[lo, hi)` similar to the current one. */
  predicate IsAnalogue(signal: string, h: History, currentIdx: int, lo: int, hi: int, e: Example)
    requires h.Covers(currentIdx) && 0 <= lo && hi <= currentIdx
  {
    lo <= e.index < hi && Similar(h, e.index, currentIdx) && e == ExampleAt(signal, h, e.index)
  }

  /** Every analogue comes from `[lo, hi)`, in increasing order, and is similar to the current bar. */
  lemma {:induction false} AnaloguesAreSimilar(signal: string, h: History, currentIdx: int, lo: int, hi: int)
    requires h.Covers(currentIdx) && 0 <= lo <= hi <= currentIdx
    ensures forall k :: 0 <= k < |Analogues(signal, h, currentIdx, lo, hi)| ==>
              IsAnalogue(signal, h, currentIdx, lo, hi, Analogues(signal, h, currentIdx, lo, hi)[k])
    ensures forall k, l :: 0 <= k < l < |Analogues(signal, h, currentIdx, lo, hi)| ==>
              Analogues(signal, h, currentIdx, lo, hi)[k].index < Analogues(signal, h, currentIdx, lo, hi)[l].index
    decreases hi - lo
  {
    if lo < hi {
      AnaloguesAreSimilar(signal, h, currentIdx, lo, hi - 1);
      var prev := Analogues(signal, h, currentIdx, lo, hi - 1);
      var m := Analogues(signal, h, currentIdx, lo, hi);
      forall k | 0 <= k < |prev|
        ensures m[k] == prev[k] && IsAnalogue(signal, h, currentIdx, lo, hi, m[k])
      {
        assert IsAnalogue(signal, h, currentIdx, lo, hi - 1, prev[k]);
      }
      if Similar(h, hi - 1, currentIdx) {
        assert m == prev + [ExampleAt(signal, h, hi - 1)];
        assert IsAnalogue(signal, h, currentIdx, lo, hi, m[|prev|]);
      }
    }
  }

  /** Every similar index in `[lo, hi)` yields an analogue. */
  lemma {:induction false} SimilarIsAnalogue(signal: string, h: History, currentIdx: int, lo: int, hi: int, i: int)
    requires h.Covers(currentIdx) && 0 <= lo <= i < hi <= currentIdx
    requires Similar(h, i, currentIdx)
    ensures ExampleAt(signal, h, i) in Analogues(signal, h, currentIdx, lo, hi)
    decreases hi - lo
  {
    if i < hi - 1 {
      SimilarIsAnalogue(signal, h, currentIdx, lo, hi - 1, i);
    }
  }

  /** No more analogues succeed than there are. */
  lemma {:induction false} SuccessesBounded(m: seq<Example>)
    ensures Successes(m) <= |m|
  {
    if |m| > 0 {
      SuccessesBounded(m[..|m| - 1]);
    }
  }

  /**
   * The backtest counts no more successes than analogues, its rate lies in [0, 1], and it holds `min(3, total)`
   * examples. Before bar 60 nothing is counted and the rate keeps its default 0; a scan that finds no analogue
   * reports the neutral rate 0.5; otherwise the rate is the share of successes.
   */
  lemma ResultBounds(signal: string, h: History, currentIdx: int)
    requires currentIdx >= 60 ==> h.Covers(currentIdx)
    ensures var r := Backtest(signal, h, currentIdx);
            && r.successfulSignals <= r.totalSignals
            && 0.0 <= r.successRate <= 1.0
            && |r.examples| == Min(3, r.totalSignals)
            && (currentIdx < 60 ==> r.totalSignals == 0 && r.successRate == 0.0 && r.reason == InsufficientHistory)
            && (currentIdx >= 60 && r.totalSignals == 0 ==> r.successRate == 0.5 && r.reason == NoSimilarSignal)
            && (r.totalSignals > 0 ==>
                  r.successRate == r.successfulSignals as real / r.totalSignals as real && r.reason == Summary)
  {
    if currentIdx >= 60 {
      SuccessesBounded(AllAnalogues(signal, h, currentIdx));
    }
  }

  /** Similarity does not depend on which of the two bars is the current one. */
  lemma SimilarSymmetric(h: History, i: int, j: int)
    requires h.Covers(i) && h.Covers(j)
    ensures Similar(h, i, j) == Similar(h, j, i)
  {
  }

  /** With defined indicator values and non-zero SMA20, similarity is the four plain bounds. */
  lemma SimilarDefined(h: History, i: int, j: int)
    requires h.Covers(i) && h.Covers(j)
    requires h.rsi[i].Some? && h.rsi[j].Some? && h.adx.adx[i].Some? && h.adx.adx[j].Some?
    requires h.sma20[i].Some? && h.sma20[j].Some? && h.sma20[i].value != 0.0 && h.sma20[j].value != 0.0
    ensures Similar(h, i, j) <==>
              && Abs(h.rsi[i].value - h.rsi[j].value) <= 15.0
              && Abs(h.adx.adx[i].value - h.adx.adx[j].value) <= 15.0
              && Uptrend(h, i) == Uptrend(h, j)
              && Abs((h.data[i].close - h.sma20[i].value) / h.sma20[i].value
                     - (h.data[j].close - h.sma20[j].value) / h.sma20[j].value) <= 0.05
  {
  }

  /** The running maximum over a longer stretch is at least as large. */
  lemma {:induction false} MaxHighGrows(data: seq<StockData>, entry: real, lo: int, h1: int, h2: int)
    requires 0 <= lo <= h1 <= h2 <= |data|
    ensures MaxHigh(data, entry, lo, h1) <= MaxHigh(data, entry, lo, h2)
    decreases h2
  {
    if h1 < h2 {
      MaxHighGrows(data, entry, lo, h1, h2 - 1);
    }
  }

  /** The running minimum over a longer stretch is at most as large. */
  lemma {:induction false} MinLowShrinks(data: seq<StockData>, entry: real, lo: int, h1: int, h2: int)
    requires 0 <= lo <= h1 <= h2 <= |data|
    ensures MinLow(data, entry, lo, h2) <= MinLow(data, entry, lo, h1)
    decreases h2
  {
    if h1 < h2 {
      MinLowShrinks(data, entry, lo, h1, h2 - 1);
    }
  }

  /** The horizons are nested: for a non-negative entry price, a target met within `p1` bars is met within any longer horizon that fits. */
  lemma ReachedAtMonotone(data: seq<StockData>, s: int, signal: string, p1: nat, p2: nat)
    requires 0 <= s < |data| && data[s].close >= 0.0
    requires p1 <= p2 && s + p2 < |data|
    ensures ReachedAt(data, s, signal, p1) ==> ReachedAt(data, s, signal, p2)
  {
    var entry := data[s].close;
    if ReachedAt(data, s, signal, p1) {
      MaxHighGrows(data, entry, s + 1, s + p1 + 1, s + p2 + 1);
      MinLowShrinks(data, entry, s + 1, s + p1 + 1, s + p2 + 1);
      var up1, up2 := MaxHigh(data, entry, s + 1, s + p1 + 1), MaxHigh(data, entry, s + 1, s + p2 + 1);
      var dn1, dn2 := MinLow(data, entry, s + 1, s + p1 + 1), MinLow(data, entry, s + 1, s + p2 + 1);
      if entry > 0.0 {
        QuotientGrows(up1 - entry, up2 - entry, entry);
        QuotientGrows(entry - dn1, entry - dn2, entry);
      }
    }
  }

  /** Division by a positive number keeps order. */
  lemma QuotientGrows(a: real, b: real, d: real)
    requires a <= b && d > 0.0
    ensures a / d <= b / d
  {
    assert b / d - a / d == (b - a) / d;
  }

  /** The longest of the horizons that fit after bar `s`. */
  function LongestHorizon(s: int, n: int): nat
    requires s + 1 < n
  {
    if s + 10 < n then 10 else if s + 5 < n then 5 else if s + 3 < n then 3 else 1
  }

  /** For a non-negative entry price the target is reached exactly when it is reached at the longest horizon that fits; it never is when none fits, nor for a signal other than BUY and SELL. */
  lemma TargetAtLongestHorizon(data: seq<StockData>, s: int, signal: string)
    requires 0 <= s < |data| && data[s].close >= 0.0
    ensures s + 1 >= |data| ==> !TargetReached(data, s, signal)
    ensures signal != "BUY" && signal != "SELL" ==> !TargetReached(data, s, signal)
    ensures s + 1 < |data| ==> (TargetReached(data, s, signal) <==> ReachedAt(data, s, signal, LongestHorizon(s, |data|)))
  {
    if s + 1 < |data| {
      var top := LongestHorizon(s, |data|);
      assert Horizons[0] <= top;
      if TargetReached(data, s, signal) {
        var j :| 0 <= j < |Horizons| && ReachedAt(data, s, signal, Horizons[j]);
        ReachedAtMonotone(data, s, signal, Horizons[j], top);
      }
      if ReachedAt(data, s, signal, top) {
        var j := if top == 10 then 3 else if top == 5 then 2 else if top == 3 then 1 else 0;
        assert Horizons[j] == top;
      }
    }
  }

  /** The largest move is never negative: it starts at 0 and only grows, though a zero entry price can make it infinite or NaN. */
  lemma {:induction false} MoveNotNegative(data: seq<StockData>, s: int, signal: string, hi: int)
    requires 0 <= s < |data| && s + 1 <= hi <= |data|
    ensures var m := MoveUpTo(data, s, signal, hi); m.NaN? || m.PosInf? || (m.Finite? && m.v >= 0.0)
    decreases hi
  {
    if hi > s + 1 {
      MoveNotNegative(data, s, signal, hi - 1);
    }
  }

  /** For a positive entry price and a BUY, the largest move is the gain to the highest high. */
  lemma {:induction false} MoveIsHighestGain(data: seq<StockData>, s: int, hi: int)
    requires 0 <= s < |data| && s + 1 <= hi <= |data| && data[s].close > 0.0
    ensures MoveUpTo(data, s, "BUY", hi) == Finite((MaxHigh(data, data[s].close, s + 1, hi) - data[s].close) / data[s].close)
    decreases hi
  {
    var e := data[s].close;
    if hi > s + 1 {
      MoveIsHighestGain(data, s, hi - 1);
      var m, x := MaxHigh(data, e, s + 1, hi - 1), data[hi - 1].high;
      if m < x {
        QuotientGrows(m - e, x - e, e);
      } else {
        QuotientGrows(x - e, m - e, e);
      }
    }
  }

  /** For a positive entry price and a SELL, the largest move is the fall to the lowest low. */
  lemma {:induction false} MoveIsDeepestFall(data: seq<StockData>, s: int, hi: int)
    requires 0 <= s < |data| && s + 1 <= hi <= |data| && data[s].close > 0.0
    ensures MoveUpTo(data, s, "SELL", hi) == Finite((data[s].close - MinLow(data, data[s].close, s + 1, hi)) / data[s].close)
    decreases hi
  {
    var e := data[s].close;
    if hi > s + 1 {
      MoveIsDeepestFall(data, s, hi - 1);
      var m, x := MinLow(data, e, s + 1, hi - 1), data[hi - 1].low;
      if x < m {
        QuotientGrows(e - m, e - x, e);
      } else {
        QuotientGrows(e - x, e - m, e);
      }
    }
  }

  /** With a positive entry price and ten bars of future, the reported move reaches 5% exactly when the 10-bar target is met. */
  lemma MaxMoveMatchesTarget(data: seq<StockData>, s: int, signal: string)
    requires 0 <= s && s + 10 < |data| && data[s].close > 0.0
    requires signal == "BUY" || signal == "SELL"
    ensures MaxMove(data, s, signal).Finite?
    ensures MaxMove(data, s, signal).v >= SuccessThreshold <==> ReachedAt(data, s, signal, 10)
  {
    if signal == "BUY" {
      MoveIsHighestGain(data, s, s + 11);
    } else {
      MoveIsDeepestFall(data, s, s + 11);
    }
  }

  /** Once three analogues exist, a higher success rate never lowers the multiplier. */
  lemma MultiplierMonotone(b1: BacktestResult, b2: BacktestResult)
    requires b1.totalSignals >= 3 && b2.totalSignals >= 3 && b1.successRate <= b2.successRate
    ensures ConfidenceMultiplier(b1) <= ConfidenceMultiplier(b2)
  {
  }
}
