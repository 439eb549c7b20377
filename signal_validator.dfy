/**
 * The false-signal validator. Ten independent checks on the latest bar each
 * add a fixed penalty and raise one red flag; the summed penalty, capped at
 * 100, is the false score, and a step function of it gives the confidence
 * multiplier. Two pattern predicates (false breakout, stop hunt) stand
 * beside it.
 *
 * Java doubles that callers may leave NaN (ADX and the moving averages) are
 * `Double`s. Divisions that can meet a zero divisor follow IEEE: a zero
 * divisor gives an infinity or NaN, and the comparison then has the value
 * IEEE gives it.
 */
module SignalValidator {
  import opened Wrappers
  import opened Doubles
  import opened Stocks
  import opened TechnicalIndicators

  /** The ten checks, in the order `validateSignalQuality` applies them; each raises one red flag. */
  datatype Penalty =
    | WeakTrend | NoVolumeSupport | SupportResistanceTrap | FarFromSma50 | WickRejection
    | FakeBreakout | NoMomentum | TrendMisaligned | MarketMakerTrap | GapAgainstClose
  {
    /** What the check adds to the false score. */
    function Weight(): nat {
      match this
      case WeakTrend => 35
      case NoVolumeSupport => 28
      case SupportResistanceTrap => 25
      case FarFromSma50 => 15
      case WickRejection => 18
      case FakeBreakout => 30
      case NoMomentum => 20
      case TrendMisaligned => 22
      case MarketMakerTrap => 15
      case GapAgainstClose => 15
    }

    /** The position of the check, from 0 to 9. */
    function Index(): nat {
      match this
      case WeakTrend => 0
      case NoVolumeSupport => 1
      case SupportResistanceTrap => 2
      case FarFromSma50 => 3
      case WickRejection => 4
      case FakeBreakout => 5
      case NoMomentum => 6
      case TrendMisaligned => 7
      case MarketMakerTrap => 8
      case GapAgainstClose => 9
    }
  }

  /** The `reason` of a quality verdict, without the "(score/100)" suffix the source appends. */
  datatype Verdict = InsufficientData | Reject | Caution | MinorCaution | Accept
  {
    function Reason(): string {
      match this
      case InsufficientData => "Yetersiz veri"
      case Reject => "REJECT - Kesin Hatalı Sinyal"
      case Caution => "CAUTION - Confidence Reduce"
      case MinorCaution => "MINOR CAUTION - Slight Reduce"
      case Accept => "ACCEPT - Green Light"
    }
  }

  datatype SignalQuality = SignalQuality(
    falseScore: int,              // 0..100, high means probably false
    confidenceMultiplier: real,   // 0..1
    verdict: Verdict,
    redFlags: seq<Penalty>)

  /** The arguments of `validateSignalQuality` (its unused `adxResult` left out). */
  datatype Inputs = Inputs(
    signal: string, data: seq<StockData>, adx: Double, currentPrice: real,
    sma20: Double, sma50: Double, ema200: Double, srLevels: seq<SupportResistanceLevel>)

  /** The two derived values the checks read: the 20-bar average volume and the RSI(14) of the last bar. */
  datatype Evidence = Evidence(avgVolume: real, rsi: Double)

  // ---------------------------------------------------------------- IEEE quotients

  /** `(double) num / den < c`: a zero `den` gives -infinity, below `c`, only for a negative `num`; +infinity and NaN are not below it. */
  predicate QuotientBelow(num: real, den: real, c: real) {
    if den == 0.0 then num < 0.0 else num / den < c
  }

  /** `Math.abs(x - ref) / ref * 100 < pct`: a zero `ref` gives an infinity or NaN, neither below `pct`. */
  predicate DistanceBelow(x: real, ref: real, pct: real) {
    ref != 0.0 && Abs(x - ref) / ref * 100.0 < pct
  }

  /** `Math.abs(x - ref) / ref * 100 > pct`: a zero `ref` gives +infinity, which exceeds `pct`, unless `x` is zero too (NaN). */
  predicate DistanceAbove(x: real, ref: real, pct: real) {
    if ref == 0.0 then x != 0.0 else Abs(x - ref) / ref * 100.0 > pct
  }

  // ---------------------------------------------------------------- average volume

  /** Mean volume of the last `period` bars, the last bar included; the last bar's volume when there are fewer. */
  function AverageVolume(data: seq<StockData>, period: int): real
    requires |data| > 0 && period >= 1
  {
    if |data| < period then data[|data| - 1].volume as real
    else Sum(Volumes(data), |data| - period, |data|) / period as real
  }

  method CalculateAverageVolume(data: seq<StockData>, period: int) returns (avg: real)
    requires |data| > 0 && period >= 1
    ensures avg == AverageVolume(data, period)
  {
    if |data| < period {
      return data[|data| - 1].volume as real;
    }
    var total := 0;
    var start := |data| - period;
    for i := start to |data|
      invariant total as real == Sum(Volumes(data), start, i)
    {
      total := total + data[i].volume;
    }
    avg := total as real / period as real;
  }

  /** A sum of terms that all lie in [0, m] lies in [0, count * m]. */
  lemma {:induction false} SumBounded(s: seq<real>, lo: int, hi: int, m: real)
    requires 0 <= lo <= hi <= |s|
    requires forall k :: lo <= k < hi ==> 0.0 <= s[k] <= m
    ensures 0.0 <= Sum(s, lo, hi) <= (hi - lo) as real * m
    decreases hi - lo
  {
    if lo < hi {
      SumBounded(s, lo, hi - 1, m);
    }
  }

  /** When no bar's volume exceeds `m`, the average volume lies in [0, m]. */
  lemma AverageVolumeBounded(data: seq<StockData>, period: int, m: real)
    requires |data| > 0 && period >= 1
    requires forall k :: 0 <= k < |data| ==> data[k].volume as real <= m
    ensures 0.0 <= AverageVolume(data, period) <= m
  {
    if |data| >= period {
      var v := Volumes(data);
      SumBounded(v, |data| - period, |data|, m);
      QuotientBounds(Sum(v, |data| - period, |data|), period as real, m);
    }
  }

  // ---------------------------------------------------------------- the ten checks

  /** A level within 3% below which a BUY runs into resistance, or above which a SELL runs into support. */
  predicate Traps(level: SupportResistanceLevel, signal: string, price: real) {
    DistanceBelow(price, level.level, 3.0)
    && ((signal == "BUY" && level.isResistance && price < level.level)
        || (signal == "SELL" && level.isSupport && price > level.level))
  }

  /** Check 1: a weak trend, ADX below 20. */
  predicate WeakTrendCheck(x: Inputs) {
    Below(x.adx, 20.0)
  }

  /** Check 2: a BUY above SMA20 or a SELL below it on less than 0.8 times the average volume. */
  predicate NoVolumeSupportCheck(x: Inputs, e: Evidence)
    requires |x.data| > 0
  {
    ((x.signal == "BUY" && Below(x.sma20, x.currentPrice)) || (x.signal == "SELL" && Above(x.sma20, x.currentPrice)))
    && QuotientBelow(x.data[|x.data| - 1].volume as real, e.avgVolume, 0.8)
  }

  /** Check 3: some support/resistance level traps the signal. */
  predicate TrapCheck(x: Inputs) {
    exists k :: 0 <= k < |x.srLevels| && Traps(x.srLevels[k], x.signal, x.currentPrice)
  }

  /** Check 4: the price is more than 5% away from SMA50. */
  predicate FarFromSma50Check(x: Inputs) {
    x.sma50.Some? && DistanceAbove(x.currentPrice, x.sma50.value, 5.0)
  }

  /** Check 5: the longer wick of the last bar exceeds twice its (non-empty) body. */
  predicate WickCheck(bar: StockData) {
    var body := Abs(bar.close - bar.open);
    var maxWick := MaxReal(bar.high - MaxReal(bar.close, bar.open), MinReal(bar.close, bar.open) - bar.low);
    body > 0.0 && maxWick > body * 2.0
  }

  /** Check 6: a BUY closing above SMA50 after two rising closes, or a SELL closing below it after two falling closes. */
  predicate FakeBreakoutCheck(x: Inputs)
    requires |x.data| >= 3
  {
    var last := |x.data| - 1;
    var bar1, bar2, bar3 := x.data[last].close, x.data[last - 1].close, x.data[last - 2].close;
    (x.signal == "BUY" && Below(x.sma50, bar1) && bar2 < bar1 && bar3 < bar2)
    || (x.signal == "SELL" && Above(x.sma50, bar1) && bar2 > bar1 && bar3 > bar2)
  }

  /** Check 7: a BUY with RSI(14) below 40 or a SELL with RSI(14) above 60. */
  predicate NoMomentumCheck(x: Inputs, e: Evidence) {
    (x.signal == "BUY" && Below(e.rsi, 40.0)) || (x.signal == "SELL" && Above(e.rsi, 60.0))
  }

  /** Check 8: a BUY without SMA20 > SMA50 > EMA200, or a SELL without SMA20 < SMA50 < EMA200. */
  predicate MisalignedCheck(x: Inputs) {
    (x.signal == "BUY" && !(Less(x.sma50, x.sma20) && Less(x.ema200, x.sma50)))
    || (x.signal == "SELL" && !(Less(x.sma20, x.sma50) && Less(x.sma50, x.ema200)))
  }

  /** Check 9: a last-bar volume above 1.5 times the average after a previous bar below 0.8 times it. */
  predicate MarketMakerCheck(x: Inputs, e: Evidence)
    requires |x.data| >= 2
  {
    var avg := e.avgVolume;
    x.data[|x.data| - 1].volume as real > avg * 1.5 && x.data[|x.data| - 2].volume as real < avg * 0.8
  }

  /** Check 10: a BUY bar closing below its open, or a SELL bar closing above it, after an open gap above 1.5%. */
  predicate GapCheck(x: Inputs)
    requires |x.data| >= 2
  {
    var cur, prev := x.data[|x.data| - 1], x.data[|x.data| - 2];
    ((x.signal == "BUY" && cur.open > cur.close) || (x.signal == "SELL" && cur.open < cur.close))
    && DistanceAbove(cur.open, prev.close, 1.5)
  }

  /** The outcome of the ten checks. */
  datatype Outcome = Outcome(
    weakTrend: bool, noVolumeSupport: bool, trap: bool, farFromSma50: bool, wick: bool,
    fakeBreakout: bool, noMomentum: bool, misaligned: bool, marketMakerTrap: bool, gap: bool)
  {
    /** Whether check `p` applies its penalty. */
    predicate Fires(p: Penalty) {
      match p
      case WeakTrend => weakTrend
      case NoVolumeSupport => noVolumeSupport
      case SupportResistanceTrap => trap
      case FarFromSma50 => farFromSma50
      case WickRejection => wick
      case FakeBreakout => fakeBreakout
      case NoMomentum => noMomentum
      case TrendMisaligned => misaligned
      case MarketMakerTrap => marketMakerTrap
      case GapAgainstClose => gap
    }
  }

  /** The ten checks on the latest bar. */
  function OutcomeOf(x: Inputs, e: Evidence): Outcome
    requires |x.data| >= 3
  {
    Outcome(WeakTrendCheck(x), NoVolumeSupportCheck(x, e), TrapCheck(x), FarFromSma50Check(x),
            WickCheck(x.data[|x.data| - 1]), FakeBreakoutCheck(x), NoMomentumCheck(x, e), MisalignedCheck(x),
            MarketMakerCheck(x, e), GapCheck(x))
  }

  /** The flag check `p` raises: itself when it fires, nothing otherwise. */
  function Flag(p: Penalty, o: Outcome): seq<Penalty> {
    if o.Fires(p) then [p] else []
  }

  /** What check `p` adds to the score. */
  function Penalized(p: Penalty, o: Outcome): nat {
    if o.Fires(p) then p.Weight() else 0
  }

  /** The check at position `i` of the order. */
  function PenaltyAt(i: nat): (p: Penalty)
    requires i < 10
    ensures p.Index() == i
  {
    if i == 0 then WeakTrend
    else if i == 1 then NoVolumeSupport
    else if i == 2 then SupportResistanceTrap
    else if i == 3 then FarFromSma50
    else if i == 4 then WickRejection
    else if i == 5 then FakeBreakout
    else if i == 6 then NoMomentum
    else if i == 7 then TrendMisaligned
    else if i == 8 then MarketMakerTrap
    else GapAgainstClose
  }

  /** The red flags the first `n` checks raise, in check order. */
  function RaisedUpTo(n: nat, o: Outcome): seq<Penalty>
    requires n <= 10
  {
    if n == 0 then [] else RaisedUpTo(n - 1, o) + Flag(PenaltyAt(n - 1), o)
  }

  /** What the first `n` checks add to the score. */
  function ScoreUpTo(n: nat, o: Outcome): nat
    requires n <= 10
  {
    if n == 0 then 0 else ScoreUpTo(n - 1, o) + Penalized(PenaltyAt(n - 1), o)
  }

  /** The red flags of all ten checks. */
  function Raised(o: Outcome): seq<Penalty> {
    RaisedUpTo(10, o)
  }

  /** The score before the cap. */
  function RawScore(o: Outcome): nat {
    ScoreUpTo(10, o)
  }

  /** Total weight of a list of flags. */
  function Weights(flags: seq<Penalty>): nat {
    if |flags| == 0 then 0 else Weights(flags[..|flags| - 1]) + flags[|flags| - 1].Weight()
  }

  lemma {:induction false} WeightsConcat(a: seq<Penalty>, b: seq<Penalty>)
    ensures Weights(a + b) == Weights(a) + Weights(b)
    decreases |b|
  {
    if |b| > 0 {
      assert (a + b)[..|a + b| - 1] == a + b[..|b| - 1];
      assert (a + b)[|a + b| - 1] == b[|b| - 1];
      WeightsConcat(a, b[..|b| - 1]);
    } else {
      assert a + b == a;
    }
  }

  // ---------------------------------------------------------------- the verdict

  /** The step function from false score to verdict. */
  function VerdictFor(score: int): Verdict {
    if score >= 90 then Reject
    else if score >= 75 then Caution
    else if score >= 60 then MinorCaution
    else Accept
  }

  function MultiplierOf(v: Verdict): real {
    match v
    case InsufficientData => 1.0
    case Reject => 0.0
    case Caution => 0.7
    case MinorCaution => 0.9
    case Accept => 1.0
  }

  /** The evidence the checks read, as `validateSignalQuality` computes it. */
  function EvidenceOf(x: Inputs): Evidence
    requires |x.data| >= 15
  {
    Evidence(AverageVolume(x.data, 20), RsiAt(Closes(x.data), 14, |x.data| - 1))
  }

  /** The quality `validateSignalQuality` returns. */
  function Quality(x: Inputs): SignalQuality
    requires |x.data| < 5 || |x.data| >= 15
  {
    if |x.data| < 5 then SignalQuality(100, 1.0, InsufficientData, [])
    else
      var e := EvidenceOf(x);
      var score := Min(100, RawScore(OutcomeOf(x, e)));
      SignalQuality(score, MultiplierOf(VerdictFor(score)), VerdictFor(score), Raised(OutcomeOf(x, e)))
  }

  // ---------------------------------------------------------------- the validator

  /** The support/resistance loop of `validateSignalQuality`: whether some level traps the signal. */
  method NearLevelTrap(signal: string, currentPrice: real, srLevels: seq<SupportResistanceLevel>) returns (trap: bool)
    ensures trap <==> exists k :: 0 <= k < |srLevels| && Traps(srLevels[k], signal, currentPrice)
  {
    var nearResistance, nearSupport := false, false;
    for i := 0 to |srLevels|
      invariant (nearResistance || nearSupport) <==> exists k :: 0 <= k < i && Traps(srLevels[k], signal, currentPrice)
    {
      var level := srLevels[i];
      if DistanceBelow(currentPrice, level.level, 3.0) {
        if signal == "BUY" && level.isResistance && currentPrice < level.level {
          nearResistance := true;
        }
        if signal == "SELL" && level.isSupport && currentPrice > level.level {
          nearSupport := true;
        }
      }
    }
    trap := nearResistance || nearSupport;
  }

  /** Check 1 of `validateSignalQuality`: weak trend penalty. */
  method CheckTrendStrength(x: Inputs, e: Evidence, score0: nat, flags0: seq<Penalty>) returns (score: nat, flags: seq<Penalty>)
    requires |x.data| >= 3
    ensures score == score0 + Penalized(WeakTrend, OutcomeOf(x, e)) && flags == flags0 + Flag(WeakTrend, OutcomeOf(x, e))
  {
    score, flags := score0, flags0;
    if Below(x.adx, 20.0) {
      score, flags := score + 35, flags + [WeakTrend];
    }
  }

  /** Check 2: volume-unsupported breakout or breakdown. */
  method CheckVolumeSupport(x: Inputs, e: Evidence, score0: nat, flags0: seq<Penalty>) returns (score: nat, flags: seq<Penalty>)
    requires |x.data| >= 3
    ensures score == score0 + Penalized(NoVolumeSupport, OutcomeOf(x, e)) && flags == flags0 + Flag(NoVolumeSupport, OutcomeOf(x, e))
  {
    score, flags := score0, flags0;
    var current := x.data[|x.data| - 1];
    var volume := current.volume as real;
    if x.signal == "BUY" && Below(x.sma20, x.currentPrice) {
      if QuotientBelow(volume, e.avgVolume, 0.8) {
        score, flags := score + 28, flags + [NoVolumeSupport];
      }
    } else if x.signal == "SELL" && Above(x.sma20, x.currentPrice) {
      if QuotientBelow(volume, e.avgVolume, 0.8) {
        score, flags := score + 28, flags + [NoVolumeSupport];
      }
    }
  }

  /** Check 3: support/resistance proximity trap, one penalty however many levels qualify. */
  method CheckSupportResistance(x: Inputs, e: Evidence, score0: nat, flags0: seq<Penalty>) returns (score: nat, flags: seq<Penalty>)
    requires |x.data| >= 3
    ensures score == score0 + Penalized(SupportResistanceTrap, OutcomeOf(x, e)) && flags == flags0 + Flag(SupportResistanceTrap, OutcomeOf(x, e))
  {
    score, flags := score0, flags0;
    if |x.srLevels| > 0 {
      var trap := NearLevelTrap(x.signal, x.currentPrice, x.srLevels);
      if trap {
        score, flags := score + 25, flags + [SupportResistanceTrap];
      }
    }
  }

  /** Check 4: price too far from SMA50. */
  method CheckSma50Distance(x: Inputs, e: Evidence, score0: nat, flags0: seq<Penalty>) returns (score: nat, flags: seq<Penalty>)
    requires |x.data| >= 3
    ensures score == score0 + Penalized(FarFromSma50, OutcomeOf(x, e)) && flags == flags0 + Flag(FarFromSma50, OutcomeOf(x, e))
  {
    score, flags := score0, flags0;
    if x.sma50.Some? && DistanceAbove(x.currentPrice, x.sma50.value, 5.0) {
      score, flags := score + 15, flags + [FarFromSma50];
    }
  }

  /** Check 5: wick rejection (stop hunting). */
  method CheckWickRejection(x: Inputs, e: Evidence, score0: nat, flags0: seq<Penalty>) returns (score: nat, flags: seq<Penalty>)
    requires |x.data| >= 3
    ensures score == score0 + Penalized(WickRejection, OutcomeOf(x, e)) && flags == flags0 + Flag(WickRejection, OutcomeOf(x, e))
  {
    score, flags := score0, flags0;
    var current := x.data[|x.data| - 1];
    var bodySize := Abs(current.close - current.open);
    var upperWick := current.high - MaxReal(current.close, current.open);
    var lowerWick := MinReal(current.close, current.open) - current.low;
    var maxWick := MaxReal(upperWick, lowerWick);
    if bodySize > 0.0 && maxWick > bodySize * 2.0 {
      score, flags := score + 18, flags + [WickRejection];
    }
  }

  /** Check 6: fake breakout or breakdown (3-bar test). */
  method CheckFakeBreakout(x: Inputs, e: Evidence, score0: nat, flags0: seq<Penalty>) returns (score: nat, flags: seq<Penalty>)
    requires |x.data| >= 3
    ensures score == score0 + Penalized(FakeBreakout, OutcomeOf(x, e)) && flags == flags0 + Flag(FakeBreakout, OutcomeOf(x, e))
  {
    score, flags := score0, flags0;
    var lastIdx := |x.data| - 1;
    var bar3, bar2, bar1 := x.data[lastIdx - 2], x.data[lastIdx - 1], x.data[lastIdx];
    if x.signal == "BUY" {
      if Below(x.sma50, bar1.close) && bar2.close < bar1.close {
        if bar3.close < bar2.close {
          score, flags := score + 30, flags + [FakeBreakout];
        }
      }
    } else if x.signal == "SELL" {
      if Above(x.sma50, bar1.close) && bar2.close > bar1.close {
        if bar3.close > bar2.close {
          score, flags := score + 30, flags + [FakeBreakout];
        }
      }
    }
  }

  /** Check 7: no momentum support, from the RSI(14) of the last bar. */
  method CheckMomentum(x: Inputs, e: Evidence, score0: nat, flags0: seq<Penalty>) returns (score: nat, flags: seq<Penalty>)
    requires |x.data| >= 3
    ensures score == score0 + Penalized(NoMomentum, OutcomeOf(x, e)) && flags == flags0 + Flag(NoMomentum, OutcomeOf(x, e))
  {
    score, flags := score0, flags0;
    if x.signal == "BUY" && Below(e.rsi, 40.0) {
      score, flags := score + 20, flags + [NoMomentum];
    } else if x.signal == "SELL" && Above(e.rsi, 60.0) {
      score, flags := score + 20, flags + [NoMomentum];
    }
  }

  /** Check 8: moving-average alignment. */
  method CheckMaAlignment(x: Inputs, e: Evidence, score0: nat, flags0: seq<Penalty>) returns (score: nat, flags: seq<Penalty>)
    requires |x.data| >= 3
    ensures score == score0 + Penalized(TrendMisaligned, OutcomeOf(x, e)) && flags == flags0 + Flag(TrendMisaligned, OutcomeOf(x, e))
  {
    score, flags := score0, flags0;
    if x.signal == "BUY" {
      if !(Less(x.sma50, x.sma20) && Less(x.ema200, x.sma50)) {
        score, flags := score + 22, flags + [TrendMisaligned];
      }
    } else if x.signal == "SELL" {
      if !(Less(x.sma20, x.sma50) && Less(x.sma50, x.ema200)) {
        score, flags := score + 22, flags + [TrendMisaligned];
      }
    }
  }

  /** Check 9: market-maker trap, a volume spike after a quiet bar. */
  method CheckMarketMakerTrap(x: Inputs, e: Evidence, score0: nat, flags0: seq<Penalty>) returns (score: nat, flags: seq<Penalty>)
    requires |x.data| >= 3
    ensures score == score0 + Penalized(MarketMakerTrap, OutcomeOf(x, e)) && flags == flags0 + Flag(MarketMakerTrap, OutcomeOf(x, e))
  {
    score, flags := score0, flags0;
    var lastIdx := |x.data| - 1;
    var prevVolume := x.data[lastIdx - 1].volume as real;
    if x.data[lastIdx].volume as real > e.avgVolume * 1.5 && prevVolume < e.avgVolume * 0.8 {
      score, flags := score + 15, flags + [MarketMakerTrap];
    }
  }

  /** Check 10: an open gap against the direction of the close. */
  method CheckOpenGap(x: Inputs, e: Evidence, score0: nat, flags0: seq<Penalty>) returns (score: nat, flags: seq<Penalty>)
    requires |x.data| >= 3
    ensures score == score0 + Penalized(GapAgainstClose, OutcomeOf(x, e)) && flags == flags0 + Flag(GapAgainstClose, OutcomeOf(x, e))
  {
    score, flags := score0, flags0;
    var lastIdx := |x.data| - 1;
    var current := x.data[lastIdx];
    var prevClose := x.data[lastIdx - 1].close;
    if x.signal == "BUY" && current.open > current.close && DistanceAbove(current.open, prevClose, 1.5) {
      score, flags := score + 15, flags + [GapAgainstClose];
    } else if x.signal == "SELL" && current.open < current.close && DistanceAbove(current.open, prevClose, 1.5) {
      score, flags := score + 15, flags + [GapAgainstClose];
    }
  }

  /** The final adjustment of `validateSignalQuality`: the cap at 100 and the step function. */
  method FinalAdjustment(rawScore: nat, redFlags: seq<Penalty>) returns (q: SignalQuality)
    ensures q.falseScore == Min(100, rawScore) && q.redFlags == redFlags
    ensures q.verdict == VerdictFor(q.falseScore) && q.confidenceMultiplier == MultiplierOf(q.verdict)
  {
    var falseScore := Min(100, rawScore);
    var multiplier, verdict;
    if falseScore >= 90 {
      multiplier, verdict := 0.0, Reject;
    } else if falseScore >= 75 {
      multiplier, verdict := 0.7, Caution;
    } else if falseScore >= 60 {
      multiplier, verdict := 0.9, MinorCaution;
    } else {
      multiplier, verdict := 1.0, Accept;
    }
    q := SignalQuality(falseScore, multiplier, verdict, redFlags);
  }

  method ValidateSignalQuality(signal: string, data: seq<StockData>, adx: Double, currentPrice: real,
                               sma20: Double, sma50: Double, ema200: Double,
                               srLevels: seq<SupportResistanceLevel>) returns (q: SignalQuality)
    requires |data| < 5 || |data| >= 15
    ensures q == Quality(Inputs(signal, data, adx, currentPrice, sma20, sma50, ema200, srLevels))
  {
    if |data| < 5 {
      return SignalQuality(100, 1.0, InsufficientData, []);
    }
    var x := Inputs(signal, data, adx, currentPrice, sma20, sma50, ema200, srLevels);
    // The RSI the momentum check reads is computed up front; nothing in between depends on it.
    var avgVolume := CalculateAverageVolume(data, 20);
    var rsiSeries := CalculateRSI(data, 14);
    var e := Evidence(avgVolume, rsiSeries[|data| - 1]);
    assert e == EvidenceOf(x);
    ghost var o := OutcomeOf(x, e);
    var falseScore, redFlags := CheckTrendStrength(x, e, 0, []);
    assert ScoreUpTo(1, o) == ScoreUpTo(0, o) + Penalized(PenaltyAt(0), o);
    assert redFlags == RaisedUpTo(1, o) && falseScore == ScoreUpTo(1, o);
    falseScore, redFlags := CheckVolumeSupport(x, e, falseScore, redFlags);
    assert redFlags == RaisedUpTo(2, o) && falseScore == ScoreUpTo(2, o);
    falseScore, redFlags := CheckSupportResistance(x, e, falseScore, redFlags);
    assert redFlags == RaisedUpTo(3, o) && falseScore == ScoreUpTo(3, o);
    falseScore, redFlags := CheckSma50Distance(x, e, falseScore, redFlags);
    assert redFlags == RaisedUpTo(4, o) && falseScore == ScoreUpTo(4, o);
    falseScore, redFlags := CheckWickRejection(x, e, falseScore, redFlags);
    assert redFlags == RaisedUpTo(5, o) && falseScore == ScoreUpTo(5, o);
    falseScore, redFlags := CheckFakeBreakout(x, e, falseScore, redFlags);
    assert redFlags == RaisedUpTo(6, o) && falseScore == ScoreUpTo(6, o);
    falseScore, redFlags := CheckMomentum(x, e, falseScore, redFlags);
    assert redFlags == RaisedUpTo(7, o) && falseScore == ScoreUpTo(7, o);
    falseScore, redFlags := CheckMaAlignment(x, e, falseScore, redFlags);
    assert redFlags == RaisedUpTo(8, o) && falseScore == ScoreUpTo(8, o);
    falseScore, redFlags := CheckMarketMakerTrap(x, e, falseScore, redFlags);
    assert redFlags == RaisedUpTo(9, o) && falseScore == ScoreUpTo(9, o);
    falseScore, redFlags := CheckOpenGap(x, e, falseScore, redFlags);
    assert redFlags == RaisedUpTo(10, o) && falseScore == ScoreUpTo(10, o);
    q := FinalAdjustment(falseScore, redFlags);
  }

  // ---------------------------------------------------------------- properties

  /** The false score lies in [0, 100]; below 5 bars it is 100 with no flags and multiplier 1. */
  lemma ScoreRange(x: Inputs)
    requires |x.data| < 5 || |x.data| >= 15
    ensures 0 <= Quality(x).falseScore <= 100
    ensures |x.data| < 5 ==> Quality(x) == SignalQuality(100, 1.0, InsufficientData, [])
    ensures |x.data| >= 5 ==> Quality(x).falseScore == Min(100, Weights(Quality(x).redFlags))
  {
    if |x.data| >= 5 {
      RaisedWeights(OutcomeOf(x, EvidenceOf(x)));
    }
  }

  /** Every check has its own position. */
  lemma PenaltyAtIndex(p: Penalty)
    ensures PenaltyAt(p.Index()) == p
  {
  }

  /** The score of the first `n` checks is the total weight of their flags. */
  lemma {:induction false} WeightsUpTo(n: nat, o: Outcome)
    requires n <= 10
    ensures Weights(RaisedUpTo(n, o)) == ScoreUpTo(n, o)
  {
    if n > 0 {
      WeightsUpTo(n - 1, o);
      var q := PenaltyAt(n - 1);
      WeightsConcat(RaisedUpTo(n - 1, o), Flag(q, o));
      if o.Fires(q) {
        assert Flag(q, o)[..0] == [];
      }
    }
  }

  /** The score before the cap is the total weight of the raised flags. */
  lemma RaisedWeights(o: Outcome)
    ensures Weights(Raised(o)) == RawScore(o)
  {
    WeightsUpTo(10, o);
  }

  /** The first `n` checks raise at most `n` flags. */
  lemma {:induction false} LengthUpTo(n: nat, o: Outcome)
    requires n <= 10
    ensures |RaisedUpTo(n, o)| <= n
  {
    if n > 0 {
      LengthUpTo(n - 1, o);
    }
  }

  /** At most ten flags are raised, one per check. */
  lemma RaisedLength(o: Outcome)
    ensures |Raised(o)| <= 10
  {
    LengthUpTo(10, o);
  }

  /** Appending the flag of one check adds one occurrence of it exactly when the check fires. */
  lemma CountStep(prefix: seq<Penalty>, q: Penalty, o: Outcome, p: Penalty)
    ensures multiset(prefix + Flag(q, o))[p] == multiset(prefix)[p] + if o.Fires(q) && p == q then 1 else 0
  {
    if o.Fires(q) {
      assert multiset(prefix + [q]) == multiset(prefix) + multiset{q};
    } else {
      assert prefix + [] == prefix;
    }
  }

  /** Among the first `n` checks, `p` is raised once if it is one of them and fires, and never otherwise. */
  lemma {:induction false} CountUpTo(n: nat, o: Outcome, p: Penalty)
    requires n <= 10
    ensures multiset(RaisedUpTo(n, o))[p] == if p.Index() < n && o.Fires(p) then 1 else 0
  {
    if n > 0 {
      CountUpTo(n - 1, o, p);
      var q := PenaltyAt(n - 1);
      PenaltyAtIndex(p);
      assert p.Index() == n - 1 <==> p == q;
      CountStep(RaisedUpTo(n - 1, o), q, o, p);
    }
  }

  /** A flag is raised exactly when its check fires, and then exactly once. */
  lemma OneFlagPerPenalty(o: Outcome, p: Penalty)
    ensures multiset(Raised(o))[p] == if o.Fires(p) then 1 else 0
    ensures p in Raised(o) <==> o.Fires(p)
  {
    CountUpTo(10, o, p);
  }

  /** When only the ADX, SMA50-distance, wick and volume-spike checks can fire, only their flags are raised and the score is at most 35 + 15 + 18 + 15 = 83. */
  lemma SignalFreeScore(o: Outcome)
    requires !o.noVolumeSupport && !o.trap && !o.fakeBreakout && !o.noMomentum && !o.misaligned && !o.gap
    ensures forall p :: p in Raised(o) ==> p in {WeakTrend, FarFromSma50, WickRejection, MarketMakerTrap}
    ensures RawScore(o) <= 83
  {
    forall p | p in Raised(o)
      ensures p in {WeakTrend, FarFromSma50, WickRejection, MarketMakerTrap}
    {
      OneFlagPerPenalty(o, p);
    }
    assert ScoreUpTo(1, o) <= 35;
    assert ScoreUpTo(2, o) <= 35;
    assert ScoreUpTo(3, o) <= 35;
    assert ScoreUpTo(4, o) <= 50;
    assert ScoreUpTo(5, o) <= 68;
    assert ScoreUpTo(6, o) <= 68;
    assert ScoreUpTo(7, o) <= 68;
    assert ScoreUpTo(8, o) <= 68;
    assert ScoreUpTo(9, o) <= 83;
  }

  /** A signal other than BUY or SELL can only be penalized for ADX, SMA50 distance, wick and volume spike: at most 83. */
  lemma NeutralSignalScore(x: Inputs)
    requires |x.data| >= 15 && x.signal != "BUY" && x.signal != "SELL"
    ensures forall p :: p in Quality(x).redFlags ==> p in {WeakTrend, FarFromSma50, WickRejection, MarketMakerTrap}
    ensures Quality(x).falseScore <= 83
  {
    var o := OutcomeOf(x, EvidenceOf(x));
    assert forall k :: 0 <= k < |x.srLevels| ==> !Traps(x.srLevels[k], x.signal, x.currentPrice);
    SignalFreeScore(o);
  }

  /** The multiplier never increases as the false score grows. */
  lemma MultiplierMonotone(s1: int, s2: int)
    requires s1 <= s2
    ensures MultiplierOf(VerdictFor(s2)) <= MultiplierOf(VerdictFor(s1))
  {
  }

  // ---------------------------------------------------------------- pattern predicates

  /** A bar that closes back on the wrong side of the level it broke. */
  predicate Reverted(bar: StockData, up: bool, down: bool, supportLevel: real, resistanceLevel: real) {
    (up && bar.close < resistanceLevel) || (down && bar.close > supportLevel)
  }

  /** The last bar broke out (above resistance, or below support) and one of the `min(lookback, 3) - 1` bars before it closed on the other side. */
  predicate FalseBreakout(data: seq<StockData>, supportLevel: real, resistanceLevel: real, lookbackBars: int)
    requires |data| > 0 || lookbackBars > 0
  {
    if |data| < lookbackBars then false
    else
      var last := |data| - 1;
      var cur := data[last];
      var up := cur.close > resistanceLevel && cur.low < resistanceLevel;
      var down := cur.close < supportLevel && cur.high > supportLevel;
      (up || down)
      && exists j :: last - Min(lookbackBars, 3) < j < last && 0 <= j
                     && Reverted(data[j], up, down, supportLevel, resistanceLevel)
  }

  method IsFalseBreakout(data: seq<StockData>, supportLevel: real, resistanceLevel: real, lookbackBars: int)
    returns (b: bool)
    requires |data| > 0 || lookbackBars > 0
    ensures b == FalseBreakout(data, supportLevel, resistanceLevel, lookbackBars)
  {
    if |data| < lookbackBars {
      return false;
    }
    var lastIdx := |data| - 1;
    var current := data[lastIdx];
    var breakoutAboveRes := current.close > resistanceLevel && current.low < resistanceLevel;
    var breakdownBelowSup := current.close < supportLevel && current.high > supportLevel;
    if breakoutAboveRes || breakdownBelowSup {
      var checkBars := Min(lookbackBars, 3);
      var i := 1;
      while i < checkBars && lastIdx - i >= 0
        invariant 1 <= i <= lastIdx + 1
        invariant forall j :: lastIdx - i < j < lastIdx && 0 <= j ==>
                    !Reverted(data[j], breakoutAboveRes, breakdownBelowSup, supportLevel, resistanceLevel)
        decreases checkBars - i
      {
        var bar := data[lastIdx - i];
        if breakoutAboveRes && bar.close < resistanceLevel {
          assert Reverted(data[lastIdx - i], breakoutAboveRes, breakdownBelowSup, supportLevel, resistanceLevel);
          return true;
        }
        if breakdownBelowSup && bar.close > supportLevel {
          assert Reverted(data[lastIdx - i], breakoutAboveRes, breakdownBelowSup, supportLevel, resistanceLevel);
          return true;
        }
        i := i + 1;
      }
    }
    return false;
  }

  /** Too little data, or a lookback of at most one bar, never reports a false breakout. */
  lemma FalseBreakoutNeedsHistory(data: seq<StockData>, supportLevel: real, resistanceLevel: real, lookbackBars: int)
    requires |data| > 0 || lookbackBars > 0
    requires |data| < lookbackBars || lookbackBars <= 1
    ensures !FalseBreakout(data, supportLevel, resistanceLevel, lookbackBars)
  {
  }

  /** Only the two bars before the last are ever examined: from a lookback of 3 on, the lookback no longer matters. */
  lemma FalseBreakoutLookbackCapped(data: seq<StockData>, supportLevel: real, resistanceLevel: real, l1: int, l2: int)
    requires 3 <= l1 <= |data| && 3 <= l2 <= |data|
    ensures FalseBreakout(data, supportLevel, resistanceLevel, l1) == FalseBreakout(data, supportLevel, resistanceLevel, l2)
  {
  }

  /** `isStopHuntPattern`: the bar closed above support after its low dipped more than half an ATR below it. */
  function IsStopHuntPattern(current: StockData, supportLevel: real, atr: real): (r: bool)
    ensures r ==> current.low < supportLevel - atr * 0.5 && supportLevel < current.close
  {
    var expectedWickDepth := atr * 0.5;
    if current.close > supportLevel then current.low < supportLevel - expectedWickDepth
    else false
  }

  /** With a non-negative ATR the bar's range spans the support level; a pattern at some ATR is one at every smaller ATR. */
  lemma StopHuntProperties(current: StockData, supportLevel: real, atr: real, smaller: real)
    requires 0.0 <= smaller <= atr
    ensures IsStopHuntPattern(current, supportLevel, atr) ==> current.low < supportLevel < current.close
    ensures IsStopHuntPattern(current, supportLevel, atr) ==> IsStopHuntPattern(current, supportLevel, smaller)
  {
  }
}
