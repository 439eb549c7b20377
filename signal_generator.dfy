/**
 * The vote-based signal classifier. Each indicator rule looks at the latest
 * bar and may add one or two votes to the buy or the sell side; a volume rule
 * then reinforces whichever side is strictly ahead (ties go to sell). The
 * vote counts are classified into five signals by their ratio, with a
 * confidence equal to the winning side's share of the votes.
 *
 * The rules are stated once as functions returning what they found
 * (`Finding`); `GenerateSignal` is proved to count exactly those findings.
 */
module SignalGenerator {
  import opened Wrappers
  import opened Doubles
  import opened Stocks
  import opened TechnicalIndicators

  datatype SignalResult = SignalResult(
    symbol: string,
    timestamp: int,
    price: real,
    signal: string,     // STRONG_BUY, BUY, HOLD, SELL or STRONG_SELL
    confidence: real,   // 0..100
    details: string)

  datatype Classification = StrongBuy | Buy | Hold | Sell | StrongSell
  {
    /** The label stored in `SignalResult.signal`. */
    function Label(): string {
      match this
      case StrongBuy => "STRONG_BUY"
      case Buy => "BUY"
      case Hold => "HOLD"
      case Sell => "SELL"
      case StrongSell => "STRONG_SELL"
    }

    /** The same classification with the two sides exchanged. */
    function Mirror(): Classification {
      match this
      case StrongBuy => StrongSell
      case Buy => Sell
      case Hold => Hold
      case Sell => Buy
      case StrongSell => StrongBuy
    }

    predicate IsBuySide() { this == StrongBuy || this == Buy }
    predicate IsSellSide() { this == StrongSell || this == Sell }
  }

  /** What a rule found at the latest bar. The RSI findings keep the RSI value for the detail text. */
  datatype Finding =
    | RsiOversold(rsi: real) | RsiOverbought(rsi: real) | RsiBullish(rsi: real) | RsiBearish(rsi: real)
    | MacdCrossover | MacdCrossunder | MacdBullish | MacdBearish
    | MaUptrend | MaDowntrend
    | PriceAboveEma12 | PriceBelowEma12
    | BbBelowLower | BbAboveUpper | BbLowerHalf | BbUpperHalf
    | HighVolumeBuy | HighVolumeSell
  {
    function BuyVotes(): nat {
      match this
      case RsiOversold(_) => 2
      case RsiBullish(_) => 1
      case MacdCrossover => 2
      case MacdBullish => 1
      case MaUptrend => 1
      case PriceAboveEma12 => 1
      case BbBelowLower => 2
      case BbLowerHalf => 1
      case HighVolumeBuy => 1
      case _ => 0
    }

    function SellVotes(): nat {
      match this
      case RsiOverbought(_) => 2
      case RsiBearish(_) => 1
      case MacdCrossunder => 2
      case MacdBearish => 1
      case MaDowntrend => 1
      case PriceBelowEma12 => 1
      case BbAboveUpper => 2
      case BbUpperHalf => 1
      case HighVolumeSell => 1
      case _ => 0
    }
  }

  /** Every finding votes for exactly one side, with one or two votes. */
  lemma FindingVotesOneSide(f: Finding)
    ensures (f.BuyVotes() == 0) != (f.SellVotes() == 0)
    ensures f.BuyVotes() + f.SellVotes() <= 2
  {
  }

  // ---------------------------------------------------------------- the rules

  /** RSI: oversold below 30, overbought above 70, otherwise a rising or falling RSI on its side of 50. */
  function RsiRule(rsi: seq<Double>, last: int): (r: Option<Finding>)
    requires 0 <= last < |rsi|
    ensures r.Some? ==> rsi[last].Some?
    ensures r.Some? ==> r.value in {RsiOversold(rsi[last].value), RsiOverbought(rsi[last].value),
                                    RsiBullish(rsi[last].value), RsiBearish(rsi[last].value)}
    ensures BuyOf(r) == 2 <==> Below(rsi[last], 30.0)
    ensures SellOf(r) == 2 <==> Above(rsi[last], 70.0)
    ensures BuyOf(r) > 0 ==> Below(rsi[last], 50.0)
    ensures SellOf(r) > 0 ==> Above(rsi[last], 50.0)
    ensures BuyOf(r) == 1 ==> last > 0 && Less(rsi[last - 1], rsi[last])
    ensures SellOf(r) == 1 ==> last > 0 && Less(rsi[last], rsi[last - 1])
  {
    if rsi[last].None? then None
    else
      var v := rsi[last].value;
      if v < 30.0 then Some(RsiOversold(v))
      else if v > 70.0 then Some(RsiOverbought(v))
      else if v < 50.0 && last > 0 && Less(rsi[last - 1], rsi[last]) then Some(RsiBullish(v))
      else if v > 50.0 && last > 0 && Less(rsi[last], rsi[last - 1]) then Some(RsiBearish(v))
      else None
  }

  /** MACD: a sign change of the histogram between the last two bars, else its sign on the last bar. */
  function MacdRule(histogram: seq<Double>, last: int): (r: Option<Finding>)
    requires 0 <= last < |histogram|
    ensures r.Some? ==> last > 0 && histogram[last].Some? && histogram[last - 1].Some?
    ensures r.Some? ==> r.value in {MacdCrossover, MacdCrossunder, MacdBullish, MacdBearish}
    ensures BuyOf(r) > 0 <==> last > 0 && histogram[last - 1].Some? && Above(histogram[last], 0.0)
    ensures SellOf(r) > 0 <==> last > 0 && histogram[last - 1].Some? && Below(histogram[last], 0.0)
    ensures BuyOf(r) == 2 <==> last > 0 && Below(histogram[last - 1], 0.0) && Above(histogram[last], 0.0)
    ensures SellOf(r) == 2 <==> last > 0 && Above(histogram[last - 1], 0.0) && Below(histogram[last], 0.0)
  {
    if last > 0 && histogram[last].Some? && histogram[last - 1].Some? then
      var prev, cur := histogram[last - 1].value, histogram[last].value;
      if prev < 0.0 && cur > 0.0 then Some(MacdCrossover)
      else if prev > 0.0 && cur < 0.0 then Some(MacdCrossunder)
      else if cur > 0.0 then Some(MacdBullish)
      else if cur < 0.0 then Some(MacdBearish)
      else None
    else None
  }

  /** Moving averages: SMA20 above SMA50 is an uptrend, anything else a downtrend. */
  function MaRule(sma20: Double, sma50: Double): (r: Option<Finding>)
    ensures r.Some? <==> sma20.Some? && sma50.Some?
    ensures r == Some(MaUptrend) <==> Less(sma50, sma20)
  {
    if sma20.Some? && sma50.Some? then
      if sma20.value > sma50.value then Some(MaUptrend) else Some(MaDowntrend)
    else None
  }

  /** EMA12: a close above the EMA votes buy, a close at or below it votes sell. */
  function Ema12Rule(close: real, ema12: Double): (r: Option<Finding>)
    ensures r.Some? <==> ema12.Some?
    ensures r == Some(PriceAboveEma12) <==> Below(ema12, close)
  {
    if ema12.Some? && close > ema12.value then Some(PriceAboveEma12)
    else if ema12.Some? then Some(PriceBelowEma12)
    else None
  }

  /** Bollinger: outside the bands votes twice, inside votes once by the half the close is in. */
  function BollingerRule(close: real, upper: Double, lower: Double, middle: Double): (r: Option<Finding>)
    ensures r.Some? <==> upper.Some? && lower.Some?
    ensures r.Some? ==> BuyOf(r) + SellOf(r) == if close < lower.value || close > upper.value then 2 else 1
    ensures BuyOf(r) == 2 <==> upper.Some? && Above(lower, close)
    ensures SellOf(r) == 2 <==> lower.Some? && Below(upper, close) && !Above(lower, close)
    ensures BuyOf(r) > 0 ==> Above(lower, close) || Above(middle, close)
    ensures SellOf(r) > 0 ==> !Above(lower, close) && (Below(upper, close) || !Above(middle, close))
  {
    if upper.Some? && lower.Some? then
      if close < lower.value then Some(BbBelowLower)
      else if close > upper.value then Some(BbAboveUpper)
      else if Above(middle, close) then Some(BbLowerHalf)
      else Some(BbUpperHalf)
    else None
  }

  /** Number of bars the volume average looks back over. */
  function VolumeCount(last: int): int
    requires last > 0
  {
    Min(20, last)
  }

  /** Mean volume of the `VolumeCount(last)` bars before bar `last`, excluding it. */
  function AverageVolumeBefore(data: seq<StockData>, last: int): real
    requires 0 < last < |data|
  {
    Sum(Volumes(data), last - VolumeCount(last), last) / VolumeCount(last) as real
  }

  /** Volume: a last-bar volume above 1.5 times the recent mean reinforces the side strictly ahead; ties go to sell. */
  function VolumeRule(data: seq<StockData>, buySoFar: int, sellSoFar: int): (r: Option<Finding>)
    requires |data| > 0
    ensures r.Some? ==> r.value in {HighVolumeBuy, HighVolumeSell}
    ensures r.Some? <==> |data| > 1 && data[|data| - 1].volume as real > AverageVolumeBefore(data, |data| - 1) * 1.5
    ensures r.Some? ==> (r == Some(HighVolumeBuy) <==> buySoFar > sellSoFar)
  {
    var last := |data| - 1;
    if last > 0 && data[last].volume as real > AverageVolumeBefore(data, last) * 1.5 then
      if buySoFar > sellSoFar then Some(HighVolumeBuy) else Some(HighVolumeSell)
    else None
  }

  // ---------------------------------------------------------------- counting

  /** What each of the six rules found at the latest bar. */
  datatype RuleFindings = RuleFindings(
    rsi: Option<Finding>, macd: Option<Finding>, ma: Option<Finding>,
    ema12: Option<Finding>, bollinger: Option<Finding>, volume: Option<Finding>)

  /** Buy votes, sell votes and detail text of what one rule found; nothing when it found nothing. */
  function BuyOf(o: Option<Finding>): nat { if o.Some? then o.value.BuyVotes() else 0 }
  function SellOf(o: Option<Finding>): nat { if o.Some? then o.value.SellVotes() else 0 }

  /** The votes of the five indicator rules, which the volume rule looks at. */
  function IndicatorBuy(f: RuleFindings): nat {
    BuyOf(f.rsi) + BuyOf(f.macd) + BuyOf(f.ma) + BuyOf(f.ema12) + BuyOf(f.bollinger)
  }
  function IndicatorSell(f: RuleFindings): nat {
    SellOf(f.rsi) + SellOf(f.macd) + SellOf(f.ma) + SellOf(f.ema12) + SellOf(f.bollinger)
  }

  function TotalBuy(f: RuleFindings): nat { IndicatorBuy(f) + BuyOf(f.volume) }
  function TotalSell(f: RuleFindings): nat { IndicatorSell(f) + SellOf(f.volume) }

  /** The findings of the six rules at the latest bar. */
  function LatestFindings(data: seq<StockData>, sma20: seq<Double>, sma50: seq<Double>, ema12: seq<Double>,
                          rsi: seq<Double>, macd: MACDResult, bb: BollingerBands): (f: RuleFindings)
    requires |data| > 0
    requires |sma20| >= |data| && |sma50| >= |data| && |ema12| >= |data| && |rsi| >= |data|
    requires |macd.histogram| >= |data|
    requires |bb.upper| >= |data| && |bb.lower| >= |data| && |bb.middle| >= |data|
    ensures f.volume == VolumeRule(data, IndicatorBuy(f), IndicatorSell(f))
  {
    var last := |data| - 1;
    var close := data[last].close;
    var partial := RuleFindings(RsiRule(rsi, last), MacdRule(macd.histogram, last),
                                MaRule(sma20[last], sma50[last]), Ema12Rule(close, ema12[last]),
                                BollingerRule(close, bb.upper[last], bb.lower[last], bb.middle[last]), None);
    partial.(volume := VolumeRule(data, IndicatorBuy(partial), IndicatorSell(partial)))
  }

  // ---------------------------------------------------------------- the decision

  /** The five-way classification by vote ratio. */
  function Classify(buy: nat, sell: nat): Classification {
    if buy as real > sell as real * 1.5 then StrongBuy
    else if buy > sell then Buy
    else if sell as real > buy as real * 1.5 then StrongSell
    else if sell > buy then Sell
    else Hold
  }

  /** The winning side's share of all votes in percent, capped at 100; 50 on a tie. */
  function Confidence(buy: nat, sell: nat): real {
    if buy > sell then MinReal(100.0, buy as real / (buy + sell) as real * 100.0)
    else if sell > buy then MinReal(100.0, sell as real / (buy + sell) as real * 100.0)
    else 50.0
  }

  /** HOLD exactly on a tie; a buy-side signal exactly when buy leads; a sell-side signal exactly when sell leads. */
  lemma ClassifySides(buy: nat, sell: nat)
    ensures Classify(buy, sell) == Hold <==> buy == sell
    ensures Classify(buy, sell).IsBuySide() <==> buy > sell
    ensures Classify(buy, sell).IsSellSide() <==> sell > buy
  {
  }

  /** STRONG_BUY exactly above 1.5 times the sell votes, STRONG_SELL exactly above 1.5 times the buy votes. */
  lemma ClassifyStrong(buy: nat, sell: nat)
    ensures Classify(buy, sell) == StrongBuy <==> buy as real > 1.5 * sell as real
    ensures Classify(buy, sell) == StrongSell <==> sell as real > 1.5 * buy as real
  {
  }

  /** Confidence is 50 on a tie and otherwise strictly above 50 and at most 100, never reaching the cap by rounding. */
  lemma ConfidenceRange(buy: nat, sell: nat)
    ensures buy == sell ==> Confidence(buy, sell) == 50.0
    ensures buy != sell ==> 50.0 < Confidence(buy, sell) <= 100.0
    ensures buy > sell ==> Confidence(buy, sell) == buy as real / (buy + sell) as real * 100.0
    ensures sell > buy ==> Confidence(buy, sell) == sell as real / (buy + sell) as real * 100.0
  {
    var total := (buy + sell) as real;
    if buy > sell {
      ShareAboveHalf(buy as real, total);
    } else if sell > buy {
      ShareAboveHalf(sell as real, total);
    }
  }

  /** A strict majority `x` of a positive total `t` is a share in (1/2, 1]. */
  lemma ShareAboveHalf(x: real, t: real)
    requires 0.0 < t && t < 2.0 * x && x <= t
    ensures 0.5 < x / t <= 1.0
  {
    var q := x / t;
    assert q * t == x;
    assert (q - 0.5) * t == x - 0.5 * t;
    assert (1.0 - q) * t == t - x;
  }

  /** Exchanging the two counts mirrors the signal and keeps the confidence. */
  lemma ClassifyMirror(buy: nat, sell: nat)
    ensures Classify(sell, buy) == Classify(buy, sell).Mirror()
    ensures Confidence(sell, buy) == Confidence(buy, sell)
  {
    assert (buy + sell) == (sell + buy);
  }

  // ---------------------------------------------------------------- details text

  /** The detail fragment `generateSignal` appends for one finding; `format1` is `String.format("%.1f", _)`. */
  function EnglishFragment(f: Finding, format1: real -> string): string {
    match f
    case RsiOversold(v) => "RSI Oversold(" + format1(v) + ") "
    case RsiOverbought(v) => "RSI Overbought(" + format1(v) + ") "
    case RsiBullish(_) => "RSI Bullish "
    case RsiBearish(_) => "RSI Bearish "
    case MacdCrossover => "MACD Crossover "
    case MacdCrossunder => "MACD Crossunder "
    case MacdBullish => "MACD Bullish "
    case MacdBearish => "MACD Bearish "
    case MaUptrend => "MA Uptrend "
    case MaDowntrend => "MA Downtrend "
    case PriceAboveEma12 => "Price>EMA12 "
    case PriceBelowEma12 => "Price<EMA12 "
    case BbBelowLower => "BB Lower "
    case BbAboveUpper => "BB Upper "
    case BbLowerHalf => "BB Lower Half "
    case BbUpperHalf => "BB Upper Half "
    case HighVolumeBuy => "High Volume "
    case HighVolumeSell => "High Volume "
  }

  /** The English fragments, as the text parameter of the shared blocks. */
  function English(format1: real -> string): Finding -> string {
    f => EnglishFragment(f, format1)
  }

  /** The fragment of what one rule found; nothing when it found nothing. */
  function TextOf(o: Option<Finding>, text: Finding -> string): string {
    if o.Some? then text(o.value) else ""
  }

  /** The details text: the fragments of the six rules in rule order. */
  function Details(f: RuleFindings, text: Finding -> string): string {
    TextOf(f.rsi, text) + TextOf(f.macd, text) + TextOf(f.ma, text)
      + TextOf(f.ema12, text) + TextOf(f.bollinger, text) + TextOf(f.volume, text)
  }

  // ---------------------------------------------------------------- the generator

  /** The result `generateSignal` returns, as a function of its inputs and of the detail fragments it appends. */
  function Generate(symbol: string, data: seq<StockData>, sma20: seq<Double>, sma50: seq<Double>,
                    ema12: seq<Double>, rsi: seq<Double>, macd: MACDResult, bb: BollingerBands,
                    text: Finding -> string): SignalResult
    requires |sma20| >= |data| && |sma50| >= |data| && |ema12| >= |data| && |rsi| >= |data|
    requires |macd.histogram| >= |data|
    requires |bb.upper| >= |data| && |bb.lower| >= |data| && |bb.middle| >= |data|
  {
    if |data| == 0 then SignalResult(symbol, 0, 0.0, "HOLD", 0.0, "No data available")
    else
      var f := LatestFindings(data, sma20, sma50, ema12, rsi, macd, bb);
      var buy, sell := TotalBuy(f), TotalSell(f);
      var latest := data[|data| - 1];
      SignalResult(symbol, latest.timestamp, latest.close, Classify(buy, sell).Label(), Confidence(buy, sell),
                   Details(f, text))
  }

  /** The "RSI signals" block of `generateSignal`. */
  method RsiSignals(rsi: seq<Double>, lastIdx: int, buy0: nat, sell0: nat, details0: string, text: Finding -> string)
    returns (buySignals: nat, sellSignals: nat, details: string)
    requires 0 <= lastIdx < |rsi|
    ensures buySignals == buy0 + BuyOf(RsiRule(rsi, lastIdx))
    ensures sellSignals == sell0 + SellOf(RsiRule(rsi, lastIdx))
    ensures details == details0 + TextOf(RsiRule(rsi, lastIdx), text)
  {
    buySignals, sellSignals, details := buy0, sell0, details0;
    if rsi[lastIdx].Some? {
      var v := rsi[lastIdx].value;
      if v < 30.0 {
        buySignals := buySignals + 2;
        details := details + text(RsiOversold(v));
      } else if v > 70.0 {
        sellSignals := sellSignals + 2;
        details := details + text(RsiOverbought(v));
      } else if v < 50.0 && lastIdx > 0 && Less(rsi[lastIdx - 1], rsi[lastIdx]) {
        buySignals := buySignals + 1;
        details := details + text(RsiBullish(v));
      } else if v > 50.0 && lastIdx > 0 && Less(rsi[lastIdx], rsi[lastIdx - 1]) {
        sellSignals := sellSignals + 1;
        details := details + text(RsiBearish(v));
      }
    }
  }

  /** The "MACD signals" block of `generateSignal`. */
  method MacdSignals(histogram: seq<Double>, lastIdx: int, buy0: nat, sell0: nat, details0: string, text: Finding -> string)
    returns (buySignals: nat, sellSignals: nat, details: string)
    requires 0 <= lastIdx < |histogram|
    ensures buySignals == buy0 + BuyOf(MacdRule(histogram, lastIdx))
    ensures sellSignals == sell0 + SellOf(MacdRule(histogram, lastIdx))
    ensures details == details0 + TextOf(MacdRule(histogram, lastIdx), text)
  {
    buySignals, sellSignals, details := buy0, sell0, details0;
    if lastIdx > 0 && histogram[lastIdx].Some? && histogram[lastIdx - 1].Some? {
      var prev, cur := histogram[lastIdx - 1].value, histogram[lastIdx].value;
      if prev < 0.0 && cur > 0.0 {
        buySignals := buySignals + 2;
        details := details + text(MacdCrossover);
      } else if prev > 0.0 && cur < 0.0 {
        sellSignals := sellSignals + 2;
        details := details + text(MacdCrossunder);
      } else if cur > 0.0 {
        buySignals := buySignals + 1;
        details := details + text(MacdBullish);
      } else if cur < 0.0 {
        sellSignals := sellSignals + 1;
        details := details + text(MacdBearish);
      }
    }
  }

  /** The moving-average and EMA12 blocks of `generateSignal`. */
  method TrendSignals(close: real, sma20: Double, sma50: Double, ema12: Double,
                      buy0: nat, sell0: nat, details0: string, text: Finding -> string)
    returns (buySignals: nat, sellSignals: nat, details: string)
    ensures buySignals == buy0 + BuyOf(MaRule(sma20, sma50)) + BuyOf(Ema12Rule(close, ema12))
    ensures sellSignals == sell0 + SellOf(MaRule(sma20, sma50)) + SellOf(Ema12Rule(close, ema12))
    ensures details == details0 + TextOf(MaRule(sma20, sma50), text) + TextOf(Ema12Rule(close, ema12), text)
  {
    buySignals, sellSignals, details := buy0, sell0, details0;
    if sma20.Some? && sma50.Some? {
      if sma20.value > sma50.value {
        buySignals := buySignals + 1;
        details := details + text(MaUptrend);
      } else {
        sellSignals := sellSignals + 1;
        details := details + text(MaDowntrend);
      }
    }
    ghost var afterMa := details;
    assert afterMa == details0 + TextOf(MaRule(sma20, sma50), text);
    if ema12.Some? && close > ema12.value {
      buySignals := buySignals + 1;
      details := details + text(PriceAboveEma12);
    } else if ema12.Some? {
      sellSignals := sellSignals + 1;
      details := details + text(PriceBelowEma12);
    }
    assert details == afterMa + TextOf(Ema12Rule(close, ema12), text);
  }

  /** The "Bollinger Bands signals" block of `generateSignal`. */
  method BollingerSignals(close: real, upper: Double, lower: Double, middle: Double,
                          buy0: nat, sell0: nat, details0: string, text: Finding -> string)
    returns (buySignals: nat, sellSignals: nat, details: string)
    ensures buySignals == buy0 + BuyOf(BollingerRule(close, upper, lower, middle))
    ensures sellSignals == sell0 + SellOf(BollingerRule(close, upper, lower, middle))
    ensures details == details0 + TextOf(BollingerRule(close, upper, lower, middle), text)
  {
    buySignals, sellSignals, details := buy0, sell0, details0;
    if upper.Some? && lower.Some? {
      if close < lower.value {
        buySignals := buySignals + 2;
        details := details + text(BbBelowLower);
      } else if close > upper.value {
        sellSignals := sellSignals + 2;
        details := details + text(BbAboveUpper);
      } else if Above(middle, close) {
        buySignals := buySignals + 1;
        details := details + text(BbLowerHalf);
      } else {
        sellSignals := sellSignals + 1;
        details := details + text(BbUpperHalf);
      }
    }
  }

  /** The "Volume signal" block of `generateSignal`, with its averaging loop. */
  method VolumeSignal(data: seq<StockData>, buy0: nat, sell0: nat, details0: string, text: Finding -> string)
    returns (buySignals: nat, sellSignals: nat, details: string)
    requires |data| > 0
    ensures buySignals == buy0 + BuyOf(VolumeRule(data, buy0, sell0))
    ensures sellSignals == sell0 + SellOf(VolumeRule(data, buy0, sell0))
    ensures details == details0 + TextOf(VolumeRule(data, buy0, sell0), text)
  {
    buySignals, sellSignals, details := buy0, sell0, details0;
    var lastIdx := |data| - 1;
    if lastIdx > 0 {
      var avgVolume := 0.0;
      var volumeCount := Min(20, lastIdx);
      for i := lastIdx - volumeCount to lastIdx
        invariant avgVolume == Sum(Volumes(data), lastIdx - volumeCount, i)
      {
        avgVolume := avgVolume + data[i].volume as real;
      }
      avgVolume := avgVolume / volumeCount as real;
      if data[lastIdx].volume as real > avgVolume * 1.5 {
        if buySignals > sellSignals {
          buySignals := buySignals + 1;
          details := details + text(HighVolumeBuy);
        } else {
          sellSignals := sellSignals + 1;
          details := details + text(HighVolumeSell);
        }
      }
    }
  }

  /** The "Determine final signal" block of `generateSignal`. */
  method DetermineSignal(buySignals: nat, sellSignals: nat) returns (signal: string, confidence: real)
    ensures signal == Classify(buySignals, sellSignals).Label()
    ensures confidence == Confidence(buySignals, sellSignals)
  {
    signal := "HOLD";
    confidence := 0.0;
    if buySignals as real > sellSignals as real * 1.5 {
      signal := "STRONG_BUY";
      confidence := MinReal(100.0, buySignals as real / (buySignals + sellSignals) as real * 100.0);
    } else if buySignals > sellSignals {
      signal := "BUY";
      confidence := MinReal(100.0, buySignals as real / (buySignals + sellSignals) as real * 100.0);
    } else if sellSignals as real > buySignals as real * 1.5 {
      signal := "STRONG_SELL";
      confidence := MinReal(100.0, sellSignals as real / (buySignals + sellSignals) as real * 100.0);
    } else if sellSignals > buySignals {
      signal := "SELL";
      confidence := MinReal(100.0, sellSignals as real / (buySignals + sellSignals) as real * 100.0);
    } else {
      confidence := 50.0;
    }
  }

  /**
   * The body of `generateSignal`: the five blocks in source order, then the
   * decision. The detail fragments are a parameter, because the two
   * generators differ only in them.
   */
  method GenerateSignalWith(symbol: string, data: seq<StockData>, sma20: seq<Double>, sma50: seq<Double>,
                        ema12: seq<Double>, rsi: seq<Double>, macd: MACDResult, bb: BollingerBands,
                        text: Finding -> string) returns (r: SignalResult)
    requires |sma20| >= |data| && |sma50| >= |data| && |ema12| >= |data| && |rsi| >= |data|
    requires |macd.histogram| >= |data|
    requires |bb.upper| >= |data| && |bb.lower| >= |data| && |bb.middle| >= |data|
    ensures r == Generate(symbol, data, sma20, sma50, ema12, rsi, macd, bb, text)
  {
    if |data| == 0 {
      return SignalResult(symbol, 0, 0.0, "HOLD", 0.0, "No data available");
    }
    var latest := data[|data| - 1];
    var lastIdx := |data| - 1;
    var buySignals, sellSignals, details := 0, 0, "";
    assert "" + TextOf(RsiRule(rsi, lastIdx), text) == TextOf(RsiRule(rsi, lastIdx), text);
    buySignals, sellSignals, details := RsiSignals(rsi, lastIdx, buySignals, sellSignals, details, text);
    buySignals, sellSignals, details := MacdSignals(macd.histogram, lastIdx, buySignals, sellSignals, details, text);
    buySignals, sellSignals, details := TrendSignals(latest.close, sma20[lastIdx], sma50[lastIdx], ema12[lastIdx],
                                                     buySignals, sellSignals, details, text);
    buySignals, sellSignals, details := BollingerSignals(latest.close, bb.upper[lastIdx], bb.lower[lastIdx],
                                                         bb.middle[lastIdx], buySignals, sellSignals, details, text);
    ghost var f := LatestFindings(data, sma20, sma50, ema12, rsi, macd, bb);
    assert buySignals == IndicatorBuy(f) && sellSignals == IndicatorSell(f);
    assert details == TextOf(f.rsi, text) + TextOf(f.macd, text) + TextOf(f.ma, text)
                      + TextOf(f.ema12, text) + TextOf(f.bollinger, text);
    buySignals, sellSignals, details := VolumeSignal(data, buySignals, sellSignals, details, text);
    assert buySignals == TotalBuy(f) && sellSignals == TotalSell(f) && details == Details(f, text);

    var signal, confidence := DetermineSignal(buySignals, sellSignals);
    r := SignalResult(symbol, latest.timestamp, latest.close, signal, confidence, details);
  }

  /** `generateSignal`, with the English detail fragments. */
  method GenerateSignal(symbol: string, data: seq<StockData>, sma20: seq<Double>, sma50: seq<Double>,
                        ema12: seq<Double>, rsi: seq<Double>, macd: MACDResult, bb: BollingerBands,
                        format1: real -> string) returns (r: SignalResult)
    requires |sma20| >= |data| && |sma50| >= |data| && |ema12| >= |data| && |rsi| >= |data|
    requires |macd.histogram| >= |data|
    requires |bb.upper| >= |data| && |bb.lower| >= |data| && |bb.middle| >= |data|
    ensures r == Generate(symbol, data, sma20, sma50, ema12, rsi, macd, bb, English(format1))
  {
    r := GenerateSignalWith(symbol, data, sma20, sma50, ema12, rsi, macd, bb, English(format1));
  }

  // ---------------------------------------------------------------- properties of the result

  /** RSI, MACD and Bollinger add at most two votes each, MA, EMA12 and volume at most one, so at most 9 are cast. */
  lemma VotesBounded(data: seq<StockData>, sma20: seq<Double>, sma50: seq<Double>, ema12: seq<Double>,
                     rsi: seq<Double>, macd: MACDResult, bb: BollingerBands)
    requires |data| > 0
    requires |sma20| >= |data| && |sma50| >= |data| && |ema12| >= |data| && |rsi| >= |data|
    requires |macd.histogram| >= |data|
    requires |bb.upper| >= |data| && |bb.lower| >= |data| && |bb.middle| >= |data|
    ensures var f := LatestFindings(data, sma20, sma50, ema12, rsi, macd, bb);
            && BuyOf(f.rsi) + SellOf(f.rsi) <= 2 && BuyOf(f.macd) + SellOf(f.macd) <= 2
            && BuyOf(f.ma) + SellOf(f.ma) <= 1 && BuyOf(f.ema12) + SellOf(f.ema12) <= 1
            && BuyOf(f.bollinger) + SellOf(f.bollinger) <= 2 && BuyOf(f.volume) + SellOf(f.volume) <= 1
            && TotalBuy(f) + TotalSell(f) <= 9
  {
    var f := LatestFindings(data, sma20, sma50, ema12, rsi, macd, bb);
    if f.rsi.Some? { FindingVotesOneSide(f.rsi.value); }
    if f.macd.Some? { FindingVotesOneSide(f.macd.value); }
    if f.bollinger.Some? { FindingVotesOneSide(f.bollinger.value); }
  }

  /**
   * Empty data gives HOLD with confidence, timestamp and price 0. Otherwise the result carries the latest bar,
   * and its signal and confidence follow the vote counts.
   */
  lemma GenerateProperties(symbol: string, data: seq<StockData>, sma20: seq<Double>, sma50: seq<Double>,
                           ema12: seq<Double>, rsi: seq<Double>, macd: MACDResult, bb: BollingerBands,
                           text: Finding -> string)
    requires |sma20| >= |data| && |sma50| >= |data| && |ema12| >= |data| && |rsi| >= |data|
    requires |macd.histogram| >= |data|
    requires |bb.upper| >= |data| && |bb.lower| >= |data| && |bb.middle| >= |data|
    ensures |data| == 0 ==>
              var r := Generate(symbol, data, sma20, sma50, ema12, rsi, macd, bb, text);
              r.signal == "HOLD" && r.confidence == 0.0 && r.timestamp == 0 && r.price == 0.0
    ensures |data| > 0 ==>
              var r := Generate(symbol, data, sma20, sma50, ema12, rsi, macd, bb, text);
              var f := LatestFindings(data, sma20, sma50, ema12, rsi, macd, bb);
              var buy, sell := TotalBuy(f), TotalSell(f);
              && r.timestamp == data[|data| - 1].timestamp && r.price == data[|data| - 1].close
              && (r.signal == "HOLD" <==> buy == sell)
              && (r.signal in {"STRONG_BUY", "BUY"} <==> buy > sell)
              && (r.signal in {"STRONG_SELL", "SELL"} <==> sell > buy)
              && (r.signal == "STRONG_BUY" <==> buy as real > 1.5 * sell as real)
              && (r.signal == "STRONG_SELL" <==> sell as real > 1.5 * buy as real)
              && (r.signal == "HOLD" ==> r.confidence == 50.0)
              && (r.signal != "HOLD" ==> 50.0 < r.confidence <= 100.0)
  {
    if |data| > 0 {
      var f := LatestFindings(data, sma20, sma50, ema12, rsi, macd, bb);
      ClassifySides(TotalBuy(f), TotalSell(f));
      ClassifyStrong(TotalBuy(f), TotalSell(f));
      ConfidenceRange(TotalBuy(f), TotalSell(f));
    }
  }
}
