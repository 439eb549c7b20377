/**
 * The earlier version of the signal generator. Its vote rules, counters,
 * classification and confidence are those of `SignalGenerator`; it differs
 * only in the detail text, which is Turkish HTML, and in printing the RSI
 * value for the trend findings as well.
 */
module SignalGeneratorOldBackup {
  import opened Wrappers
  import opened Doubles
  import opened Stocks
  import opened TechnicalIndicators
  import opened SignalGenerator

  /** The detail fragment the earlier `generateSignal` appends for one finding; `format1` is `String.format("%.1f", _)`. */
  function TurkishFragment(f: Finding, format1: real -> string): string {
    match f
    case RsiOversold(v) => "<strong>RSI (Göreceli Güç Endeksi):</strong> Aşırı Satış (" + format1(v) + ")<br>"
    case RsiOverbought(v) => "<strong>RSI (Göreceli Güç Endeksi):</strong> Aşırı Alım (" + format1(v) + ")<br>"
    case RsiBullish(v) => "<strong>RSI (Göreceli Güç Endeksi):</strong> Boğa Trendinde (" + format1(v) + ")<br>"
    case RsiBearish(v) => "<strong>RSI (Göreceli Güç Endeksi):</strong> Ayı Trendinde (" + format1(v) + ")<br>"
    case MacdCrossover => "<strong>MACD (Hareketli Ortalama Yakınsama Iraksama):</strong> Altın Kesişim<br>"
    case MacdCrossunder => "<strong>MACD (Hareketli Ortalama Yakınsama Iraksama):</strong> Ölüm Kesişimi<br>"
    case MacdBullish => "<strong>MACD (Hareketli Ortalama Yakınsama Iraksama):</strong> Boğa Sinyali<br>"
    case MacdBearish => "<strong>MACD (Hareketli Ortalama Yakınsama Iraksama):</strong> Ayı Sinyali<br>"
    case MaUptrend => "<strong>MA (Hareketli Ortalama):</strong> SMA20 > SMA50 - Yukarı Trend<br>"
    case MaDowntrend => "<strong>MA (Hareketli Ortalama):</strong> SMA20 < SMA50 - Aşağı Trend<br>"
    case PriceAboveEma12 => "<strong>EMA12 (Üstel Hareketli Ortalama):</strong> Fiyat Üstünde<br>"
    case PriceBelowEma12 => "<strong>EMA12 (Üstel Hareketli Ortalama):</strong> Fiyat Altında<br>"
    case BbBelowLower => "<strong>Bollinger Bantları:</strong> Alt Bant Altında - Aşırı Satış<br>"
    case BbAboveUpper => "<strong>Bollinger Bantları:</strong> Üst Bant Üstünde - Aşırı Alım<br>"
    case BbLowerHalf => "<strong>Bollinger Bantları:</strong> Alt Yarısında<br>"
    case BbUpperHalf => "<strong>Bollinger Bantları:</strong> Üst Yarısında<br>"
    case HighVolumeBuy => "<strong>Hacim:</strong> Yüksek Alış Hacmi<br>"
    case HighVolumeSell => "<strong>Hacim:</strong> Yüksek Satış Hacmi<br>"
  }

  /** The Turkish fragments, as the text parameter of the shared blocks. */
  function Turkish(format1: real -> string): Finding -> string {
    f => TurkishFragment(f, format1)
  }

  /** The earlier `generateSignal`: the same blocks, appending the Turkish fragments. */
  method GenerateSignal(symbol: string, data: seq<StockData>, sma20: seq<Double>, sma50: seq<Double>,
                        ema12: seq<Double>, rsi: seq<Double>, macd: MACDResult, bb: BollingerBands,
                        format1: real -> string) returns (r: SignalResult)
    requires |sma20| >= |data| && |sma50| >= |data| && |ema12| >= |data| && |rsi| >= |data|
    requires |macd.histogram| >= |data|
    requires |bb.upper| >= |data| && |bb.lower| >= |data| && |bb.middle| >= |data|
    ensures r == Generate(symbol, data, sma20, sma50, ema12, rsi, macd, bb, Turkish(format1))
  {
    r := GenerateSignalWith(symbol, data, sma20, sma50, ema12, rsi, macd, bb, Turkish(format1));
  }

  /** For the same inputs both generators return the same symbol, bar, signal and confidence; only the details differ. */
  lemma SameDecisionAsCurrent(symbol: string, data: seq<StockData>, sma20: seq<Double>, sma50: seq<Double>,
                              ema12: seq<Double>, rsi: seq<Double>, macd: MACDResult, bb: BollingerBands,
                              format1: real -> string)
    requires |sma20| >= |data| && |sma50| >= |data| && |ema12| >= |data| && |rsi| >= |data|
    requires |macd.histogram| >= |data|
    requires |bb.upper| >= |data| && |bb.lower| >= |data| && |bb.middle| >= |data|
    ensures var old_ := Generate(symbol, data, sma20, sma50, ema12, rsi, macd, bb, Turkish(format1));
            var new_ := Generate(symbol, data, sma20, sma50, ema12, rsi, macd, bb, English(format1));
            && old_.symbol == new_.symbol && old_.timestamp == new_.timestamp && old_.price == new_.price
            && old_.signal == new_.signal && old_.confidence == new_.confidence
  {
  }

  /** The RSI, MACD, MA and Bollinger rules only vote when the indicator values they read are defined. */
  lemma VotesNeedDefinedValues(data: seq<StockData>, sma20: seq<Double>, sma50: seq<Double>, ema12: seq<Double>,
                               rsi: seq<Double>, macd: MACDResult, bb: BollingerBands)
    requires |data| > 0
    requires |sma20| >= |data| && |sma50| >= |data| && |ema12| >= |data| && |rsi| >= |data|
    requires |macd.histogram| >= |data|
    requires |bb.upper| >= |data| && |bb.lower| >= |data| && |bb.middle| >= |data|
    ensures var f := LatestFindings(data, sma20, sma50, ema12, rsi, macd, bb);
            var last := |data| - 1;
            && (BuyOf(f.rsi) + SellOf(f.rsi) > 0 ==> rsi[last].Some?)
            && (BuyOf(f.macd) + SellOf(f.macd) > 0 ==> macd.histogram[last].Some? && macd.histogram[last - 1].Some?)
            && (BuyOf(f.ma) + SellOf(f.ma) > 0 ==> sma20[last].Some? && sma50[last].Some?)
            && (BuyOf(f.bollinger) + SellOf(f.bollinger) > 0 ==> bb.upper[last].Some? && bb.lower[last].Some?)
  {
  }

  /** Empty data gives HOLD with confidence 0; otherwise HOLD exactly on a tie, with confidence 50. */
  lemma HoldOnTie(symbol: string, data: seq<StockData>, sma20: seq<Double>, sma50: seq<Double>,
                  ema12: seq<Double>, rsi: seq<Double>, macd: MACDResult, bb: BollingerBands,
                  format1: real -> string)
    requires |sma20| >= |data| && |sma50| >= |data| && |ema12| >= |data| && |rsi| >= |data|
    requires |macd.histogram| >= |data|
    requires |bb.upper| >= |data| && |bb.lower| >= |data| && |bb.middle| >= |data|
    ensures var r := Generate(symbol, data, sma20, sma50, ema12, rsi, macd, bb, Turkish(format1));
            && (|data| == 0 ==> r.signal == "HOLD" && r.confidence == 0.0 && r.timestamp == 0 && r.price == 0.0)
            && (|data| > 0 ==>
                  var f := LatestFindings(data, sma20, sma50, ema12, rsi, macd, bb);
                  (r.signal == "HOLD" <==> TotalBuy(f) == TotalSell(f))
                  && (r.signal == "HOLD" ==> r.confidence == 50.0))
  {
    if |data| > 0 {
      GenerateProperties(symbol, data, sma20, sma50, ema12, rsi, macd, bb, Turkish(format1));
    }
  }
}
