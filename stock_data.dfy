/** One OHLCV bar of a price series, immutable once read. */
module Stocks {
  datatype StockData = StockData(
    symbol: string,
    timestamp: int,     // epoch milliseconds
    open: real,
    high: real,
    low: real,
    close: real,
    volume: nat)

  /** The closing prices of a series, index-aligned with it. */
  function Closes(data: seq<StockData>): (c: seq<real>)
    ensures |c| == |data| && forall i :: 0 <= i < |data| ==> c[i] == data[i].close
  {
    seq(|data|, i requires 0 <= i < |data| => data[i].close)
  }

  /** The volumes of a series as reals, index-aligned with it. */
  function Volumes(data: seq<StockData>): (v: seq<real>)
    ensures |v| == |data| && forall i :: 0 <= i < |data| ==> v[i] == data[i].volume as real
  {
    seq(|data|, i requires 0 <= i < |data| => data[i].volume as real)
  }
}
