/**
 * One row of the candle table the exchange returns (timestamp and volume are
 * not part of this model), and facts about a series of them.
 */
module Ohlc {
  datatype Bar = Bar(open: real, high: real, low: real, close: real)

  /** Every closing price is positive, as exchange data always is. */
  predicate PositiveCloses(s: seq<Bar>)
  {
    forall i :: 0 <= i < |s| ==> s[i].close > 0.0
  }

  /** The close column of a series. */
  function Closes(s: seq<Bar>): (c: seq<real>)
    ensures |c| == |s|
    ensures forall i :: 0 <= i < |s| ==> c[i] == s[i].close
  {
    seq(|s|, i requires 0 <= i < |s| => s[i].close)
  }
}
