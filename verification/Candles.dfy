/** A candle, one bar of prices and traded volume, and the extremes of a stretch of them. */
module Candles {
  import opened Prelude

  datatype Candle = Candle(timestamp: int, open: real, high: real, low: real, close: real, volume: real)

  function Highest(window: seq<Candle>): real
    requires window != []
  {
    if |window| == 1 then window[0].high
    else Max(Highest(window[..|window| - 1]), window[|window| - 1].high)
  }

  function Lowest(window: seq<Candle>): real
    requires window != []
  {
    if |window| == 1 then window[0].low
    else Min(Lowest(window[..|window| - 1]), window[|window| - 1].low)
  }

  lemma {:induction false} HighestBounds(window: seq<Candle>)
    requires window != []
    ensures forall i :: 0 <= i < |window| ==> window[i].high <= Highest(window)
    ensures exists i :: 0 <= i < |window| && window[i].high == Highest(window)
  {
    var n := |window| - 1;
    if n > 0 {
      HighestBounds(window[..n]);
      var i :| 0 <= i < n && window[..n][i].high == Highest(window[..n]);
      assert window[i].high == Highest(window) || window[n].high == Highest(window);
    } else {
      assert window[0].high == Highest(window);
    }
  }

  lemma {:induction false} LowestBounds(window: seq<Candle>)
    requires window != []
    ensures forall i :: 0 <= i < |window| ==> Lowest(window) <= window[i].low
    ensures exists i :: 0 <= i < |window| && window[i].low == Lowest(window)
  {
    var n := |window| - 1;
    if n > 0 {
      LowestBounds(window[..n]);
      var i :| 0 <= i < n && window[..n][i].low == Lowest(window[..n]);
      assert window[i].low == Lowest(window) || window[n].low == Lowest(window);
    } else {
      assert window[0].low == Lowest(window);
    }
  }
}
