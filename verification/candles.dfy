/** The OHLC quadruple that every part of the chart pipeline consumes. */
module Candles {

  /** One candle: the (open, high, low, close) tuple, in the source's tuple order. */
  datatype Candle = Candle(open: real, high: real, low: real, close: real)

  /** Errors the pipeline can raise. */
  datatype ChartError =
    | EmptySequence   // `min()`/`max()` over an empty series (Python `ValueError`)
    | DivisionByZero  // `chart_width / len(data)` with no candles (Python `ZeroDivisionError`)
    | InvertedBox     // `rounded_rectangle` given a second corner left of or above the first (Pillow `ValueError`)

  function Min(a: real, b: real): (m: real)
    ensures m <= a && m <= b
    ensures m == a || m == b
  {
    if a <= b then a else b
  }

  function Max(a: real, b: real): (m: real)
    ensures a <= m && b <= m
    ensures m == a || m == b
  {
    if a >= b then a else b
  }

  function Abs(x: real): (r: real)
    ensures r >= 0.0
    ensures r == x || r == -x
  {
    if x < 0.0 then -x else x
  }

  /** The domain invariant of a candle: the wick range encloses the body range. */
  predicate WellFormed(c: Candle) {
    c.low <= Min(c.open, c.close) && Max(c.open, c.close) <= c.high
  }

  /** Bullish candles (ties included) are drawn in the bull colour. */
  predicate IsBull(c: Candle) {
    c.close >= c.open
  }
}
