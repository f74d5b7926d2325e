/** The price range and pixel scale derived from a series and the canvas size. */
module ChartMetrics {
  import opened Wrappers
  import opened Candles

  /** Amount a flat price range is widened by; exact in this model (no float rounding). */
  const Epsilon: real := 0.00001

  datatype Metrics = Metrics(minVal: real, maxVal: real, chartWidth: int, chartHeight: int, yScale: real)

  /** `min(d[2] for d in data)`: the lowest low of a non-empty series. */
  function MinLow(data: seq<Candle>): (m: real)
    requires |data| > 0
    ensures forall i :: 0 <= i < |data| ==> m <= data[i].low
    ensures exists i :: 0 <= i < |data| && data[i].low == m
  {
    if |data| == 1 then data[0].low
    else
      var rest := MinLow(data[1..]);
      assert forall i :: 1 <= i < |data| ==> data[1..][i - 1] == data[i];
      Min(data[0].low, rest)
  }

  /** `max(d[1] for d in data)`: the highest high of a non-empty series. */
  function MaxHigh(data: seq<Candle>): (m: real)
    requires |data| > 0
    ensures forall i :: 0 <= i < |data| ==> data[i].high <= m
    ensures exists i :: 0 <= i < |data| && data[i].high == m
  {
    if |data| == 1 then data[0].high
    else
      var rest := MaxHigh(data[1..]);
      assert forall i :: 1 <= i < |data| ==> data[1..][i - 1] == data[i];
      Max(data[0].high, rest)
  }

  /**
   * `max_val` after the degenerate-range guard: the highest high, unless that
   * does not exceed the lowest low, in which case `min_val + Epsilon`.
   */
  function RangeTop(data: seq<Candle>): (top: real)
    requires |data| > 0
    ensures MinLow(data) < top
    ensures forall i :: 0 <= i < |data| ==> data[i].high <= top
    ensures MinLow(data) < MaxHigh(data) ==> top == MaxHigh(data)
    ensures MaxHigh(data) <= MinLow(data) ==> top == MinLow(data) + Epsilon
  {
    var minVal := MinLow(data);
    var maxHigh := MaxHigh(data);
    if maxHigh <= minVal then minVal + Epsilon else maxHigh
  }

  /** `chart_height / (max_val - min_val)`: pixels per unit of price. */
  function YScale(chartHeight: int, range: real): real
    requires range > 0.0
  {
    chartHeight as real / range
  }

  /** Dividing by a positive amount keeps the sign of the numerator and is undone by multiplying back. */
  lemma QuotientSign(a: real, d: real)
    requires d > 0.0
    ensures (a / d) * d == a
    ensures a / d > 0.0 <==> a > 0.0
    ensures a / d == 0.0 <==> a == 0.0
  {
    if a > 0.0 {
      assert a / d > 0.0;
    } else if a < 0.0 {
      assert a / d < 0.0;
    }
  }

  /**
   * `_calculate_metrics`. The range is widened to `min + Epsilon` when it is flat
   * (or inverted by malformed input); an empty series raises.
   */
  function CalculateMetrics(data: seq<Candle>, imgWidth: int, imgHeight: int, padding: int): (r: Result<Metrics, ChartError>)
    ensures r.Failure? <==> |data| == 0
    ensures r.Failure? ==> r.error == EmptySequence
    ensures r.Success? ==>
              && (forall i :: 0 <= i < |data| ==> r.value.minVal <= data[i].low)
              && (exists i :: 0 <= i < |data| && data[i].low == r.value.minVal)
              && (forall i :: 0 <= i < |data| ==> data[i].high <= r.value.maxVal)
              && r.value.minVal < r.value.maxVal
    ensures r.Success? ==>
              && (MinLow(data) < MaxHigh(data) ==> r.value.maxVal == MaxHigh(data))
              && (MaxHigh(data) <= MinLow(data) ==> r.value.maxVal == r.value.minVal + Epsilon)
    ensures r.Success? ==>
              && r.value.chartWidth == imgWidth - 2 * padding
              && r.value.chartHeight == imgHeight - 2 * padding
  {
    if |data| == 0 then Failure(EmptySequence)
    else
      var minVal := MinLow(data);
      var maxVal := RangeTop(data);
      var chartHeight := imgHeight - 2 * padding;
      Success(Metrics(minVal, maxVal, imgWidth - 2 * padding, chartHeight, YScale(chartHeight, maxVal - minVal)))
  }

  /**
   * The scale of `_calculate_metrics` stretches the price range over exactly
   * the plot height, and it is positive (zero) exactly when that height is.
   */
  lemma ScaleFitsPlot(data: seq<Candle>, imgWidth: int, imgHeight: int, padding: int)
    requires |data| > 0
    ensures var m := CalculateMetrics(data, imgWidth, imgHeight, padding).value;
            && m.yScale * (m.maxVal - m.minVal) == m.chartHeight as real
            && (m.yScale > 0.0 <==> m.chartHeight > 0)
            && (m.yScale == 0.0 <==> m.chartHeight == 0)
  {
    var m := CalculateMetrics(data, imgWidth, imgHeight, padding).value;
    QuotientSign(m.chartHeight as real, m.maxVal - m.minVal);
  }
}
