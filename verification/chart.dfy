/**
 * `generate_chart` without the image I/O: choose the series, compute the
 * metrics and emit the overlay's draw commands in z-order.
 */
module Chart {
  import opened Wrappers
  import opened Candles
  import opened DataSource
  import opened ChartMetrics
  import opened Scene
  import opened Layers

  /** `data or ...`: both a missing and an empty series fall back to the generator. */
  predicate NeedsGeneration(data: Option<seq<Candle>>) {
    data.None? || |data.value| == 0
  }

  /** The series that is charted: the caller's data, or a fresh walk of `dataPoints` steps. */
  function ChartSeries(data: Option<seq<Candle>>, dataPoints: int, seed: real, ds: seq<Draw>): seq<Candle>
    requires NeedsGeneration(data) ==> dataPoints <= |ds|
  {
    if NeedsGeneration(data) then Walk(seed, ds[..StepCount(dataPoints)]) else data.value
  }

  /** The frame `_draw_candles` is called with. */
  function FrameOf(m: Metrics, height: int): CandleFrame {
    CandleFrame(m.minVal, m.chartWidth, height, m.yScale)
  }

  /** Index of the first candle command in a chart: after the panel and the gridlines. */
  const CandleBase: nat := 1 + GridLineCount

  /** The overlay's layers stacked bottom to top: panel, grid, candles, label. */
  function Stack(panel: DrawCmd, grid: seq<DrawCmd>, candles: seq<DrawCmd>, text: DrawCmd): (r: seq<DrawCmd>)
    ensures |r| == |grid| + |candles| + 2
    ensures r[0] == panel && r[|r| - 1] == text
    ensures forall i :: 0 <= i < |grid| ==> r[1 + i] == grid[i]
    ensures forall j :: 0 <= j < |candles| ==> r[1 + |grid| + j] == candles[j]
  {
    [panel] + grid + candles + [text]
  }

  /**
   * The overlay drawn with metrics `m` for a non-empty series: the body of
   * `generate_chart` between computing the metrics and compositing.
   */
  function Overlay(style: Style, width: int, height: int, series: seq<Candle>, m: Metrics, font: Font): (r: seq<DrawCmd>)
    requires DrawCandles(style, FrameOf(m, height), series).Success?
    ensures |r| == CandleBase + 2 * |series| + 1
  {
    Stack(DrawChartBackground(style, width, height),
          DrawGrid(style, width, height, m.chartHeight),
          DrawCandles(style, FrameOf(m, height), series).value,
          DrawLabel(style, font))
  }

  /**
   * The overlay for a series on a canvas of `width` x `height`, drawn with the
   * series' own metrics. An empty series fails where the source's `min()`
   * raises; otherwise the chart fails only where the image library rejects an
   * inverted box: the panel, or (since all bodies share one width) the first
   * candle body.
   */
  function ChartScene(style: Style, width: int, height: int, series: seq<Candle>, font: Font): (r: Result<seq<DrawCmd>, ChartError>)
    ensures |series| == 0 ==> r == Failure(EmptySequence)
    ensures |series| > 0 ==>
              var m := CalculateMetrics(series, width, height, style.padding).value;
              && (r.Success? <==>
                    Upright(DrawChartBackground(style, width, height)) && DrawCandles(style, FrameOf(m, height), series).Success?)
              && (r.Failure? ==> r.error == InvertedBox)
              && (r.Success? ==> r.value == Overlay(style, width, height, series, m, font))
  {
    var m :- CalculateMetrics(series, width, height, style.padding);
    if !Upright(DrawChartBackground(style, width, height)) then Failure(InvertedBox)
    else
      var candles :- DrawCandles(style, FrameOf(m, height), series);
      Success(Overlay(style, width, height, series, m, font))
  }

  /** Two amounts of the same sign give products of the same sign with any third. */
  lemma SameSignProduct(a: real, b: real, c: real)
    requires (a > 0.0 <==> b > 0.0) && (a == 0.0 <==> b == 0.0)
    ensures a * c >= 0.0 <==> b * c >= 0.0
  {
    if a > 0.0 && c < 0.0 {
      MulStrict(c, 0.0, a);
      MulStrict(c, 0.0, b);
    } else if a < 0.0 && c > 0.0 {
      MulStrict(a, 0.0, c);
      MulStrict(b, 0.0, c);
    } else if a < 0.0 && c <= 0.0 {
      MulMono(c, 0.0, -a);
      MulMono(c, 0.0, -b);
    } else if a > 0.0 {
      MulMono(0.0, c, a);
      MulMono(0.0, c, b);
    }
  }

  /**
   * Once the series is non-empty, the chart is drawn exactly when the canvas is
   * no smaller than `2 padding - 20` in either direction (so the panel box is not
   * inverted) and the plot width and the candle width ratio are not of opposite
   * signs (so the bodies are not inverted).
   */
  lemma ChartDrawable(style: Style, width: int, height: int, series: seq<Candle>, font: Font)
    requires |series| > 0
    ensures ChartScene(style, width, height, series, font).Success? <==>
              && width - 2 * style.padding + 2 * PanelMargin >= 0
              && height - 2 * style.padding + 2 * PanelMargin >= 0
              && (width - 2 * style.padding) as real * style.candleWidthRatio >= 0.0
  {
    var m := CalculateMetrics(series, width, height, style.padding).value;
    BodiesDrawable(style, FrameOf(m, height), series, width - 2 * style.padding);
  }

  /** The candle layer can be drawn exactly when the plot width and the width ratio are not of opposite signs. */
  lemma BodiesDrawable(style: Style, f: CandleFrame, series: seq<Candle>, chartWidth: int)
    requires |series| > 0 && f.chartWidth == chartWidth
    ensures DrawCandles(style, f, series).Success? <==> chartWidth as real * style.candleWidthRatio >= 0.0
  {
    var n := |series|;
    var cw := chartWidth as real;
    assert Upright(BodyCmd(style, f, n, 0, series[0])) <==> CandleWidth(style, f, n) >= 0.0;
    QuotientSign(cw, n as real);
    SameSignProduct(SlotWidth(f, n), cw, style.candleWidthRatio);
  }

  /**
   * `generate_chart` without the image I/O: the caller's series when it is
   * non-empty, otherwise a walk of `dataPoints` steps, charted with the label
   * font that could be loaded. `min()` fails exactly when the generator is asked
   * for no candles; any other failure is an inverted box (see `ChartDrawable`).
   */
  function GenerateChart(style: Style, width: int, height: int, data: Option<seq<Candle>>, dataPoints: int,
                         seed: real, ds: seq<Draw>, fontLoads: bool): (r: Result<seq<DrawCmd>, ChartError>)
    requires ValidSeed(seed) && ValidDraws(ds)
    requires NeedsGeneration(data) ==> dataPoints <= |ds|
    ensures (r.Failure? && r.error == EmptySequence) <==> NeedsGeneration(data) && dataPoints <= 0
    ensures r.Failure? ==> r.error == EmptySequence || r.error == InvertedBox
    ensures !NeedsGeneration(data) ==> r == ChartScene(style, width, height, data.value, ResolveFont(style, fontLoads))
    ensures NeedsGeneration(data) ==>
              r == ChartScene(style, width, height, Walk(seed, ds[..StepCount(dataPoints)]), ResolveFont(style, fontLoads))
  {
    ChartScene(style, width, height, ChartSeries(data, dataPoints, seed, ds), ResolveFont(style, fontLoads))
  }

  /**
   * Where everything lands in the overlay: the panel first, gridline `i` at
   * `1 + i`, the wick of candle `idx` at `CandleBase + 2 idx` with its body right
   * after it, and the label last.
   */
  lemma OverlayPlacement(style: Style, width: int, height: int, series: seq<Candle>, m: Metrics, font: Font)
    requires |series| > 0 && DrawCandles(style, FrameOf(m, height), series).Success?
    ensures var scene := Overlay(style, width, height, series, m, font);
            && scene[0] == DrawChartBackground(style, width, height)
            && (forall i :: 0 <= i < GridLineCount ==> scene[1 + i] == GridLine(style, width, height, m.chartHeight, i))
            && (forall idx :: 0 <= idx < |series| ==>
                  && scene[CandleBase + 2 * idx] == WickCmd(style, FrameOf(m, height), |series|, idx, series[idx])
                  && scene[CandleBase + 2 * idx + 1] == BodyCmd(style, FrameOf(m, height), |series|, idx, series[idx]))
            && scene[|scene| - 1] == DrawLabel(style, font)
  {
    var f := FrameOf(m, height);
    var grid := DrawGrid(style, width, height, m.chartHeight);
    var candles := DrawCandles(style, f, series).value;
    var scene := Stack(DrawChartBackground(style, width, height), grid, candles, DrawLabel(style, font));
    forall idx | 0 <= idx < |series|
      ensures scene[CandleBase + 2 * idx] == WickCmd(style, f, |series|, idx, series[idx])
      ensures scene[CandleBase + 2 * idx + 1] == BodyCmd(style, f, |series|, idx, series[idx])
    {
      assert candles[2 * idx] == WickCmd(style, f, |series|, idx, series[idx]);
      assert candles[2 * idx + 1] == BodyCmd(style, f, |series|, idx, series[idx]);
      assert scene[1 + |grid| + 2 * idx] == candles[2 * idx];
      assert scene[1 + |grid| + (2 * idx + 1)] == candles[2 * idx + 1];
    }
  }

  /** The candle layer alternates wick lines (even positions) and body rectangles (odd positions). */
  lemma CandleLayerAlternates(style: Style, f: CandleFrame, series: seq<Candle>)
    requires DrawCandles(style, f, series).Success?
    ensures forall j :: 0 <= j < |DrawCandles(style, f, series).value| ==>
              && (DrawCandles(style, f, series).value[j].Line? <==> j % 2 == 0)
              && (DrawCandles(style, f, series).value[j].RoundedRect? <==> j % 2 == 1)
  {
    var cs := DrawCandles(style, f, series).value;
    forall j | 0 <= j < |cs|
      ensures (cs[j].Line? <==> j % 2 == 0) && (cs[j].RoundedRect? <==> j % 2 == 1)
    {
      var idx := j / 2;
      assert j == 2 * idx + j % 2;
      var c := series[idx];
      if j % 2 == 0 {
        assert cs[2 * idx] == WickCmd(style, f, |series|, idx, c);
      } else {
        assert cs[2 * idx + 1] == BodyCmd(style, f, |series|, idx, c);
      }
    }
  }

  /** Layer kinds survive stacking, shifted by the panel and the grid. */
  lemma StackKinds(panel: DrawCmd, grid: seq<DrawCmd>, candles: seq<DrawCmd>, text: DrawCmd)
    requires panel.RoundedRect? && text.Text? && |grid| == GridLineCount
    requires forall i :: 0 <= i < |grid| ==> grid[i].Line?
    requires forall j :: 0 <= j < |candles| ==>
               (candles[j].Line? <==> j % 2 == 0) && (candles[j].RoundedRect? <==> j % 2 == 1)
    ensures var scene := Stack(panel, grid, candles, text);
            && scene[0].RoundedRect?
            && (forall i :: 1 <= i < CandleBase ==> scene[i].Line?)
            && (forall j :: CandleBase <= j < |scene| - 1 ==>
                  (scene[j].Line? <==> (j - CandleBase) % 2 == 0) && (scene[j].RoundedRect? <==> (j - CandleBase) % 2 == 1))
            && scene[|scene| - 1].Text?
  {
    var scene := Stack(panel, grid, candles, text);
    forall i | 1 <= i < CandleBase
      ensures scene[i].Line?
    {
      assert scene[1 + (i - 1)] == grid[i - 1];
    }
    forall j | CandleBase <= j < |scene| - 1
      ensures (scene[j].Line? <==> (j - CandleBase) % 2 == 0) && (scene[j].RoundedRect? <==> (j - CandleBase) % 2 == 1)
    {
      assert scene[1 + |grid| + (j - CandleBase)] == candles[j - CandleBase];
    }
  }

  /**
   * The layers come in a fixed order: one panel rectangle, five gridlines,
   * alternating wick lines and body rectangles, and finally the text label.
   */
  lemma SceneLayering(style: Style, width: int, height: int, series: seq<Candle>, m: Metrics, font: Font)
    requires DrawCandles(style, FrameOf(m, height), series).Success?
    ensures var scene := Overlay(style, width, height, series, m, font);
            && scene[0].RoundedRect?
            && (forall i :: 1 <= i < CandleBase ==> scene[i].Line?)
            && (forall j :: CandleBase <= j < |scene| - 1 ==>
                  (scene[j].Line? <==> (j - CandleBase) % 2 == 0) && (scene[j].RoundedRect? <==> (j - CandleBase) % 2 == 1))
            && scene[|scene| - 1].Text?
  {
    var f := FrameOf(m, height);
    GridSchedule(style, width, height, m.chartHeight);
    CandleLayerAlternates(style, f, series);
    StackKinds(DrawChartBackground(style, width, height), DrawGrid(style, width, height, m.chartHeight),
               DrawCandles(style, f, series).value, DrawLabel(style, font));
  }

  /** Wick and body share one colour: the bull colour for a bullish candle, the bear colour otherwise. */
  predicate ColouredByTieRule(style: Style, wick: DrawCmd, body: DrawCmd, bull: bool) {
    && wick.fill == body.fill
    && (bull ==> wick.fill == style.bullColor)
    && (!bull ==> wick.fill == style.bearColor)
  }

  /** The wick reaches at least as high on screen as the body's top edge. */
  predicate WickReachesBodyTop(wick: DrawCmd, body: DrawCmd) {
    wick.Line? && body.RoundedRect? && wick.start.y <= body.topLeft.y
  }

  /** The body's bottom edge lies no lower on screen than the wick's lower end. */
  predicate BodyEndsWithinWick(wick: DrawCmd, body: DrawCmd) {
    wick.Line? && body.RoundedRect? && body.bottomRight.y <= wick.stop.y
  }

  /**
   * Candle `idx` of an overlay, for a candle that satisfies the domain
   * invariant: wick and body share the colour chosen by the tie rule; with a
   * non-negative scale the wick starts no lower on screen than the body top,
   * and when the candle moved and the scale is positive the body also ends no
   * lower than the wick.
   */
  lemma DrawnCandle(style: Style, width: int, height: int, series: seq<Candle>, m: Metrics, font: Font, idx: int)
    requires DrawCandles(style, FrameOf(m, height), series).Success?
    requires 0 <= idx < |series| && WellFormed(series[idx])
    requires m.yScale >= 0.0
    ensures var scene := Overlay(style, width, height, series, m, font);
            && ColouredByTieRule(style, scene[CandleBase + 2 * idx], scene[CandleBase + 2 * idx + 1], IsBull(series[idx]))
            && WickReachesBodyTop(scene[CandleBase + 2 * idx], scene[CandleBase + 2 * idx + 1])
            && (series[idx].open != series[idx].close && m.yScale > 0.0 ==>
                  BodyEndsWithinWick(scene[CandleBase + 2 * idx], scene[CandleBase + 2 * idx + 1]))
  {
    var f := FrameOf(m, height);
    var c := series[idx];
    var wick := WickCmd(style, f, |series|, idx, c);
    var body := BodyCmd(style, f, |series|, idx, c);
    WickEnclosesBody(style, f, |series|, idx, c);
    if c.open != c.close && m.yScale > 0.0 {
      PriceYAntitone(style, f, Min(c.open, c.close), Max(c.open, c.close));
      assert body.bottomRight.y <= wick.stop.y;
    }
    OverlayPlacement(style, width, height, series, m, font);
  }

  /** `DrawnCandle` for candle `idx` of a walk, with the tie rule read off the drift. */
  lemma WalkCandleDrawn(style: Style, width: int, height: int, seed: real, used: seq<Draw>, m: Metrics, font: Font, idx: int)
    requires ValidDraws(used) && 0 <= idx < |used|
    requires DrawCandles(style, FrameOf(m, height), Walk(seed, used)).Success?
    requires m.yScale >= 0.0
    ensures var scene := Overlay(style, width, height, Walk(seed, used), m, font);
            && ColouredByTieRule(style, scene[CandleBase + 2 * idx], scene[CandleBase + 2 * idx + 1], used[idx].drift >= 0.0)
            && WickReachesBodyTop(scene[CandleBase + 2 * idx], scene[CandleBase + 2 * idx + 1])
            && (used[idx].drift != 0.0 && m.yScale > 0.0 ==>
                  BodyEndsWithinWick(scene[CandleBase + 2 * idx], scene[CandleBase + 2 * idx + 1]))
  {
    var series := Walk(seed, used);
    WalkSteps(seed, used);
    WalkWellFormed(seed, used);
    DrawnCandle(style, width, height, series, m, font, idx);
  }

  /**
   * A chart of a generated series (what `GenerateChart` draws when it falls back
   * to the generator), when it is drawn on a canvas at least twice the padding
   * high: every
   * candle is drawn in the bull colour exactly when its drift is non-negative,
   * wick and body share the colour, the wick reaches at least as high as the
   * body, and, when the plot has positive height, the body of a candle that
   * moved ends within its wick.
   */
  lemma WalkChartWellDrawn(style: Style, width: int, height: int, seed: real, ds: seq<Draw>, font: Font)
    requires ValidDraws(ds) && ChartScene(style, width, height, Walk(seed, ds), font).Success?
    requires height - 2 * style.padding >= 0
    ensures var scene := ChartScene(style, width, height, Walk(seed, ds), font).value;
            && |scene| == CandleBase + 2 * |ds| + 1
            && forall idx :: 0 <= idx < |ds| ==>
              && ColouredByTieRule(style, scene[CandleBase + 2 * idx], scene[CandleBase + 2 * idx + 1], ds[idx].drift >= 0.0)
              && WickReachesBodyTop(scene[CandleBase + 2 * idx], scene[CandleBase + 2 * idx + 1])
              && (ds[idx].drift != 0.0 && height - 2 * style.padding > 0 ==>
                    BodyEndsWithinWick(scene[CandleBase + 2 * idx], scene[CandleBase + 2 * idx + 1]))
  {
    var series := Walk(seed, ds);
    var m := CalculateMetrics(series, width, height, style.padding).value;
    ScaleFitsPlot(series, width, height, style.padding);
    WalkChartWellDrawnWith(style, width, height, seed, ds, m, font);
  }

  /** `WalkChartWellDrawn` for arbitrary metrics of the right sign. */
  lemma WalkChartWellDrawnWith(style: Style, width: int, height: int, seed: real, ds: seq<Draw>, m: Metrics, font: Font)
    requires ValidDraws(ds)
    requires DrawCandles(style, FrameOf(m, height), Walk(seed, ds)).Success?
    requires m.yScale >= 0.0
    ensures var scene := Overlay(style, width, height, Walk(seed, ds), m, font);
            forall idx :: 0 <= idx < |ds| ==>
              && ColouredByTieRule(style, scene[CandleBase + 2 * idx], scene[CandleBase + 2 * idx + 1], ds[idx].drift >= 0.0)
              && WickReachesBodyTop(scene[CandleBase + 2 * idx], scene[CandleBase + 2 * idx + 1])
              && (ds[idx].drift != 0.0 && m.yScale > 0.0 ==>
                    BodyEndsWithinWick(scene[CandleBase + 2 * idx], scene[CandleBase + 2 * idx + 1]))
  {
    var scene := Overlay(style, width, height, Walk(seed, ds), m, font);
    forall idx | 0 <= idx < |ds|
      ensures && ColouredByTieRule(style, scene[CandleBase + 2 * idx], scene[CandleBase + 2 * idx + 1], ds[idx].drift >= 0.0)
              && WickReachesBodyTop(scene[CandleBase + 2 * idx], scene[CandleBase + 2 * idx + 1])
              && (ds[idx].drift != 0.0 && m.yScale > 0.0 ==>
                    BodyEndsWithinWick(scene[CandleBase + 2 * idx], scene[CandleBase + 2 * idx + 1]))
    {
      WalkCandleDrawn(style, width, height, seed, ds, m, font, idx);
    }
  }

  /** A generated series is never flat, so its range is used as is, without widening. */
  lemma GeneratedRangeNotWidened(dataPoints: int, seed: real, ds: seq<Draw>, width: int, height: int, padding: int)
    requires ValidDraws(ds) && 0 < dataPoints <= |ds|
    ensures var series := Walk(seed, ds[..dataPoints]);
            && MinLow(series) < MaxHigh(series)
            && CalculateMetrics(series, width, height, padding).value.maxVal == MaxHigh(series)
  {
    var used := ds[..dataPoints];
    var series := Walk(seed, used);
    WalkWellFormed(seed, used);
    assert MinLow(series) <= series[0].low < series[0].high <= MaxHigh(series);
  }

  /**
   * With metrics whose scale stretches the price range over the plot height
   * (as `ScaleFitsPlot` shows the computed ones do), the gridlines mark the
   * prices at 0, 1/4, ..., 4/4 of the way from the minimum to the (possibly
   * widened) maximum; the maximum maps onto the top edge of the plot area.
   */
  lemma GridMarksQuarterPrices(style: Style, width: int, height: int, m: Metrics, i: int)
    requires (m.maxVal - m.minVal) * m.yScale == m.chartHeight as real
    requires m.chartHeight == height - 2 * style.padding
    requires 0 <= i < GridLineCount
    ensures DrawGrid(style, width, height, m.chartHeight)[i].start.y
            == PriceY(style, FrameOf(m, height), m.minVal + i as real * (m.maxVal - m.minVal) / 4.0)
    ensures PriceY(style, FrameOf(m, height), m.maxVal) == style.padding as real
  {
    var f := FrameOf(m, height);
    var base := (height - style.padding) as real;
    var d := m.maxVal - m.minVal;
    var price := m.minVal + i as real * d / 4.0;
    assert DrawGrid(style, width, height, m.chartHeight)[i] == GridLine(style, width, height, m.chartHeight, i);
    assert GridLine(style, width, height, m.chartHeight, i).start.y == base - i as real * (m.chartHeight as real / 4.0);
    assert PriceY(style, f, price) == base - (price - m.minVal) * m.yScale;
    assert PriceY(style, f, m.maxVal) == base - (m.maxVal - m.minVal) * m.yScale;
    QuarterOfRange(base, m.minVal, m.maxVal, m.yScale, i as real, m.chartHeight as real);
    assert base - m.chartHeight as real == style.padding as real;
  }

  /**
   * When `k` stretches the range `[lo, hi]` over `h`, the price `i` quarters of
   * the way up the range sits `i` quarters of `h` above the base, and `hi` sits
   * `h` above it.
   */
  lemma QuarterOfRange(base: real, lo: real, hi: real, k: real, i: real, h: real)
    requires (hi - lo) * k == h
    ensures base - ((lo + i * (hi - lo) / 4.0) - lo) * k == base - i * (h / 4.0)
    ensures base - (hi - lo) * k == base - h
  {
    assert (lo + i * (hi - lo) / 4.0) - lo == i * (hi - lo) / 4.0;
    assert (i * (hi - lo) / 4.0) * k == i * ((hi - lo) * k / 4.0);
  }

  /** An 800 x 600 canvas with 60 px of padding leaves a 680 x 480 plot area. */
  lemma PlotAreaExample(series: seq<Candle>)
    requires |series| > 0
    ensures CalculateMetrics(series, 800, 600, 60).value.chartWidth == 680
    ensures CalculateMetrics(series, 800, 600, 60).value.chartHeight == 480
  {
  }

  /** A single rising candle is bullish, and a flat one still gets a one-pixel body in the bull colour. */
  lemma SingleCandleExample(style: Style, f: CandleFrame)
    ensures BodyCmd(style, f, 1, 0, Candle(100.0, 110.0, 90.0, 105.0)).fill == style.bullColor
    ensures BodyCmd(style, f, 1, 0, Candle(100.0, 110.0, 90.0, 100.0)).fill == style.bullColor
    ensures BodyCmd(style, f, 1, 0, Candle(100.0, 110.0, 90.0, 100.0)).bottomRight.y
            == BodyCmd(style, f, 1, 0, Candle(100.0, 110.0, 90.0, 100.0)).topLeft.y + 1.0
  {
  }

  /** A series whose lows and highs are all 50 is widened to [50, 50 + Epsilon] with a positive scale. */
  lemma FlatSeriesExample(n: nat, width: int, height: int, padding: int)
    requires n > 0 && height - 2 * padding > 0
    ensures var m := CalculateMetrics(seq(n, _ => Candle(50.0, 50.0, 50.0, 50.0)), width, height, padding).value;
            m.minVal == 50.0 && m.maxVal == 50.0 + Epsilon && m.yScale > 0.0
  {
    var series := seq(n, _ => Candle(50.0, 50.0, 50.0, 50.0));
    assert series[0].low == 50.0;
    ScaleFitsPlot(series, width, height, padding);
  }
}
