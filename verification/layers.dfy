/**
 * The overlay renderer: the draw commands for the panel background, the
 * gridlines, the candles and the label, each as a pure function of the style,
 * the canvas size and the metrics.
 */
module Layers {
  import opened Wrappers
  import opened Candles
  import opened Scene

  const PanelMargin: int := 10
  const PanelRadius: int := 20
  const PanelOutlineWidth: int := 3
  const GridLineCount: nat := 5
  const BodyRadius: int := 1
  const BodyOutline: Color := RGBA(255, 255, 255, 50)
  const BodyOutlineWidth: int := 1
  const LabelDx: int := 15
  const LabelDy: int := 10
  const LabelStrokeWidth: int := 5
  const LabelStroke: Color := RGBA(0, 0, 0, 128)

  /** True when `p` lies inside the closed rectangle spanned by a `RoundedRect`. */
  predicate Inside(p: Point, rect: DrawCmd)
    requires rect.RoundedRect?
  {
    rect.topLeft.x <= p.x <= rect.bottomRight.x && rect.topLeft.y <= p.y <= rect.bottomRight.y
  }

  /**
   * The boxes the image library's `rounded_rectangle` accepts: its second corner
   * lies neither left of nor above its first. Any other box raises `ValueError`.
   */
  predicate Upright(rect: DrawCmd)
    requires rect.RoundedRect?
  {
    rect.topLeft.x <= rect.bottomRight.x && rect.topLeft.y <= rect.bottomRight.y
  }

  /** Subtracting scaled offsets from a common base reverses their order (strictly, for a positive scale). */
  lemma ScaledOffsets(base: real, origin: real, v1: real, v2: real, k: real)
    requires v1 <= v2 && k >= 0.0
    ensures base - (v1 - origin) * k >= base - (v2 - origin) * k
    ensures k > 0.0 && v1 < v2 ==> base - (v1 - origin) * k > base - (v2 - origin) * k
  {
    MulMono(v1 - origin, v2 - origin, k);
    if k > 0.0 && v1 < v2 {
      MulStrict(v1 - origin, v2 - origin, k);
    }
  }

  /** Multiplying by a positive amount keeps a strict order. */
  lemma MulStrict(a: real, b: real, c: real)
    requires a < b && c > 0.0
    ensures a * c < b * c
  {
    assert b * c - a * c == (b - a) * c;
  }

  /** Multiplying by a non-negative amount keeps a weak order. */
  lemma MulMono(a: real, b: real, c: real)
    requires a <= b && c >= 0.0
    ensures a * c <= b * c
  {
    assert b * c - a * c == (b - a) * c;
  }

  // ---------------------------------------------------------------- panel

  /**
   * `_draw_chart_background`: the plot area grown by `PanelMargin` on every
   * side, a box the image library accepts exactly when the canvas is no smaller
   * than `2 padding - 20` in either direction.
   */
  function DrawChartBackground(style: Style, width: int, height: int): (r: DrawCmd)
    ensures r.RoundedRect?
    ensures r.radius == PanelRadius && r.fill == ChartBackground && r.outline == GridColor && r.width == PanelOutlineWidth
    ensures r.topLeft.x == r.topLeft.y == (style.padding - PanelMargin) as real
    ensures r.bottomRight.x - r.topLeft.x == (width - 2 * style.padding + 2 * PanelMargin) as real
    ensures r.bottomRight.y - r.topLeft.y == (height - 2 * style.padding + 2 * PanelMargin) as real
    ensures Upright(r) <==>
              width - 2 * style.padding + 2 * PanelMargin >= 0 && height - 2 * style.padding + 2 * PanelMargin >= 0
  {
    var p := style.padding;
    RoundedRect(Point((p - PanelMargin) as real, (p - PanelMargin) as real),
                Point((width - p + PanelMargin) as real, (height - p + PanelMargin) as real),
                PanelRadius, ChartBackground, GridColor, PanelOutlineWidth)
  }

  // ---------------------------------------------------------------- grid

  /** Height of gridline `i`: `height - padding - i * (chart_height / 4)`. */
  function GridY(height: int, padding: int, chartHeight: int, i: int): real {
    (height - padding) as real - i as real * (chartHeight as real / 4.0)
  }

  /** Gridline `i`: alpha `25 + 30 i`, thickness `1 + i div 3`, across the plot area. */
  function GridLine(style: Style, width: int, height: int, chartHeight: int, i: int): DrawCmd {
    var y := GridY(height, style.padding, chartHeight, i);
    Line(Point(style.padding as real, y), Point((width - style.padding) as real, y),
         RGBA(255, 255, 255, 25 + i * 30), 1 + i / 3)
  }

  /** `_draw_grid`: gridlines 0..4, bottom first. */
  function DrawGrid(style: Style, width: int, height: int, chartHeight: int): (r: seq<DrawCmd>)
    ensures |r| == GridLineCount
    ensures forall i :: 0 <= i < |r| ==> r[i] == GridLine(style, width, height, chartHeight, i)
  {
    seq(GridLineCount, i => GridLine(style, width, height, chartHeight, i))
  }

  /**
   * The fixed gridline schedule: five horizontal lines spanning the plot width,
   * evenly spaced a quarter of the chart height apart from the bottom edge up,
   * with alpha rising 25, 55, ..., 145 and thickness 1, 1, 1, 2, 2.
   */
  lemma GridSchedule(style: Style, width: int, height: int, chartHeight: int)
    ensures var g := DrawGrid(style, width, height, chartHeight);
            && (forall i :: 0 <= i < GridLineCount ==>
                  && g[i].Line?
                  && g[i].start.x == style.padding as real
                  && g[i].stop.x == (width - style.padding) as real
                  && g[i].start.y == g[i].stop.y)
            && g[0].start.y == (height - style.padding) as real
            && (chartHeight == height - 2 * style.padding ==> g[GridLineCount - 1].start.y == style.padding as real)
            && (forall i :: 0 <= i < GridLineCount - 1 ==> g[i].start.y - g[i + 1].start.y == chartHeight as real / 4.0)
            && (forall i :: 0 <= i < GridLineCount ==>
                  && g[i].fill == RGBA(255, 255, 255, 25 + 30 * i)
                  && 25 <= g[i].fill.a <= 145
                  && g[i].width == (if i < 3 then 1 else 2))
            && (forall i, j :: 0 <= i < j < GridLineCount ==> g[i].fill.a < g[j].fill.a)
  {
  }

  // ---------------------------------------------------------------- candles

  /** The arguments `_draw_candles` receives besides the data. */
  datatype CandleFrame = CandleFrame(minVal: real, chartWidth: int, height: int, yScale: real)

  /**
   * The price-to-pixel map `height - padding - (v - min_val) * y_scale`, which
   * puts the minimum price on the bottom edge of the plot area.
   */
  function PriceY(style: Style, f: CandleFrame, v: real): (y: real)
    ensures v == f.minVal ==> y == (f.height - style.padding) as real
  {
    (f.height - style.padding) as real - (v - f.minVal) * f.yScale
  }

  /** Horizontal space given to each of the `n` candles. */
  function SlotWidth(f: CandleFrame, n: int): real
    requires n > 0
  {
    f.chartWidth as real / n as real
  }

  /** `padding + (idx + 0.5) * (chart_width / n)`: the centre of slot `idx`. */
  function XCenter(style: Style, f: CandleFrame, n: int, idx: int): real
    requires n > 0
  {
    style.padding as real + (idx as real + 0.5) * SlotWidth(f, n)
  }

  /**
   * The centre of each of the `n` candles on a plot of positive width lies
   * strictly inside the plot's horizontal extent.
   */
  lemma CentreInsidePlot(style: Style, f: CandleFrame, n: int, idx: int)
    requires 0 <= idx < n && f.chartWidth > 0
    ensures style.padding as real < XCenter(style, f, n, idx) < (style.padding + f.chartWidth) as real
  {
    var k := idx as real + 0.5;
    var s := SlotWidth(f, n);
    assert s > 0.0;
    assert n as real * s == f.chartWidth as real;
    MulStrict(0.0, k, s);
    MulStrict(k, n as real, s);
  }

  /** Body width: the slot width scaled by the candle width ratio. */
  function CandleWidth(style: Style, f: CandleFrame, n: int): real
    requires n > 0
  {
    SlotWidth(f, n) * style.candleWidthRatio
  }

  /** Bull colour for rising or unchanged candles, bear colour for falling ones. */
  function CandleColor(style: Style, c: Candle): (col: Color)
    ensures IsBull(c) ==> col == style.bullColor
    ensures !IsBull(c) ==> col == style.bearColor
  {
    if c.close >= c.open then style.bullColor else style.bearColor
  }

  /** `abs(y_open - y_close) or 1`: a flat body is drawn one pixel high. */
  function BodyHeight(yOpen: real, yClose: real): (h: real)
    ensures h > 0.0
    ensures yOpen != yClose ==> h == Abs(yOpen - yClose)
    ensures yOpen == yClose ==> h == 1.0
  {
    var d := Abs(yOpen - yClose);
    if d != 0.0 then d else 1.0
  }

  /** The wick of candle `idx`: a vertical line at its centre from the high's row to the low's row. */
  function WickCmd(style: Style, f: CandleFrame, n: int, idx: int, c: Candle): (r: DrawCmd)
    requires n > 0
    ensures r.Line? && r.width == WickWidth
    ensures r.start.x == r.stop.x == XCenter(style, f, n, idx)
    ensures r.start.y == PriceY(style, f, c.high) && r.stop.y == PriceY(style, f, c.low)
    ensures r.fill == CandleColor(style, c)
  {
    var x := XCenter(style, f, n, idx);
    Line(Point(x, PriceY(style, f, c.high)), Point(x, PriceY(style, f, c.low)), CandleColor(style, c), WickWidth)
  }

  /**
   * The body of candle `idx`: centred on the slot, `CandleWidth` wide, spanning
   * the rows of open and close with its top at the higher of the two on screen,
   * and never of zero height.
   */
  function BodyCmd(style: Style, f: CandleFrame, n: int, idx: int, c: Candle): (r: DrawCmd)
    requires n > 0
    ensures r.RoundedRect? && r.radius == BodyRadius && r.outline == BodyOutline && r.width == BodyOutlineWidth
    ensures r.fill == CandleColor(style, c)
    ensures (r.topLeft.x + r.bottomRight.x) / 2.0 == XCenter(style, f, n, idx)
    ensures r.bottomRight.x - r.topLeft.x == CandleWidth(style, f, n)
    ensures r.topLeft.y == Min(PriceY(style, f, c.open), PriceY(style, f, c.close))
    ensures r.topLeft.y < r.bottomRight.y
    ensures PriceY(style, f, c.open) != PriceY(style, f, c.close) ==>
              r.bottomRight.y == Max(PriceY(style, f, c.open), PriceY(style, f, c.close))
    ensures PriceY(style, f, c.open) == PriceY(style, f, c.close) ==> r.bottomRight.y == r.topLeft.y + 1.0
  {
    var x := XCenter(style, f, n, idx);
    var half := CandleWidth(style, f, n) / 2.0;
    var yOpen := PriceY(style, f, c.open);
    var yClose := PriceY(style, f, c.close);
    var top := Min(yOpen, yClose);
    RoundedRect(Point(x - half, top), Point(x + half, top + BodyHeight(yOpen, yClose)),
                BodyRadius, CandleColor(style, c), BodyOutline, BodyOutlineWidth)
  }

  /** The commands for candles `k..` of `data`: wick then body, candle by candle, as the loop emits them. */
  function DrawCandlesFrom(style: Style, f: CandleFrame, data: seq<Candle>, k: nat): (r: seq<DrawCmd>)
    requires k <= |data|
    ensures |r| == 2 * (|data| - k)
    ensures forall idx {:trigger WickCmd(style, f, |data|, idx, data[idx])} :: k <= idx < |data| ==>
              r[2 * (idx - k)] == WickCmd(style, f, |data|, idx, data[idx])
    ensures forall idx {:trigger BodyCmd(style, f, |data|, idx, data[idx])} :: k <= idx < |data| ==>
              r[2 * (idx - k) + 1] == BodyCmd(style, f, |data|, idx, data[idx])
    decreases |data| - k
  {
    if k == |data| then []
    else
      var rest := DrawCandlesFrom(style, f, data, k + 1);
      [WickCmd(style, f, |data|, k, data[k]), BodyCmd(style, f, |data|, k, data[k])] + rest
  }

  /**
   * `_draw_candles`: for each candle in order its wick and then its body. With
   * no candles the slot width divides by zero; with a negative body width the
   * first body is an inverted box, which the image library rejects (all bodies
   * share one width, so either every body is drawable or the first one is not).
   */
  function DrawCandles(style: Style, f: CandleFrame, data: seq<Candle>): (r: Result<seq<DrawCmd>, ChartError>)
    ensures |data| == 0 ==> r == Failure(DivisionByZero)
    ensures |data| > 0 ==> (r.Failure? <==> !Upright(BodyCmd(style, f, |data|, 0, data[0])))
    ensures |data| > 0 && r.Failure? ==> r.error == InvertedBox
    ensures r.Success? ==> forall idx {:trigger BodyCmd(style, f, |data|, idx, data[idx])} :: 0 <= idx < |data| ==>
              Upright(BodyCmd(style, f, |data|, idx, data[idx]))
    ensures r.Success? ==> |r.value| == 2 * |data|
    ensures r.Success? ==> forall idx {:trigger WickCmd(style, f, |data|, idx, data[idx])} :: 0 <= idx < |data| ==>
              r.value[2 * idx] == WickCmd(style, f, |data|, idx, data[idx])
    ensures r.Success? ==> forall idx {:trigger BodyCmd(style, f, |data|, idx, data[idx])} :: 0 <= idx < |data| ==>
              r.value[2 * idx + 1] == BodyCmd(style, f, |data|, idx, data[idx])
  {
    if |data| == 0 then Failure(DivisionByZero)
    else if CandleWidth(style, f, |data|) < 0.0 then Failure(InvertedBox)
    else Success(DrawCandlesFrom(style, f, data, 0))
  }

  /**
   * Price up is screen up: with a non-negative scale the map is antitone
   * (strictly so with a positive scale), and the minimum price sits on the
   * bottom edge of the plot area.
   */
  lemma PriceYAntitone(style: Style, f: CandleFrame, v1: real, v2: real)
    requires f.yScale >= 0.0 && v1 <= v2
    ensures PriceY(style, f, v1) >= PriceY(style, f, v2)
    ensures f.yScale > 0.0 && v1 < v2 ==> PriceY(style, f, v1) > PriceY(style, f, v2)
    ensures PriceY(style, f, f.minVal) == (f.height - style.padding) as real
  {
    var base := (f.height - style.padding) as real;
    assert PriceY(style, f, v1) == base - (v1 - f.minVal) * f.yScale;
    assert PriceY(style, f, v2) == base - (v2 - f.minVal) * f.yScale;
    ScaledOffsets(base, f.minVal, v1, v2, f.yScale);
  }

  /**
   * For a well-formed candle on a non-negative scale, the wick reaches at least
   * as high and as low on screen as the body (whose height is the open/close gap
   * whenever that gap is not zero).
   */
  lemma WickEnclosesBody(style: Style, f: CandleFrame, n: int, idx: int, c: Candle)
    requires n > 0 && f.yScale >= 0.0 && WellFormed(c)
    ensures WickCmd(style, f, n, idx, c).start.y <= BodyCmd(style, f, n, idx, c).topLeft.y
    ensures PriceY(style, f, c.open) != PriceY(style, f, c.close) ==>
              BodyCmd(style, f, n, idx, c).bottomRight.y <= WickCmd(style, f, n, idx, c).stop.y
  {
    PriceYAntitone(style, f, c.open, c.high);
    PriceYAntitone(style, f, c.close, c.high);
    PriceYAntitone(style, f, c.low, c.open);
    PriceYAntitone(style, f, c.low, c.close);
  }

  /** Candle centres move strictly right with the index when the plot has positive width. */
  lemma XCenterIncreasing(style: Style, f: CandleFrame, n: int, i: int, j: int)
    requires n > 0 && f.chartWidth > 0 && i < j
    ensures XCenter(style, f, n, i) < XCenter(style, f, n, j)
  {
    assert SlotWidth(f, n) > 0.0;
    assert XCenter(style, f, n, j) - XCenter(style, f, n, i) == (j - i) as real * SlotWidth(f, n);
  }

  /**
   * With a width ratio of at most 1, each body stays within its own slot, so the
   * body of candle `idx` ends no further right than the body of `idx + 1` starts.
   */
  lemma BodyWithinSlot(style: Style, f: CandleFrame, n: int, idx: int, c: Candle, d: Candle)
    requires n > 0 && f.chartWidth >= 0 && 0.0 <= style.candleWidthRatio <= 1.0
    ensures style.padding as real + idx as real * SlotWidth(f, n) <= BodyCmd(style, f, n, idx, c).topLeft.x
    ensures BodyCmd(style, f, n, idx, c).bottomRight.x <= style.padding as real + (idx + 1) as real * SlotWidth(f, n)
    ensures BodyCmd(style, f, n, idx, c).bottomRight.x <= BodyCmd(style, f, n, idx + 1, d).topLeft.x
  {
    var s := SlotWidth(f, n);
    var w := CandleWidth(style, f, n);
    assert s >= 0.0;
    assert s - w == s * (1.0 - style.candleWidthRatio) >= 0.0;
    assert XCenter(style, f, n, idx) == style.padding as real + idx as real * s + s / 2.0;
    assert XCenter(style, f, n, idx + 1) == style.padding as real + (idx + 1) as real * s + s / 2.0;
    assert BodyCmd(style, f, n, idx, c).topLeft.x == style.padding as real + idx as real * s + (s - w) / 2.0;
    assert BodyCmd(style, f, n, idx + 1, d).topLeft.x == style.padding as real + (idx + 1) as real * s + (s - w) / 2.0;
  }

  // ---------------------------------------------------------------- label

  /** Font resolution: the requested TrueType face when it loads, otherwise the built-in default. */
  function ResolveFont(style: Style, trueTypeLoads: bool): (font: Font)
    ensures font.TrueType? <==> trueTypeLoads
    ensures font.TrueType? ==> font.path == style.labelFont && font.size == style.labelSize
  {
    if trueTypeLoads then TrueType(style.labelFont, style.labelSize) else DefaultFont
  }

  /** `_draw_labels`: the label text near the plot's top-left corner, with a dark stroke. */
  function DrawLabel(style: Style, font: Font): (r: DrawCmd)
    ensures r.Text? && r.text == style.labelText && r.fill == style.labelColor && r.font == font
    ensures r.strokeWidth == LabelStrokeWidth && r.strokeFill == LabelStroke
    ensures r.anchor == Point((style.padding + LabelDx) as real, (style.padding + LabelDy) as real)
  {
    Text(Point((style.padding + LabelDx) as real, (style.padding + LabelDy) as real),
         style.labelText, style.labelColor, font, LabelStrokeWidth, LabelStroke)
  }

  /**
   * The panel frames what is drawn over it: both ends of every gridline, the
   * label anchor and every candle centre lie inside the panel rectangle once the
   * plot area has non-negative height and is at least as wide as the label's
   * offset from the panel's left edge.
   */
  lemma PanelFramesChart(style: Style, width: int, height: int, chartHeight: int, f: CandleFrame, n: int, font: Font)
    requires f.height == height && chartHeight == height - 2 * style.padding
    requires f.chartWidth == width - 2 * style.padding && f.chartWidth >= LabelDx - PanelMargin
    requires chartHeight >= 0
    requires n > 0
    ensures forall i :: 0 <= i < GridLineCount ==>
              && Inside(DrawGrid(style, width, height, chartHeight)[i].start, DrawChartBackground(style, width, height))
              && Inside(DrawGrid(style, width, height, chartHeight)[i].stop, DrawChartBackground(style, width, height))
    ensures Inside(DrawLabel(style, font).anchor, DrawChartBackground(style, width, height))
    ensures forall idx :: 0 <= idx < n ==>
              style.padding as real < XCenter(style, f, n, idx) < (width - style.padding) as real
  {
    var ch := chartHeight;
    forall i | 0 <= i < GridLineCount
      ensures style.padding as real <= GridY(height, style.padding, ch, i) <= (height - style.padding) as real
    {
      GridRowWithinPlot(height, style.padding, i);
    }
    forall idx | 0 <= idx < n
      ensures style.padding as real < XCenter(style, f, n, idx) < (width - style.padding) as real
    {
      CentreInsidePlot(style, f, n, idx);
    }
  }

  /** Each of the five gridlines of a plot of non-negative height lies between its top and bottom edges. */
  lemma GridRowWithinPlot(height: int, padding: int, i: int)
    requires 0 <= i < GridLineCount && height - 2 * padding >= 0
    ensures padding as real <= GridY(height, padding, height - 2 * padding, i) <= (height - padding) as real
  {
    var top, bottom := padding as real, (height - padding) as real;
    var q := (height - 2 * padding) as real / 4.0;
    assert q == (bottom - top) / 4.0;
    assert GridY(height, padding, height - 2 * padding, i) == bottom - i as real * q;
    QuarterSteps(top, bottom, i as real, q);
  }

  /** Between zero and four quarter steps down from `bottom` stay between `top` and `bottom`. */
  lemma QuarterSteps(top: real, bottom: real, k: real, q: real)
    requires 0.0 <= k <= 4.0 && top <= bottom && q == (bottom - top) / 4.0
    ensures top <= bottom - k * q <= bottom
  {
    MulMono(0.0, k, q);
    MulMono(k, 4.0, q);
  }
}
