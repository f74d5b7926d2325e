# Candlestick chart overlay — geometry model

A Dafny model of the geometry pipeline of `CryptoChartGenerator` (Graph.py), which
overlays a synthetic candlestick chart on a background image. All drawing through the
image library is replaced by an abstract scene: a sequence of `DrawCmd` values
(`Line`, `RoundedRect`, `Text`) in z-order, earliest at the bottom. Prices and pixel
coordinates are `real`; the canvas size, the padding, `chart_width` and `chart_height`
are `int`, as in the source.

Modules, one per component of the pipeline:

- `Wrappers` — `Option` and `Result`; an exception the source raises becomes a `Failure`.
- `Candles` — the OHLC `Candle`, the domain invariant `WellFormed`, the tie rule `IsBull`,
  and the `ChartError` cases: `EmptySequence` for `min()` of an empty series,
  `DivisionByZero` for `chart_width / len(data)` with no candles, and `InvertedBox` for
  the image library's `rounded_rectangle`, which raises `ValueError` when the second
  corner of its box lies left of or above the first.
- `DataSource` — `generate_candle_data`. Every random draw is an explicit input: a seed
  (the first open, in [80, 120]) and, per step, a `Draw` of the close drift (in [-20, 20])
  and the high and low jitters (each in [5, 15]). `Walk` is the reference definition of
  the walk; `GenerateCandleData` is the loop of the source, proved equal to it. The
  source's default of 20 candles (`data_points = 20`, Graph.py:51 and :93) is the
  constant `DefaultDataPoints`.
- `ChartMetrics` — `_calculate_metrics`: range, degenerate-range widening by `Epsilon`
  (1e-5, exact here), plot size and vertical scale.
- `Scene` — colours, points, fonts, draw commands, the `Style` configuration and its
  constructor defaults (`DefaultStyle`), and the fixed panel and grid colours and wick width.
- `Layers` — `_draw_chart_background`, `_draw_grid`, `_draw_candles` and `_draw_labels`
  as pure functions that return draw commands.
- `Chart` — `generate_chart`: the fallback from missing or empty data to the generator,
  the metrics, and the stacking order panel → grid → candles → label.

## Model

| member | source | states |
|---|---|---|
| `DataSource.GenerateCandleData` | Graph.py:51-72 | returns exactly max(n, 0) candles, equal to the reference walk over the first draws. The first open is the seed, each later open is the previous close, and each close is its open plus the drift. Every high is at least 5 above max(open, close) and every low at least 5 below min(open, close) |
| `DataSource.Step` | Graph.py:65-69 | one step opens at the previous close, and the draw can be read back off the candle: the close moves by the drift, the high sits the high jitter above max(open, close), and the low sits the low jitter below min(open, close) |
| `DataSource.Walk` | Graph.py:61-72 | the reference walk consumes exactly one draw per candle; its step structure is stated by `WalkSteps` |
| `DataSource.WalkSteps` | Graph.py:62-70 | every candle of the walk is one step from the previous close (from the seed for the first), so consecutive candles chain open-to-close |
| `DataSource.WalkPrefix` | Graph.py:64-70 | walking the first k draws gives the first k candles of a longer walk, so asking for fewer points yields a prefix |
| `DataSource.WalkWellFormed` | Graph.py:66-69 | with draws in their ranges, low < min(open, close) <= max(open, close) < high with a margin of at least 5 on each side, and the body moves by at most 20 |
| `ChartMetrics.MinLow` | Graph.py:78 | the value is a lower bound of every low and is the low of some candle |
| `ChartMetrics.MaxHigh` | Graph.py:79 | the value is an upper bound of every high and is the high of some candle |
| `ChartMetrics.RangeTop` | Graph.py:79-82 | max_val lies strictly above the least low and bounds every high; it is the greatest high when that exceeds the least low, and the least low + 1e-5 otherwise |
| `ChartMetrics.CalculateMetrics` | Graph.py:74-88 | fails exactly on an empty series. Otherwise min_val is the least low and max_val bounds every high; max_val > min_val always; max_val is the greatest high unless the range is flat or inverted, in which case it is min_val + 1e-5. chart_width = width − 2·padding and chart_height = height − 2·padding |
| `ChartMetrics.ScaleFitsPlot` | Graph.py:84-86 | y_scale stretches the price range exactly over the plot: y_scale·(max_val − min_val) = chart_height, and y_scale is positive (zero) exactly when chart_height is |
| `Layers.DrawChartBackground` | Graph.py:129-138 | a rounded rectangle with radius 20, panel fill, grid-colour outline of width 3, spanning the plot area grown by 10 on every side. The image library accepts the box exactly when width and height are each at least 2·padding − 20 |
| `Layers.DrawGrid` | Graph.py:140-149 | exactly 5 commands, command i being gridline i; the schedule of those lines is stated by `GridSchedule` |
| `Layers.GridSchedule` | Graph.py:142-148 | exactly 5 horizontal lines from x = padding to x = width − padding. Line 0 is at height − padding and, for chart_height = height − 2·padding, line 4 is at padding. Lines are a quarter of chart_height apart. Alpha is 25 + 30·i, strictly rising within [25, 145]. Thickness is 1 for lines 0–2 and 2 for lines 3–4 |
| `Layers.CandleColor` | Graph.py:163 | bull colour when close >= open (ties included), bear colour otherwise |
| `Layers.BodyHeight` | Graph.py:174 | always positive: the open/close pixel gap when it is non-zero, 1 otherwise |
| `Layers.PriceY` | Graph.py:166-172 | the price-to-row map puts min_val on the bottom edge of the plot area (y = height − padding); its order reversal is stated by `PriceYAntitone` |
| `Layers.WickCmd` | Graph.py:162-168 | a vertical line of width 5 at the candle's x-centre from the high's row to the low's row, in the candle colour |
| `Layers.BodyCmd` | Graph.py:159-185 | a rectangle centred on the x-centre, as wide as slot width × ratio, with its top at the higher on screen of the open and close rows. It has positive height, reaching the lower row when the rows differ and one pixel otherwise, and has the candle colour |
| `Layers.DrawCandles` | Graph.py:151-185 | fails with a division by zero exactly on an empty series. For a non-empty series it fails with an inverted box exactly when the first body is not an upright box; otherwise every body is upright and it emits wick then body for each candle in index order, 2·N commands |
| `Layers.PriceYAntitone` | Graph.py:166-172 | with y_scale >= 0 a higher price never maps lower on screen (strictly higher with y_scale > 0), and min_val maps to height − padding |
| `Layers.WickEnclosesBody` | Graph.py:166-179 | for a well-formed candle and y_scale >= 0 the wick starts no lower than the body top and, when the open and close rows differ, ends no higher than the body bottom |
| `Layers.CentreInsidePlot` | Graph.py:162 | with chart_width > 0 the x-centre of each of the N candles lies strictly between padding and padding + chart_width |
| `Layers.XCenterIncreasing` | Graph.py:162 | with chart_width > 0 the candle x-centre strictly increases with the index |
| `Layers.BodyWithinSlot` | Graph.py:159-179 | with ratio in [0, 1] and chart_width >= 0 each body stays inside its slot, so neighbouring bodies do not overlap |
| `Layers.ResolveFont` | Graph.py:199-202 | the requested TrueType face at the label size when it loads, the built-in default otherwise |
| `Layers.DrawLabel` | Graph.py:204-215 | one text command with the label text, colour and resolved font at (padding + 15, padding + 10), with a stroke of width 5 in translucent black |
| `Layers.PanelFramesChart` | Graph.py:131-148 | when chart_height >= 0 and chart_width >= 5 (the label's offset from the panel's left edge), both ends of every gridline and the label anchor lie inside the panel rectangle, and every candle centre lies strictly between padding and width − padding |
| `Layers.GridRowWithinPlot` | Graph.py:142-143 | with chart_height = height − 2·padding >= 0, each of the 5 gridlines lies between y = padding and y = height − padding |
| `Chart.ChartScene` | Graph.py:113-123 | fails with EmptySequence exactly on an empty series. Otherwise it succeeds exactly when the panel box is upright and the candle layer can be drawn, failing with InvertedBox otherwise; on success the scene is the overlay drawn with the series' metrics |
| `Chart.Overlay` | Graph.py:119-123 | the overlay has 2·N + 7 commands: the panel, 5 gridlines, 2·N candle commands and the label; their order is stated by `OverlayPlacement` |
| `Chart.ChartDrawable` | Graph.py:113-123 | for a non-empty series the chart is drawn exactly when width and height are each at least 2·padding − 20 and chart_width and candle_width_ratio are not of opposite signs |
| `Chart.BodiesDrawable` | Graph.py:158-179 | the candle layer of a non-empty series can be drawn exactly when chart_width · candle_width_ratio >= 0 |
| `Chart.GenerateChart` | Graph.py:90-123 | caller data that is missing or empty falls back to a walk of data_points steps; non-empty data is charted as given. It fails with EmptySequence exactly when it falls back with data_points <= 0 (min() of an empty series); its only other failure is InvertedBox, characterised by `ChartDrawable` |
| `Chart.OverlayPlacement` | Graph.py:119-123 | for any metrics, the overlay starts with the panel, gridline i is at 1 + i, candle idx's wick and body sit at positions 6 + 2·idx and 7 + 2·idx, and the label is last |
| `Chart.CandleLayerAlternates` | Graph.py:161-185 | the candle layer alternates wick lines (even positions) and body rectangles (odd positions) |
| `Chart.SceneLayering` | Graph.py:119-123 | for any metrics the overlay is one panel rectangle, then five lines, then alternating lines and rectangles, then the text label last |
| `Chart.DrawnCandle` | Graph.py:161-185 | for a well-formed candle drawn with y_scale >= 0: wick and body share the tie-rule colour and the wick reaches the body top; when the candle moved and y_scale > 0, the body ends within the wick |
| `Chart.WalkChartWellDrawnWith` | Graph.py:161-185 | for any metrics with y_scale >= 0 under which the candle layer can be drawn, every candle of a walk is bull-coloured exactly when its drift is non-negative, its wick reaches the body top, and with y_scale > 0 the body of a candle that moved ends within the wick |
| `Chart.WalkChartWellDrawn` | Graph.py:112-122 | on a chart of generated data that is drawn, with height >= 2·padding, every candle is bull-coloured exactly when its drift is non-negative, wick and body share the colour, the wick reaches the body top, and when the plot has positive height the wick encloses the body of every candle that moved |
| `Chart.GeneratedRangeNotWidened` | Graph.py:78-82 | a generated non-empty series is never flat, so its greatest high is used as max_val without widening |
| `Chart.GridMarksQuarterPrices` | Graph.py:142-143 | with a scale that stretches the range over the plot height (as `ScaleFitsPlot` gives), gridline i sits at the row of the price min_val + i/4·(max_val − min_val), and max_val maps to the top edge of the plot area (y = padding) |
| `Chart.PlotAreaExample` | Graph.py:84-85 | an 800×600 canvas with padding 60 gives a 680×480 plot area |
| `Chart.SingleCandleExample` | Graph.py:163-174 | candle (100, 110, 90, 105) is bull-coloured; a candle with open = close is bull-coloured with a one-pixel body |
| `Chart.FlatSeriesExample` | Graph.py:78-86 | a series whose lows and highs are all 50 gets min_val 50, max_val 50 + 1e-5 and a positive scale when the plot has positive height |

## Left out

- Loading the background image (`Image.open`/`convert`, Graph.py:108). The canvas
  width and height are parameters, and the error for a missing or unreadable file is not
  modelled. This is a call into the image library.
- Creating the overlay, alpha compositing and flattening (Graph.py:116-117, 126), and
  how the image library rasterises lines, rounded rectangles and stroked text. Only the
  commands issued are modelled.
- Encoding to an in-memory buffer, JPEG quality and the output-format error
  (`_save_to_bytesio`, Graph.py:217-223). This is serialisation inside the image library.
- Font loading itself (Graph.py:199-202). Whether the TrueType face loads is the boolean
  `fontLoads`; `ResolveFont` models the bare `except` fallback.
- The `random` module (Graph.py:62, 66-68). The caller supplies the seed and draws, with
  preconditions for the ranges of `uniform(80, 120)`, `uniform(-20, 20)` and
  `uniform(5, 15)`. `Walk` needs no range to be defined; only the shape properties use them.
- IEEE-754 rounding of Python floats. All arithmetic is exact on `real`, so the 1e-5
  widening and the divisions are exact in the model.
- The constructor and mutable style fields (Graph.py:26-48). `Style` is an immutable
  value, `DefaultStyle` holds the constructor defaults, and the fixed panel colour, grid
  colour and wick width are constants.
- The `__main__` example and its file write (Graph.py:227-250).
- `Chart.WalkChartWellDrawn`: stated for `ChartScene` of a walk rather than for
  `GenerateChart` itself. `GenerateChart`'s contract says its fallback is exactly that
  scene.
- `Chart.GenerateChart`: the `InvertedBox` failure models the check the image library's
  `rounded_rectangle` makes on its box (second corner not left of or above the first).
  Pillow is not part of this model, so this condition follows Pillow's documented
  behaviour; no other exception from the drawing calls is modelled.
- `Chart.DrawnCandle` and `Layers.WickEnclosesBody`: when open = close the body is one
  pixel high, and that pixel is not proved to lie inside the wick. The source does not
  guarantee it either (a one-pixel body can extend past a wick shorter than one pixel).

On these edge cases the model follows Graph.py:

- The range is widened whenever max(high) <= min(low) (Graph.py:81), which covers
  inverted ranges from malformed data as well as flat ones.
- A non-positive `data_points` yields an empty series rather than being rejected
  (Graph.py:64), and charting it then fails in `min()`.
- An empty caller series is treated like a missing one (`data or ...`, Graph.py:112).
