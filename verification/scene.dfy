/**
 * The abstract drawing surface: colours, points, fonts, the draw commands the
 * renderer emits in z-order, and the generator's style configuration.
 */
module Scene {

  /** A fill colour, either opaque RGB or RGBA with an alpha channel. */
  datatype Color = RGB(r: int, g: int, b: int) | RGBA(r: int, g: int, b: int, a: int)

  datatype Point = Point(x: real, y: real)

  /** The label font: the requested TrueType face, or the library's built-in default. */
  datatype Font = TrueType(path: string, size: int) | DefaultFont

  /** One drawing call on the overlay layer; a scene is a sequence of these, earliest at the bottom. */
  datatype DrawCmd =
    | Line(start: Point, stop: Point, fill: Color, width: int)
    | RoundedRect(topLeft: Point, bottomRight: Point, radius: int, fill: Color, outline: Color, width: int)
    | Text(anchor: Point, text: string, fill: Color, font: Font, strokeWidth: int, strokeFill: Color)

  /** The configurable part of the generator. */
  datatype Style = Style(
    bullColor: Color,
    bearColor: Color,
    padding: int,
    candleWidthRatio: real,
    labelText: string,
    labelFont: string,
    labelSize: int,
    labelColor: Color)

  /** The constructor defaults. */
  const DefaultStyle: Style :=
    Style(RGB(76, 175, 80), RGB(239, 83, 80), 60, 0.7, "MCAP", "arial.ttf", 60, RGBA(255, 255, 255, 200))

  /** Fixed, non-configurable drawing parameters. */
  const ChartBackground: Color := RGBA(25, 25, 50, 125)
  const GridColor: Color := RGBA(255, 255, 255, 64)
  const WickWidth: int := 5
}
