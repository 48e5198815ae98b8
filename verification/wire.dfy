/**
 * The wire form of a shape (`ShapeType` of the front end) and the values
 * that travel with it.
 */
module Wire {
  import opened Geometry

  /**
   * A shape's style. The drawing code only carries it around; `NoConfig`
   * stands for the JavaScript `undefined` that a freehand shape's wire form
   * yields when asked for its config.
   */
  datatype Config =
    | NoConfig
    | Style(roughness: real, fill: string, stroke: string, strokeWidth: real, fillStyle: string)

  /**
   * The value a shape object holds in its `id` field. Rectangles, circles and
   * lines receive a number; the freehand constructor takes whatever its
   * second argument is, which at one call site is the style object.
   */
  datatype Id = Num(n: int) | ConfigAsId(config: Config)

  datatype Kind = RectKind | CircleKind | LineKind | PencilKind

  datatype Props =
    | RectProps(x: real, y: real, width: real, height: real, config: Config)
    | CircleProps(x: real, y: real, radius: real, config: Config)
    | LineProps(x: real, y: real, x2: real, y2: real, config: Config)
    | PencilProps(strokes: seq<Point>)
  {
    function Kind(): Kind {
      match this
      case RectProps(_, _, _, _, _) => RectKind
      case CircleProps(_, _, _, _) => CircleKind
      case LineProps(_, _, _, _, _) => LineKind
      case PencilProps(_) => PencilKind
    }

    /** The same geometry carrying style `c` (a freehand wire form has no style). */
    function WithConfig(c: Config): (r: Props)
      ensures r.Kind() == Kind()
      ensures !PencilProps? ==> r.config == c
    {
      match this
      case RectProps(x, y, w, h, _) => RectProps(x, y, w, h, c)
      case CircleProps(x, y, radius, _) => CircleProps(x, y, radius, c)
      case LineProps(x, y, x2, y2, _) => LineProps(x, y, x2, y2, c)
      case PencilProps(_) => this
    }
  }
}
