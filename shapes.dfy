/** The numbers the visualiser hands to the canvas: points, colours, discs. */
module Shapes {

  datatype Point = Point(x: real, y: real)

  /** An `rgba(r, g, b, a)` colour, channels as computed (not clamped). */
  datatype Rgba = Rgba(r: real, g: real, b: real, a: real)

  /** An `rgb(r, g, b)` colour, channels as computed (not clamped). */
  datatype Rgb = Rgb(r: real, g: real, b: real)

  /** A filled circle: `arc(center, radius)` followed by `fill` in `color`. */
  datatype Disc = Disc(center: Point, radius: real, color: Rgba)
}
