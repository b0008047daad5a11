/** `drawCore`: the disc at the centre of the canvas whose size and colour
    follow the aggregate energy. */
module CoreGlow {
  import opened Shapes

  const CoreBaseRadius: real := 150.0
  const CoreMaxRadius: real := 400.0
  const CoreAlpha: real := 0.5

  /** `Math.min(150 + audioValue, 400)` */
  function CoreRadius(v: real): (r: real)
    ensures r <= CoreMaxRadius && r <= CoreBaseRadius + v
    ensures r == CoreMaxRadius || r == CoreBaseRadius + v
  {
    if CoreBaseRadius + v < CoreMaxRadius then CoreBaseRadius + v else CoreMaxRadius
  }

  /** The radius is 150 in silence, grows one pixel per unit of energy, and
      is pinned at 400 from an energy of 250 on. */
  lemma CoreRadiusCases(v: real)
    ensures v == 0.0 ==> CoreRadius(v) == 150.0
    ensures v <= 250.0 ==> CoreRadius(v) == 150.0 + v
    ensures v >= 250.0 ==> CoreRadius(v) == 400.0
  {
  }

  /** `rgba(audioValue * 2, 255 - audioValue, audioValue * 3, 0.5)`, left unclamped. */
  function CoreColor(v: real): (c: Rgba)
    ensures c.a == CoreAlpha
    ensures c.r + c.g == 255.0 + v && 2.0 * c.b == 3.0 * c.r
  {
    Rgba(v * 2.0, 255.0 - v, v * 3.0, CoreAlpha)
  }

  /** Over the range of a mean of bytes every channel is non-negative, red
      and blue grow with the energy and green shrinks. Nothing caps them at
      255: red exceeds 255 once the energy passes 127.5, and blue once it
      passes 85. */
  lemma CoreColorOnByteRange(v: real, w: real)
    requires 0.0 <= v <= w <= 255.0
    ensures var c, d := CoreColor(v), CoreColor(w);
      && 0.0 <= c.r <= 510.0 && 0.0 <= c.g <= 255.0 && 0.0 <= c.b <= 765.0
      && c.r <= d.r && c.b <= d.b && d.g <= c.g
      && (v > 127.5 ==> c.r > 255.0)
      && (v > 85.0 ==> c.b > 255.0)
  {
  }

  /** Silence and full scale give the colours (0, 255, 0) and (510, 0, 765). */
  lemma CoreColorExtremes()
    ensures CoreColor(0.0) == Rgba(0.0, 255.0, 0.0, 0.5)
    ensures CoreColor(255.0) == Rgba(510.0, 0.0, 765.0, 0.5)
  {
  }

  /** The disc `drawCore(audioValue)` fills at the canvas centre (cx, cy). */
  function CoreDisc(cx: real, cy: real, v: real): (d: Disc)
    ensures d.center == Point(cx, cy)
    ensures d.radius <= CoreMaxRadius
    ensures d.color.a == CoreAlpha
  {
    Disc(Point(cx, cy), CoreRadius(v), CoreColor(v))
  }
}
