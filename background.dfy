/** `updateGradient`: the three-stop background gradient, the fixed palette
    shifted by the aggregate energy. */
module Background {
  import opened Numbers
  import opened Shapes

  /** `gradientColors`: the base colours of the three stops. */
  const Palette: seq<Rgb> := [Rgb(15.0, 32.0, 39.0), Rgb(32.0, 58.0, 67.0), Rgb(44.0, 83.0, 100.0)]

  datatype GradientStop = GradientStop(offset: real, color: Rgb)

  predicate NonNegative(c: Rgb) {
    c.r >= 0.0 && c.g >= 0.0 && c.b >= 0.0
  }

  /** The stops `updateGradient(audioValue)` adds, at offsets 0, 0.5 and 1.
      Every channel is the absolute value of a palette channel, some shifted
      up or down by `audioValue % 255`. */
  function GradientStops(v: real): (stops: seq<GradientStop>)
    ensures |stops| == 3
    ensures stops[0].offset == 0.0 && stops[1].offset == 0.5 && stops[2].offset == 1.0
    ensures forall k :: 0 <= k < |stops| ==> NonNegative(stops[k].color)
    ensures stops[0].color.b == Palette[0].b
    ensures stops[1].color.b == Palette[1].b
    ensures stops[2].color.r == Palette[2].r
  {
    var m := Rem255(v);
    var c0, c1, c2 := Palette[0], Palette[1], Palette[2];
    [ GradientStop(0.0, Rgb(Abs(c0.r + m), Abs(c0.g - m), Abs(c0.b))),
      GradientStop(0.5, Rgb(Abs(c1.r - m), Abs(c1.g + m), Abs(c1.b))),
      GradientStop(1.0, Rgb(Abs(c2.r), Abs(c2.g - m), Abs(c2.b + m))) ]
  }

  /** For an energy in [0, 255], with m the energy (or 0 at exactly 255):
      the channels shifted upward are the palette channel plus m, the ones
      shifted downward are the distance between the palette channel and m. */
  lemma GradientOnByteRange(v: real)
    requires 0.0 <= v <= 255.0
    ensures var m := if v < 255.0 then v else 0.0;
      var stops := GradientStops(v);
      && stops[0].color == Rgb(15.0 + m, Abs(32.0 - m), 39.0)
      && stops[1].color == Rgb(Abs(32.0 - m), 58.0 + m, 67.0)
      && stops[2].color == Rgb(44.0, Abs(83.0 - m), 100.0 + m)
  {
  }

  /** In silence the stops are the palette itself. */
  lemma GradientAtSilence()
    ensures forall k :: 0 <= k < 3 ==> GradientStops(0.0)[k].color == Palette[k]
  {
  }

  /** Because of the `% 255`, full-scale energy paints the same background
      as silence. */
  lemma GradientFullScaleWraps()
    ensures GradientStops(255.0) == GradientStops(0.0)
  {
  }
}
