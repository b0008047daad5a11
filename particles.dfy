/** A single orbiting particle: its creation from random draws, its per-frame
    update from one drive value, and the class whose fields that update
    changes in place. */
module Particles {
  import opened Numbers
  import opened Shapes

  /** `Math.PI` */
  const Pi: real := 3.141592653589793

  /** Pixel radius of the disc drawn for every particle. */
  const DotRadius: real := 3.0

  /** Alpha of every particle colour. */
  const DotAlpha: real := 0.8

  /** Every field of a particle at one moment. */
  datatype ParticleState = ParticleState(
    x: real, y: real,
    radius: real,      // current distance from the centre
    angle: real,       // accumulated rotation
    color: Rgba,
    speed: real,       // orbital speed, fixed at creation
    baseRadius: real)  // orbital radius at creation

  /** What every particle keeps from creation on: a speed drawn from
      [0.01, 0.03), and a current radius between its base radius and the
      base radius plus the largest pull a byte can exert. */
  predicate ValidState(s: ParticleState) {
    0.01 <= s.speed < 0.03 && s.baseRadius <= s.radius <= s.baseRadius + 127.5
  }

  /** `Math.random() * 0.02 + 0.01` for a draw `u` of Math.random(). */
  function OrbitSpeed(u: real): (s: real)
    requires 0.0 <= u < 1.0
    ensures 0.01 <= s < 0.03
  {
    u * 0.02 + 0.01
  }

  /** The state `new Particle(x, y, radius, angle, color)` builds, with
      `speedDraw` the Math.random() draw the constructor makes. */
  function Created(x: real, y: real, radius: real, angle: real, color: Rgba, speedDraw: real): (s: ParticleState)
    requires 0.0 <= speedDraw < 1.0
    ensures ValidState(s)
    ensures s.radius == s.baseRadius == radius && s.angle == angle
    ensures s.x == x && s.y == y && s.color == color
  {
    ParticleState(x, y, radius, angle, color, OrbitSpeed(speedDraw), radius)
  }

  lemma ScaledBetween(speed: real, factor: real)
    requires 0.0 < speed && 1.0 <= factor < 2.0
    ensures speed <= speed * factor < 2.0 * speed
  {
  }

  /** How far `update(v)` turns a particle of orbital speed `speed`:
      `speed * (1 + v / 256)`. */
  function AngleStep(speed: real, v: Byte): (d: real)
    ensures 0.0 < speed ==> speed <= d < 2.0 * speed
  {
    var factor := 1.0 + (v as real) / 256.0;
    assert factor < 2.0;
    assert 0.0 < speed ==> speed <= speed * factor && speed * factor < 2.0 * speed by {
      if 0.0 < speed {
        ScaledBetween(speed, factor);
      }
    }
    speed * factor
  }

  /** The radius `update(v)` sets: `baseRadius + v * 0.5`. */
  function OrbitRadius(baseRadius: real, v: Byte): (r: real)
    ensures baseRadius <= r <= baseRadius + 127.5
    ensures v == 0 ==> r == baseRadius
  {
    baseRadius + (v as real) * 0.5
  }

  /** `update(v)` for a canvas centred at (cx, cy), with `cos` and `sin`
      standing for Math.cos and Math.sin. Speed, base radius and colour are
      never written. */
  function Step(s: ParticleState, v: Byte, cx: real, cy: real, cos: real -> real, sin: real -> real): (t: ParticleState)
    ensures t.speed == s.speed && t.baseRadius == s.baseRadius && t.color == s.color
  {
    var angle := s.angle + AngleStep(s.speed, v);
    var radius := OrbitRadius(s.baseRadius, v);
    s.(angle := angle, radius := radius,
       x := cx + cos(angle) * radius, y := cy + sin(angle) * radius)
  }

  /** An update keeps a valid particle valid, turns it forward by at least
      its speed and less than twice it, and puts it at the radius its drive
      value selects, never inside its base radius. */
  lemma StepKeepsValid(s: ParticleState, v: Byte, cx: real, cy: real, cos: real -> real, sin: real -> real)
    requires ValidState(s)
    ensures var t := Step(s, v, cx, cy, cos, sin);
      && ValidState(t)
      && s.angle + s.speed <= t.angle < s.angle + 2.0 * s.speed
      && t.radius == s.baseRadius + (v as real) * 0.5
      && s.baseRadius <= t.radius
  {
  }

  /** The state after one update per frame, frame by frame, with the drive
      values `drives` in frame order. */
  function Run(s: ParticleState, drives: seq<Byte>, cx: real, cy: real, cos: real -> real, sin: real -> real): ParticleState
  {
    if |drives| == 0 then s
    else Step(Run(s, drives[..|drives| - 1], cx, cy, cos, sin), drives[|drives| - 1], cx, cy, cos, sin)
  }

  /** Over any number of frames the angle only grows: after n updates it has
      advanced by at least n times the speed and less than 2n times it, and
      speed, base radius and colour are those of creation. */
  lemma {:induction false} RunAdvances(s: ParticleState, drives: seq<Byte>, cx: real, cy: real, cos: real -> real, sin: real -> real)
    requires ValidState(s)
    ensures var t := Run(s, drives, cx, cy, cos, sin);
      && ValidState(t)
      && t.speed == s.speed && t.baseRadius == s.baseRadius && t.color == s.color
      && s.angle + (|drives| as real) * s.speed <= t.angle
      && t.angle <= s.angle + 2.0 * (|drives| as real) * s.speed
      && (|drives| > 0 ==> s.angle < t.angle)
  {
    if |drives| > 0 {
      var prefix := drives[..|drives| - 1];
      RunAdvances(s, prefix, cx, cy, cos, sin);
      StepKeepsValid(Run(s, prefix, cx, cy, cos, sin), drives[|drives| - 1], cx, cy, cos, sin);
    }
  }

  /** The disc `draw()` paints for a particle in state `s`. */
  function DotOf(s: ParticleState): Disc
  {
    Disc(Point(s.x, s.y), DotRadius, s.color)
  }

  /** After an update the particle, and the disc drawn for it, lies on the
      circle of radius `baseRadius + v/2` around the centre (cx, cy),
      whenever `cos` and `sin` agree at the new angle (cos² + sin² = 1).
      The disc has the fixed radius 3 and the particle's colour. */
  lemma DotOnOrbit(s: ParticleState, v: Byte, cx: real, cy: real, cos: real -> real, sin: real -> real)
    requires var t := Step(s, v, cx, cy, cos, sin);
      cos(t.angle) * cos(t.angle) + sin(t.angle) * sin(t.angle) == 1.0
    ensures var t := Step(s, v, cx, cy, cos, sin);
      var d := DotOf(t);
      && (d.center.x - cx) * (d.center.x - cx) + (d.center.y - cy) * (d.center.y - cy) == t.radius * t.radius
      && t.radius == s.baseRadius + (v as real) * 0.5
      && d.radius == DotRadius && d.color == s.color
  {
  }

  /** `class Particle`: an object whose `update` rewrites its position, angle
      and radius in place. */
  class Particle {
    var x: real
    var y: real
    var radius: real
    var angle: real
    var color: Rgba
    var speed: real
    var baseRadius: real

    function State(): ParticleState
      reads this
    {
      ParticleState(x, y, radius, angle, color, speed, baseRadius)
    }

    predicate Valid()
      reads this
    {
      ValidState(State())
    }

    constructor (x0: real, y0: real, radius0: real, angle0: real, color0: Rgba, speedDraw: real)
      requires 0.0 <= speedDraw < 1.0
      ensures State() == Created(x0, y0, radius0, angle0, color0, speedDraw)
      ensures Valid()
    {
      x := x0;
      y := y0;
      radius := radius0;
      angle := angle0;
      color := color0;
      speed := OrbitSpeed(speedDraw);
      baseRadius := radius0;
    }

    /** `update(audioValue)`, returning the disc its `draw()` paints. */
    method Update(v: Byte, cx: real, cy: real, cos: real -> real, sin: real -> real) returns (dot: Disc)
      modifies this
      ensures State() == Step(old(State()), v, cx, cy, cos, sin)
      ensures old(Valid()) ==> Valid()
      ensures dot == DotOf(State())
    {
      var speedFactor := (v as real) / 256.0;
      angle := angle + speed * (1.0 + speedFactor);
      radius := baseRadius + (v as real) * 0.5;
      x := cx + cos(angle) * radius;
      y := cy + sin(angle) * radius;
      dot := Disc(Point(x, y), DotRadius, color);
      ghost var t := Step(old(State()), v, cx, cy, cos, sin);
      assert t.angle == angle && t.radius == radius;
      assert t.x == x && t.y == y;
      if old(Valid()) {
        StepKeepsValid(old(State()), v, cx, cy, cos, sin);
      }
    }
  }
}
