/** The visualiser's global state, the particle array and whether audio has
    been set up, together with the two event handlers that rebuild the
    particles and one iteration of the animation loop. */
module Animation {
  import opened Numbers
  import opened Shapes
  import opened Spectrum
  import opened Particles
  import opened ParticleLinks
  import opened CoreGlow
  import opened Background

  /** Particles built by each batch. */
  const ParticleCount: nat := 200

  /** The Math.random() draws one particle of a batch consumes, in the order
      the handlers make them: radius, angle, red, green, blue, then the
      speed drawn by the Particle constructor. */
  datatype SpawnDraw = SpawnDraw(radius: real, angle: real, red: real, green: real, blue: real, speed: real)

  predicate InUnitInterval(u: real) {
    0.0 <= u < 1.0
  }

  predicate ValidDraw(d: SpawnDraw) {
    InUnitInterval(d.radius) && InUnitInterval(d.angle) && InUnitInterval(d.red)
    && InUnitInterval(d.green) && InUnitInterval(d.blue) && InUnitInterval(d.speed)
  }

  /** `Math.random() * 150 + 50` */
  function SpawnRadius(u: real): (r: real)
    requires InUnitInterval(u)
    ensures 50.0 <= r < 200.0
  {
    u * 150.0 + 50.0
  }

  /** `Math.random() * Math.PI * 2` */
  function SpawnAngle(u: real): (a: real)
    requires InUnitInterval(u)
    ensures 0.0 <= a < 2.0 * Pi
  {
    u * Pi * 2.0
  }

  /** `rgba(Math.random() * 255, Math.random() * 255, Math.random() * 255, 0.8)` */
  function SpawnColor(d: SpawnDraw): (c: Rgba)
    requires ValidDraw(d)
    ensures 0.0 <= c.r < 255.0 && 0.0 <= c.g < 255.0 && 0.0 <= c.b < 255.0
    ensures c.a == DotAlpha
  {
    Rgba(d.red * 255.0, d.green * 255.0, d.blue * 255.0, DotAlpha)
  }

  /** The state of the particle a handler builds at the centre (cx, cy)
      from the draws `d`. */
  function Spawned(cx: real, cy: real, d: SpawnDraw): ParticleState
    requires ValidDraw(d)
  {
    Created(cx, cy, SpawnRadius(d.radius), SpawnAngle(d.angle), SpawnColor(d), d.speed)
  }

  /** A freshly spawned particle sits at the centre with its current radius
      equal to a base radius in [50, 200), an angle in [0, 2 pi), a speed in
      [0.01, 0.03) and a colour of alpha 0.8. */
  lemma SpawnedRanges(cx: real, cy: real, d: SpawnDraw)
    requires ValidDraw(d)
    ensures var s := Spawned(cx, cy, d);
      && ValidState(s)
      && s.x == cx && s.y == cy
      && s.radius == s.baseRadius && 50.0 <= s.baseRadius < 200.0
      && 0.0 <= s.angle < 2.0 * Pi
      && 0.01 <= s.speed < 0.03
      && s.color.a == DotAlpha
  {
  }

  predicate Distinct(ps: seq<Particle>) {
    forall a, b :: 0 <= a < b < |ps| ==> ps[a] != ps[b]
  }

  /** The centres of the discs drawn, in order. */
  function Centers(discs: seq<Disc>): seq<Point>
  {
    seq(|discs|, k requires 0 <= k < |discs| => discs[k].center)
  }

  /** What one iteration of `animate` paints, in painting order: the
      background gradient, one disc per particle, the connecting lines, the
      core. `audioValue` is the aggregate energy that drove it. */
  datatype Frame = Frame(audioValue: real, background: seq<GradientStop>, dots: seq<Disc>,
                         strokes: seq<Stroke>, core: Disc)

  class Visualizer {
    /** `particles` */
    var particles: seq<Particle>
    /** Whether `audioContext` has been created. */
    var audioStarted: bool
    /** `dataArray.length`: 0 while `dataArray` is unset, then the
        analyser's `frequencyBinCount`. */
    var binCount: nat

    /** Every particle is its own object, keeps its speed and radius
        bounds, and has a base radius from the spawn range. */
    predicate Valid()
      reads this, particles
    {
      && (audioStarted ==> binCount == BinCount)
      && Distinct(particles)
      && forall k :: 0 <= k < |particles| ==>
           particles[k].Valid() && 50.0 <= particles[k].baseRadius < 200.0
    }

    /** The state at script load: no particles and no audio context. */
    constructor ()
      ensures Valid()
      ensures particles == [] && !audioStarted && binCount == 0
    {
      particles := [];
      audioStarted := false;
      binCount := 0;
    }

    /** The loop both handlers run: `particles.push(new Particle(...))`
        200 times, with the particles centred at (cx, cy). */
    method PushBatch(cx: real, cy: real, draws: seq<SpawnDraw>)
      requires Valid()
      requires |draws| == ParticleCount && forall k :: 0 <= k < |draws| ==> ValidDraw(draws[k])
      modifies this
      ensures Valid()
      ensures audioStarted == old(audioStarted) && binCount == old(binCount)
      ensures |particles| == |old(particles)| + ParticleCount
      ensures particles[..|old(particles)|] == old(particles)
      ensures forall k :: |old(particles)| <= k < |particles| ==>
                fresh(particles[k]) && particles[k].State() == Spawned(cx, cy, draws[k - |old(particles)|])
    {
      var n := |particles|;
      for i := 0 to ParticleCount
        invariant audioStarted == old(audioStarted) && binCount == old(binCount)
        invariant |particles| == n + i
        invariant particles[..n] == old(particles)
        invariant forall k :: n <= k < |particles| ==>
                    fresh(particles[k]) && particles[k].State() == Spawned(cx, cy, draws[k - n])
        invariant Valid()
      {
        var d := draws[i];
        var radius := SpawnRadius(d.radius);
        var angle := SpawnAngle(d.angle);
        var color := SpawnColor(d);
        var p := new Particle(cx, cy, radius, angle, color, d.speed);
        SpawnedRanges(cx, cy, d);
        particles := particles + [p];
      }
    }

    /** The resize handler: the old particles are dropped and a new batch
        of 200 is built around the new centre (cx, cy). */
    method OnResize(cx: real, cy: real, draws: seq<SpawnDraw>)
      requires Valid()
      requires |draws| == ParticleCount && forall k :: 0 <= k < |draws| ==> ValidDraw(draws[k])
      modifies this
      ensures Valid()
      ensures audioStarted == old(audioStarted) && binCount == old(binCount)
      ensures |particles| == ParticleCount
      ensures forall k :: 0 <= k < |particles| ==>
                fresh(particles[k]) && particles[k].State() == Spawned(cx, cy, draws[k])
    {
      particles := [];
      PushBatch(cx, cy, draws);
    }

    /** The file-change handler once a file is chosen: the first time, it
        creates the audio context, sizes `dataArray` to the analyser's bin
        count and appends a batch of 200 particles to whatever `particles`
        holds; afterwards nothing of this state changes. */
    method OnAudioFile(cx: real, cy: real, draws: seq<SpawnDraw>)
      requires Valid()
      requires |draws| == ParticleCount && forall k :: 0 <= k < |draws| ==> ValidDraw(draws[k])
      modifies this
      ensures Valid()
      ensures audioStarted && binCount == BinCount
      ensures old(audioStarted) ==> particles == old(particles) && binCount == old(binCount)
      ensures !old(audioStarted) ==>
                && |particles| == |old(particles)| + ParticleCount
                && particles[..|old(particles)|] == old(particles)
                && forall k :: |old(particles)| <= k < |particles| ==>
                     fresh(particles[k]) && particles[k].State() == Spawned(cx, cy, draws[k - |old(particles)|])
    {
      if !audioStarted {
        audioStarted := true;
        binCount := FftSize / 2;
        PushBatch(cx, cy, draws);
      }
    }

    /** `particles.forEach((particle, index) =>
        particle.update(dataArray[index % dataArray.length]))`, returning
        the discs the updates draw. */
    method UpdateParticles(bins: seq<Byte>, cx: real, cy: real, cos: real -> real, sin: real -> real)
      returns (dots: seq<Disc>)
      requires Distinct(particles) && |bins| > 0
      modifies particles
      ensures |dots| == |particles|
      ensures forall k :: 0 <= k < |particles| ==>
                particles[k].State() == Step(old(particles[k].State()), Drive(bins, k), cx, cy, cos, sin)
      ensures forall k :: 0 <= k < |particles| ==> dots[k] == DotOf(particles[k].State())
    {
      dots := [];
      for i := 0 to |particles|
        invariant |dots| == i
        invariant forall k :: 0 <= k < i ==>
                    particles[k].State() == Step(old(particles[k].State()), Drive(bins, k), cx, cy, cos, sin)
        invariant forall k :: i <= k < |particles| ==> particles[k].State() == old(particles[k].State())
        invariant forall k :: 0 <= k < i ==> dots[k] == DotOf(particles[k].State())
      {
        var dot := particles[i].Update(bins[i % |bins|], cx, cy, cos, sin);
        dots := dots + [dot];
      }
    }

    /** One iteration of `animate` on the frequency data `bins`, with the
        canvas centred at (cx, cy) and `cos`, `sin`, `sqrt` standing for
        the Math functions. `animate` runs only once audio is set up, and
        the analyser fills all `binCount` entries of `dataArray`. Particle
        k is driven by bin `k % |bins|`. */
    method Animate(bins: seq<Byte>, cx: real, cy: real, cos: real -> real, sin: real -> real, sqrt: real -> real)
      returns (frame: Frame)
      requires Valid() && audioStarted && |bins| == binCount
      modifies particles
      ensures Valid()
      ensures frame.audioValue == Mean(bins)
      ensures frame.background == GradientStops(frame.audioValue)
      ensures forall k :: 0 <= k < |particles| ==>
                particles[k].State() == Step(old(particles[k].State()), Drive(bins, k), cx, cy, cos, sin)
      ensures |frame.dots| == |particles|
      ensures forall k :: 0 <= k < |particles| ==> frame.dots[k] == DotOf(particles[k].State())
      ensures frame.strokes == Connections(Centers(frame.dots), sqrt, frame.audioValue)
      ensures frame.core == CoreDisc(cx, cy, frame.audioValue)
    {
      // A started visualizer reads frames of BinCount > 0 bins, so the mean is defined.
      assert |bins| == BinCount > 0;
      var audioValue := Mean(bins);
      var background := GradientStops(audioValue);
      var dots := UpdateParticles(bins, cx, cy, cos, sin);
      forall k | 0 <= k < |particles|
        ensures particles[k].Valid() && 50.0 <= particles[k].baseRadius < 200.0
      {
        StepKeepsValid(old(particles[k].State()), Drive(bins, k), cx, cy, cos, sin);
      }
      var strokes := ConnectParticles(Centers(dots), sqrt, audioValue);
      var core := CoreDisc(cx, cy, audioValue);
      frame := Frame(audioValue, background, dots, strokes, core);
    }
  }
}
