# MusicHandler tornado visualiser — Dafny model

MusicHandler plays an audio file and draws an audio-reactive "tornado" on a
canvas: 200 particles orbit the centre, lines join particles that are close
to each other, a glowing core pulses in the middle and the background
gradient shifts with the music. This project models the per-frame simulation
under the canvas and Web Audio plumbing of `MusicHandler/script.js`:

- **Spectrum** — the analyser's byte array (`fftSize` 256, so 128 bins), its
  mean `audioValue`, and the wrap-around `index % dataArray.length` that gives
  every particle a bin.
- **Particles** — the `Particle` class: creation (orbital speed drawn in
  [0.01, 0.03), base radius = initial radius) and `update(v)`, which turns
  the particle by `speed * (1 + v/256)` and sets its radius to
  `baseRadius + v/2`. The class keeps the source's fields and updates them in
  place; `ParticleState` and `Step` give the value-level meaning of one update.
- **ParticleLinks** — `connectParticles`: the nested loops over pairs
  `i <= j` (self-pairs included), the `distance < 100` test, alpha
  `1 - distance/100` and line width `1 + v * 0.01`. The loops are a method
  proved equal to a specification function whose soundness, completeness and
  ordering are proved.
- **CoreGlow** — `drawCore`: radius `min(150 + v, 400)` and the unclamped
  colour `(2v, 255 - v, 3v, 0.5)`.
- **Background** — `updateGradient`: three stops from the fixed palette, each
  channel `abs(base ± v % 255)` following the source's sign pattern. JavaScript's
  `%` is modelled as the truncated remainder (`Numbers.Rem255`).
- **Animation** — the `Visualizer` class holding `particles`, whether the
  audio context exists and the length of the data array it fills, the resize handler (drop every particle, build 200
  fresh ones), the file handler's first-time set-up (append 200 particles),
  and one iteration of `animate` returning the numbers it paints.

Numbers are `real`; spectrum bytes are the newtype `Byte` in [0, 255].
`Math.random()` draws are passed in as values in [0, 1), and `Math.cos`,
`Math.sin` and `Math.sqrt` as function parameters.

The file handler appends its batch to `particles` without clearing it
(script.js:75-80), while the resize handler clears first (script.js:173).
A window resize before the first file is chosen therefore leaves 400
particles after activation. `OnAudioFile` states this as written: the count is
200 after activation only when no resize came first, and after any resize it
is 200.

## Model

| member | source | states |
|---|---|---|
| Numbers.Abs | MusicHandler/script.js:148-162 | `Math.abs` is non-negative and equals x or -x |
| Numbers.Rem255 | MusicHandler/script.js:148-162 | `x % 255` has the sign of x, magnitude below 255, and differs from x by an integer multiple of 255 |
| Numbers.Rem255OnByteRange | MusicHandler/script.js:148-162 | on [0, 255], `x % 255` is x below 255 and 0 at 255 |
| Spectrum.SumBounds | MusicHandler/script.js:94 | the sum of n bytes lies in [0, 255 n] |
| Spectrum.SumOfConstant | MusicHandler/script.js:94 | the sum of n equal bytes c is c n |
| Spectrum.Mean | MusicHandler/script.js:94 | `audioValue` times the bin count is the bin sum, and lies in [0, 255] |
| Spectrum.MeanOfConstant | MusicHandler/script.js:94 | the mean of equal bins is that value |
| Spectrum.AnalyserFrameHasBins | MusicHandler/script.js:65-68 | `fftSize` 256 gives a `frequencyBinCount` of 128, a positive length; `Animate` takes frames of this length, so its mean is always defined |
| Spectrum.DriveIndex | MusicHandler/script.js:101 | `index % length` is below the length and is the index itself for indices below it |
| Spectrum.DriveIndexPeriodic | MusicHandler/script.js:101 | bin assignment repeats with period equal to the bin count |
| Spectrum.DriveIndexCoverage | MusicHandler/script.js:100-102 | every bin k drives particles `q * len + k` for all q below `count / len` |
| Spectrum.Drive | MusicHandler/script.js:101 | a particle's drive value is one of the frame's bins |
| Spectrum.SingleBinDrivesAll | MusicHandler/script.js:101 | with one bin every particle receives that bin |
| Particles.OrbitSpeed | MusicHandler/script.js:31 | `Math.random() * 0.02 + 0.01` lies in [0.01, 0.03) |
| Particles.Created | MusicHandler/script.js:25-33 | a new particle keeps the given position, angle and colour, has radius = baseRadius and a valid speed |
| Particles.AngleStep | MusicHandler/script.js:43-44 | the turn per update is at least the speed and less than twice it |
| Particles.OrbitRadius | MusicHandler/script.js:45 | the updated radius lies in [baseRadius, baseRadius + 127.5] and equals baseRadius in silence |
| Particles.Step | MusicHandler/script.js:42-50 | an update never changes speed, base radius or colour |
| Particles.StepKeepsValid | MusicHandler/script.js:42-45 | an update keeps the particle invariant, strictly increases the angle by [speed, 2 speed) and sets radius `baseRadius + v/2` |
| Particles.RunAdvances | MusicHandler/script.js:42-45 | after n frames the angle has grown by between n and 2n times the speed, strictly when n > 0 |
| Particles.DotOnOrbit | MusicHandler/script.js:45-51 | after an update the particle, and the radius-3 disc drawn in its colour, lies at squared distance `(baseRadius + v/2)²` from the centre, given cos² + sin² = 1 at the new angle |
| Particles.Particle.constructor | MusicHandler/script.js:25-33 | the constructed fields are those of `Created` |
| Particles.Particle.Update | MusicHandler/script.js:35-52 | the new fields are `Step` of the old ones, the particle invariant is kept, and the disc drawn is at the new position |
| ParticleLinks.LinkAlpha | MusicHandler/script.js:134 | alpha lies in (0, 1] for distances in [0, 100) and is 1 at distance 0 |
| ParticleLinks.LinkAlphaDecreasing | MusicHandler/script.js:134 | alpha strictly decreases with distance |
| ParticleLinks.LineWidth | MusicHandler/script.js:135 | the width is at least 1 and at most 3.55 for energies in [0, 255] |
| ParticleLinks.ConnectParticles | MusicHandler/script.js:123-140 | the nested loops emit exactly the strokes of `Connections` |
| ParticleLinks.ConnectionsSound | MusicHandler/script.js:124-136 | every stroke is of a pair i <= j closer than 100, with alpha `1 - d/100` and the frame's width, in loop order with no pair twice |
| ParticleLinks.ConnectionsComplete | MusicHandler/script.js:124-130 | every pair i <= j closer than 100 is stroked |
| ParticleLinks.SelfPairsLinked | MusicHandler/script.js:125-134 | each particle is linked to itself with alpha 1 |
| ParticleLinks.LinkTestBySquares | MusicHandler/script.js:126-130 | for two particle positions, `Distance < 100` holds exactly when `dx² + dy² < 10000`, given that `sqrt` returns the non-negative square root of every non-negative number |
| ParticleLinks.TwoParticlesFiftyApart | MusicHandler/script.js:124-136 | particles at (0,0) and (50,0) give the two self-links and one link of alpha 0.5 |
| CoreGlow.CoreRadius | MusicHandler/script.js:116 | the radius is the smaller of 150 + v and 400 |
| CoreGlow.CoreRadiusCases | MusicHandler/script.js:116 | radius 150 in silence, 150 + v up to v = 250, 400 from there on |
| CoreGlow.CoreColor | MusicHandler/script.js:118 | alpha 0.5; red and green sum to 255 + v; blue is 3/2 of red |
| CoreGlow.CoreColorOnByteRange | MusicHandler/script.js:118 | channels are non-negative, red and blue rise and green falls with v, and red and blue exceed 255 (no clamping) |
| CoreGlow.CoreColorExtremes | MusicHandler/script.js:118 | colours (0, 255, 0, 0.5) at v = 0 and (510, 0, 765, 0.5) at v = 255 |
| CoreGlow.CoreDisc | MusicHandler/script.js:114-120 | the core is centred, its radius never above 400, with alpha 0.5 |
| Background.GradientStops | MusicHandler/script.js:143-163 | three stops at 0, 0.5, 1, all channels non-negative, stop 0 blue, stop 1 blue and stop 2 red equal the palette |
| Background.GradientOnByteRange | MusicHandler/script.js:146-163 | for v in [0, 255] each shifted channel is the palette value plus m or the distance between the palette value and m, m = v (0 at 255); the unshifted channels are the palette values |
| Background.GradientAtSilence | MusicHandler/script.js:17-21 | in silence the stops are the palette |
| Background.GradientFullScaleWraps | MusicHandler/script.js:146-163 | energy 255 paints the same background as silence |
| Animation.SpawnRadius | MusicHandler/script.js:76 | `Math.random() * 150 + 50` lies in [50, 200) |
| Animation.SpawnAngle | MusicHandler/script.js:77 | `Math.random() * Math.PI * 2` lies in [0, 2 pi) |
| Animation.SpawnColor | MusicHandler/script.js:78 | colour channels lie in [0, 255) with alpha 0.8 |
| Animation.SpawnedRanges | MusicHandler/script.js:75-79 | a spawned particle is centred with radius = baseRadius in [50, 200), angle in [0, 2 pi), speed in [0.01, 0.03) |
| Animation.Visualizer.constructor | MusicHandler/script.js:8-14 | at load there are no particles, no audio context and no data array |
| Animation.Visualizer.PushBatch | MusicHandler/script.js:75-80 | 200 fresh particles built from the draws are appended, the earlier ones untouched |
| Animation.Visualizer.OnResize | MusicHandler/script.js:170-179 | afterwards there are exactly 200 particles, all fresh, none of the old ones |
| Animation.Visualizer.OnAudioFile | MusicHandler/script.js:62-81 | the first file creates the audio context, sizes the data array to 128 bins and appends 200 particles; later files change none of this |
| Animation.Visualizer.UpdateParticles | MusicHandler/script.js:100-102 | particle k becomes `Step` of its old state with bin `k % len`; one disc per particle |
| Animation.Visualizer.Animate | MusicHandler/script.js:88-111 | one frame on a data array of the analyser's 128 bins: mean energy, gradient, every particle stepped, strokes of the new positions, core, with the particle invariant kept |

## Left out

- Canvas calls (`clearRect`, `arc`, `fill`, `moveTo`, `lineTo`, `stroke`, `createLinearGradient`, `fillRect`) are not modelled; the model returns the numbers they would receive.
- The `rgba(...)`/`rgb(...)` strings, and the backend's clamping of channels outside [0, 255], are not modelled: colours are kept as unclamped numbers.
- DOM access, the file input, `Audio` playback, creating the `AudioContext` and analyser, and `getByteFrequencyData` are browser I/O; the bytes of a frame are an input sequence.
- `requestAnimationFrame` scheduling is host-driven looping. Each file selection calls `animate()` again, so several loops can run side by side; this is not modelled. `Animate` is one iteration.
- `Math.random`, `Math.cos`, `Math.sin` and `Math.sqrt` are parameters; IEEE-754 rounding is not modelled (real arithmetic), and `Math.PI` is its decimal value 3.141592653589793.
- `canvas.width / 2` and `canvas.height / 2` are the centre parameters `cx`, `cy`; resizing the canvas itself is not modelled.
- Spectrum.Mean: requires a non-empty frame, since `reduce` without a seed fails on an empty array; `Animate` only passes frames of the analyser's 128 bins.
- Calling `animate` before any file is chosen (the analyser does not exist yet) is not modelled: `Animate` requires the audio set-up to have happened.
- The file handler when no file is chosen does nothing and has no method.
