# Heart-particle sketch: a Dafny model of its control layer

`docs/sketch.js` is a p5.js animation. Five hundred particles drift on a Perlin-noise field until frame 600. Then they steer toward 200 points of a parametric heart curve. After frame 1200 they settle there with a small jiggle and damped velocity, and a confession text fades in.

This project models the discrete logic of that sketch over exact reals:

- the three-stage controller at the end of `draw()`;
- `setup()`: building the 200 heart targets, spawning the 500 particles and assigning targets round-robin;
- `generateHeartPoints`: point count and sample parameters;
- `Particle.update()`: the moving and drifting branches and the colour fade;
- the per-stage effects that `draw()` applies to every particle.

Modules:

- `Vectors` (vectors.dfy): the subset of `p5.Vector` the sketch uses, p5's `map`, and the contract assumed of `Vector.limit`.
- `Stages` (stages.dfy): the stage datatype, the one-frame `Step`, and replays of the controller over frame counts 1, 2, 3, ...
- `Particles` (particles.dfy): the particle record, `update()` and its two branches, and `lerp`/`lerpColor`.
- `Heart` (heart.dfy): `generateHeartPoints`.
- `Sketch` (sketch.dfy): the sketch's globals as a `World`, `setup()`, one `draw()` frame, runs of frames, and the invariant every frame keeps.

Library services and nondeterminism are parameters of the model:

- p5's `noise` and `Vector.limit` are function values in a `Library` record. `limit` is only assumed to satisfy `IsLimiter`: the result is at most `m` long, and a vector already that short is returned unchanged.
- `sin` and `cos` are function values in a `Trig` record.
- `random(width)`/`random(height)` at spawn time are the `spawn` positions.
- Each frame's `random2D()` and `random(-0.2, 0.2)` values are one `Roll` per particle.
- The canvas width and height are real parameters.

The comment at docs/sketch.js:38 says the colour changes from a cool to a warm colour. But the constructor already sets `color(255, 120, 180)` (docs/sketch.js:8), and `update()` lerps toward the same colour (docs/sketch.js:39-40), so the colour never changes. The model follows the code: `Update` states that a pink particle stays pink, and the invariant `Sketch.Good` carries it.

## Model

| member | source | states |
|---|---|---|
| Stages.Step | docs/sketch.js:113-122 | one frame moves the stage up by at most one and never down (the `else if` prevents a 0 to 2 jump); any move needs frameCount > 600, and transition to confession needs > 1200; past its threshold each stage does advance; the text is revealed exactly on the transition-to-confession move |
| Stages.Replay | docs/sketch.js:116-122 | over any sequence of frame counts, the stage never falls below its start and rises by at most one per frame |
| Stages.ReplayMonotone | docs/sketch.js:116-122 | the stage after any prefix of a run is at most the stage after the whole run |
| Stages.Reveals | docs/sketch.js:118-121 | over any run, the text is revealed at most once; it is revealed exactly when the run starts before confession and ends in confession |
| Stages.StageSchedule | docs/sketch.js:113-122 | starting idle and drawing frames 1..f, the stage is idle for f <= 600, transition for 600 < f <= 1200, and confession for f > 1200 |
| Stages.RevealSchedule | docs/sketch.js:116-121 | over frames 1..f the confession text is revealed once if f > 1200 and never otherwise |
| Particles.Lerp | docs/sketch.js:39-40 | a lerp with amount in [0, 1] stays between its endpoints, and its gap to the target is the old gap times (1 - amount) |
| Particles.LerpColor | docs/sketch.js:39-40 | every channel of the interpolated colour lies between the two colours; lerping a colour toward itself leaves it unchanged |
| Particles.Steer | docs/sketch.js:17-18 | the steering force has magnitude at most 0.3, and it equals target minus position when that is already that short |
| Particles.Pursue | docs/sketch.js:15-27 | moving branch: the acceleration ends at zero, the speed is at most 2, the position advances by the new velocity, and target, colour, mode and alpha are untouched; when old velocity plus accumulated acceleration (leftover + steering + 0.1 x random direction) is within speed 2, that sum is the new velocity; with no leftover acceleration and the target within 0.3, the new velocity is old velocity + (target - position) + 0.1 x direction |
| Particles.Wander | docs/sketch.js:28-36 | drifting branch: only the position changes; velocity, acceleration, target and mode stay as they were |
| Particles.WanderStepBounded | docs/sketch.js:31-35 | with noise in [0, 1], a drifting particle moves at most 1 along each axis per frame |
| Particles.Update | docs/sketch.js:14-41 | moving mode: the acceleration is zero afterwards and the speed at most 2, the position advances by the velocity, and below the speed cap the velocity is old velocity plus the accumulated acceleration (exactly old velocity + target offset + 0.1 x direction when neither cap bites). Drifting mode: velocity and acceleration are untouched. Either mode: target, mode flag and alpha never change, each colour channel moves only toward pink, and a pink particle stays pink |
| Particles.Settle | docs/sketch.js:132-137 | confession-stage treatment: the squared speed is scaled by 0.95^2, the position moves by the jiggle, and nothing else changes |
| Heart.GenerateHeartPoints | docs/sketch.js:147-158 | returns exactly 200 points, in order; point i is the heart curve at sample parameter i |
| Heart.SampleSpacing | docs/sketch.js:149-152 | sample i is at i * 2pi / 200: the samples start at 0, are evenly spaced and stay below 2pi, so the point at 2pi is not repeated |
| Heart.FirstPointIsCleft | docs/sketch.js:152-154 | sanity example of the curve formula: with sin 0 = 0 and cos 0 = 1, the first heart point is (0, -5 * scale) |
| Sketch.Setup | docs/sketch.js:69-88 | target j is heart point j shifted by (width/2, height/2 - 50); 500 particles are spawned at the given positions; particle i is aimed at target i mod 200; the state is idle, the text hidden, and the between-frames invariant holds |
| Sketch.SharedTargets | docs/sketch.js:85-88 | under the invariant, particles i and i + 200 share a target, and every heart target is the target of particles j and j + 200 |
| Sketch.Draw | docs/sketch.js:100-138 | one frame keeps the particle count and every target; particle i after the frame is `update()` of particle i before it (lines 105-110), switched to moving in the transition stage (lines 124-129), and jiggled and damped after the update in the confession stage (lines 130-137); the new stage and the reveal are those of the stage controller's `Step` (lines 113-122), so the stage rises by at most one; after a transition-stage frame every particle is moving; the text never hides again, and it appears only on the transition-to-confession frame |
| Sketch.DrawPreservesGood | docs/sketch.js:100-138 | every frame keeps the invariant: round-robin targets, moving exactly when not idle, zero acceleration, speed at most 2 (at most 1.9 in confession, zero while idle), constant colour and alpha, and the text visible exactly in confession |
| Sketch.Animate | docs/sketch.js:100-138 | over a run of frames the world's stage is exactly the stage controller's replay; the text is visible exactly when it already was or the run revealed it; the invariant is kept |
| Sketch.Lifecycle | docs/sketch.js:113-129 | from the state setup leaves, after frames 1..f: the stage follows the 600/1200 schedule, the text is visible exactly when f > 1200, and every particle is moving exactly when f > 600 |

## Left out

- Rendering: `show()`, `background`, `stroke`, `strokeWeight`, `point`, `createCanvas`, `canvas.parent` and `windowResized` only draw or resize the canvas. They change no modelled state.
- The DOM: `document.getElementById` and `classList.add('visible')` become the `textVisible` flag of `World`.
- The model assumes `document.getElementById('confession-text')` (docs/sketch.js:91) finds the element. If it returned null, line 121 would throw on the transition-to-confession frame after `stage = 2` was set at line 119, so that frame's jiggle and damping (lines 130-137) would not run and the exception would escape `draw()`. The model has no such failure path.
- The model assumes `#confession-text` starts without the `visible` class (`Setup` returns the text hidden, and `Lifecycle` concludes it stays hidden up to frame 1200). That initial state is set by the page markup, which is not part of this model; docs/sketch.js only ever adds the class.
- Randomness: `random`, `random2D` and `randomSeed(12345)` are not modelled. Their values enter as `spawn` and `Roll` parameters. The seed is set after the spawn positions are drawn, so no determinism of the initial positions is claimed.
- Perlin `noise` is a parameter. The drift bound assumes only that it returns values in [0, 1].
- The heart curve's trigonometry: `sin`, `cos` and `pow(…, 3)` are kept symbolic. The closure of the curve (point at 0 equals point at 2pi) depends on their values and is not proved.
- Floating point: all arithmetic is exact over reals. `TWO_PI` is 2π written as an exact real to 21 digits; p5's double value differs from it near 1e-16.
- Particles.Steer: does not state that the force points toward the target. p5's `limit` rescales along the vector using a square root, but the model only assumes the magnitude bound and the unchanged-when-short case.
- Particles.Pursue: when the speed cap bites, the new velocity is only bounded by 2; that it keeps the direction of old velocity plus acceleration is not stated, because `limit` is specified by its magnitude bound and its unchanged-when-short case only.
- Particles.Update: the same gap as Pursue in moving mode: above the speed cap the direction of the new velocity is not stated.
- Particles.LerpColor: p5 stores colours as normalised floats and rounds on output; the model interpolates exact real channels.
- Unused globals `img` and `fontLoaded` (docs/sketch.js:54, 57) carry no behaviour.
