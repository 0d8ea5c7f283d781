/** The `Particle` class of docs/sketch.js: its record of vectors, colour
    and mode flag, and its per-frame `update()`. */
module Particles {
  import opened Vectors

  /** An RGBA colour with channels on p5's default 0..255 scale. */
  datatype Color = Color(r: real, g: real, b: real, a: real)

  /** `color(255, 120, 180)`: both the initial colour and the colour every
      particle fades toward. */
  const Pink: Color := Color(255.0, 120.0, 180.0, 255.0)

  /** The constants of `update()`. */
  const SteerLimit: real := 0.3
  const JitterScale: real := 0.1
  const MaxSpeed: real := 2.0
  const NoiseFactor: real := 0.02
  const FadeAmount: real := 0.005

  /** The velocity factor applied every frame of the confession stage. */
  const Damping: real := 0.95

  datatype Particle = Particle(
    pos: Vec,
    vel: Vec,
    acc: Vec,
    target: Vec,
    color: Color,
    alpha: int,
    isMoving: bool)

  /** The p5 library services `update()` relies on: Perlin `noise(x, y)`
      and `Vector.limit`. Both are outside the model and enter as
      parameters. */
  datatype Library = Library(noise: (real, real) -> real, limit: (Vec, real) -> Vec)

  /** p5's `noise` returns values in the unit interval. */
  ghost predicate UnitNoise(noise: (real, real) -> real) {
    forall a, b :: 0.0 <= noise(a, b) <= 1.0
  }

  /** `new Particle(x, y, targetX, targetY)`. */
  function NewParticle(x: real, y: real, targetX: real, targetY: real): Particle {
    Particle(Vec(x, y), Zero, Zero, Vec(targetX, targetY), Pink, 255, false)
  }

  /** p5's `lerp(start, stop, amt)` on one channel, for an amount in [0, 1]:
      the result lies between `start` and `stop`, and the gap to `stop`
      shrinks by the factor 1 - amt. */
  function Lerp(start: real, stop: real, amt: real): (r: real)
    requires 0.0 <= amt <= 1.0
    ensures Between(r, start, stop)
    ensures r - stop == (1.0 - amt) * (start - stop)
  {
    LerpBetween(start, stop, amt);
    amt * (stop - start) + start
  }

  lemma LerpBetween(start: real, stop: real, amt: real)
    requires 0.0 <= amt <= 1.0
    ensures Between(amt * (stop - start) + start, start, stop)
  {
    if start <= stop {
      FractionBetween(amt, start, stop);
    } else {
      FractionBetween(1.0 - amt, stop, start);
      assert amt * (stop - start) + start == (1.0 - amt) * (start - stop) + stop;
    }
  }

  /** p5's `lerpColor(c1, c2, amt)` in RGB mode: `amt` is clamped to
      [0, 1] and every channel, alpha included, is interpolated. Each
      channel of the result lies between the two inputs and is no farther
      from the target than before; a colour already equal to the target is
      left as it is. */
  function LerpColor(c1: Color, c2: Color, amt: real): (r: Color)
    ensures Between(r.r, c1.r, c2.r) && Between(r.g, c1.g, c2.g)
    ensures Between(r.b, c1.b, c2.b) && Between(r.a, c1.a, c2.a)
    ensures c1 == c2 ==> r == c1
  {
    var t := if amt < 0.0 then 0.0 else if amt > 1.0 then 1.0 else amt;
    Color(Lerp(c1.r, c2.r, t), Lerp(c1.g, c2.g, t), Lerp(c1.b, c2.b, t), Lerp(c1.a, c2.a, t))
  }

  /** x lies on the closed segment from `from` to `to`. */
  predicate Between(x: real, from: real, to: real) {
    if from <= to then from <= x <= to else to <= x <= from
  }

  /** The steering force `p5.Vector.sub(target, pos).limit(0.3)`: never
      longer than 0.3, and exactly the offset to the target when that is
      already short enough. */
  function Steer(p: Particle, limit: (Vec, real) -> Vec): (s: Vec)
    requires IsLimiter(limit)
    ensures NormSq(s) <= SteerLimit * SteerLimit
    ensures NormSq(Sub(p.target, p.pos)) <= SteerLimit * SteerLimit ==> s == Sub(p.target, p.pos)
  {
    limit(Sub(p.target, p.pos), SteerLimit)
  }

  /** The acceleration the moving branch builds before the velocity takes
      it: leftover acceleration, plus steering, plus 0.1 times the random
      unit `direction` (`random2D().mult(0.1)`). */
  function Accumulated(p: Particle, limit: (Vec, real) -> Vec, direction: Vec): Vec
    requires IsLimiter(limit)
  {
    Add(Add(p.acc, Steer(p, limit)), Scale(direction, JitterScale))
  }

  /** Neither cap of the moving branch bites: no leftover acceleration, the
      target within 0.3, and old velocity plus target offset plus jitter
      within speed 2. */
  predicate UnderCaps(p: Particle, direction: Vec) {
    && p.acc == Zero
    && NormSq(Sub(p.target, p.pos)) <= SteerLimit * SteerLimit
    && NormSq(Add(Add(p.vel, Sub(p.target, p.pos)), Scale(direction, JitterScale))) <= MaxSpeed * MaxSpeed
  }

  /** The moving branch of `update()`: steering plus 0.1 times the random
      unit `direction` is added to the acceleration, the velocity takes the
      acceleration and is capped at speed 2, the position advances by the
      new velocity, and the acceleration is reset to zero. When the sum
      of old velocity and accumulated acceleration is within the speed cap,
      it becomes the new velocity unchanged; in particular a particle with
      no leftover acceleration, within 0.3 of its target, gains exactly the
      offset to the target plus 0.1 times the random direction. */
  function Pursue(p: Particle, limit: (Vec, real) -> Vec, direction: Vec): (r: Particle)
    requires IsLimiter(limit)
    ensures r.acc == Zero
    ensures NormSq(r.vel) <= MaxSpeed * MaxSpeed
    ensures r.pos == Add(p.pos, r.vel)
    ensures r == p.(pos := r.pos, vel := r.vel, acc := r.acc)
    ensures NormSq(Add(p.vel, Accumulated(p, limit, direction))) <= MaxSpeed * MaxSpeed ==>
      r.vel == Add(p.vel, Accumulated(p, limit, direction))
    ensures UnderCaps(p, direction) ==> r.vel == Add(Add(p.vel, Sub(p.target, p.pos)), Scale(direction, JitterScale))
  {
    var acc := Accumulated(p, limit, direction);
    var vel := limit(Add(p.vel, acc), MaxSpeed);
    p.(pos := Add(p.pos, vel), vel := vel, acc := Scale(acc, 0.0))
  }

  /** The drifting branch of `update()`: each coordinate moves by a noise
      sample mapped from [0, 1] to [-1, 1]. The x sample reads the noise
      field at (x, y) and the y sample at (y, x), both scaled by 0.02 and
      both taken before the position moves. Only the position changes. */
  function Wander(p: Particle, noise: (real, real) -> real): (r: Particle)
    ensures r == p.(pos := r.pos)
  {
    var noiseX := noise(p.pos.x * NoiseFactor, p.pos.y * NoiseFactor);
    var noiseY := noise(p.pos.y * NoiseFactor, p.pos.x * NoiseFactor);
    p.(pos := Vec(p.pos.x + MapRange(noiseX, 0.0, 1.0, -1.0, 1.0),
                  p.pos.y + MapRange(noiseY, 0.0, 1.0, -1.0, 1.0)))
  }

  /** With p5's unit-interval noise, a drifting particle moves at most one
      pixel along each axis per frame. */
  lemma WanderStepBounded(p: Particle, noise: (real, real) -> real)
    requires UnitNoise(noise)
    ensures -1.0 <= Wander(p, noise).pos.x - p.pos.x <= 1.0
    ensures -1.0 <= Wander(p, noise).pos.y - p.pos.y <= 1.0
  {
    var noiseX := noise(p.pos.x * NoiseFactor, p.pos.y * NoiseFactor);
    var noiseY := noise(p.pos.y * NoiseFactor, p.pos.x * NoiseFactor);
    assert 0.0 <= noiseX <= 1.0 && 0.0 <= noiseY <= 1.0;
  }

  /** `update()`: the moving or drifting branch by the mode flag, then the
      colour fades 0.005 of the way toward pink. In moving mode the
      acceleration ends at zero and the speed at most 2, and below the cap
      the velocity is old velocity plus accumulated acceleration; in drifting mode
      velocity and acceleration are untouched. Target, mode and alpha never
      change, and no channel of the colour moves away from pink. */
  function Update(p: Particle, lib: Library, direction: Vec): (r: Particle)
    requires IsLimiter(lib.limit)
    ensures r.target == p.target && r.isMoving == p.isMoving && r.alpha == p.alpha
    ensures p.isMoving ==> r.acc == Zero && NormSq(r.vel) <= MaxSpeed * MaxSpeed
    ensures p.isMoving ==> r.pos == Add(p.pos, r.vel)
    ensures p.isMoving && NormSq(Add(p.vel, Accumulated(p, lib.limit, direction))) <= MaxSpeed * MaxSpeed ==>
      r.vel == Add(p.vel, Accumulated(p, lib.limit, direction))
    ensures p.isMoving && UnderCaps(p, direction) ==>
      r.vel == Add(Add(p.vel, Sub(p.target, p.pos)), Scale(direction, JitterScale))
    ensures !p.isMoving ==> r.vel == p.vel && r.acc == p.acc
    ensures Between(r.color.r, p.color.r, Pink.r) && Between(r.color.g, p.color.g, Pink.g)
    ensures Between(r.color.b, p.color.b, Pink.b) && Between(r.color.a, p.color.a, Pink.a)
    ensures p.color == Pink ==> r.color == Pink
  {
    var moved := if p.isMoving then Pursue(p, lib.limit, direction) else Wander(p, lib.noise);
    moved.(color := LerpColor(moved.color, Pink, FadeAmount))
  }

  /** The confession-stage treatment in `draw()`: the position is nudged by
      the two random offsets and the velocity is multiplied by 0.95. */
  function Settle(p: Particle, jiggle: Vec): (r: Particle)
    ensures NormSq(r.vel) == Damping * Damping * NormSq(p.vel)
    ensures r == p.(pos := Add(p.pos, jiggle), vel := r.vel)
  {
    ScaleNormSq(p.vel, Damping);
    p.(pos := Add(p.pos, jiggle), vel := Scale(p.vel, Damping))
  }
}
