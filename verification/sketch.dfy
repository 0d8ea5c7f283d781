/** The global state and the two p5 entry points of docs/sketch.js:
    `setup()` builds the heart targets and the particles, and `draw()`
    updates every particle and then runs the stage controller. */
module Sketch {
  import opened Vectors
  import opened Stages
  import opened Particles
  import opened Heart

  /** The number of particles `setup()` creates. */
  const ParticleCount: nat := 500

  /** The scale passed to `generateHeartPoints`. */
  const HeartScale: real := 40.0

  /** The random draws one particle consumes in one frame: the unit vector
      of `p5.Vector.random2D()` in `update()`, and the two
      `random(-0.2, 0.2)` offsets of the confession stage. */
  datatype Roll = Roll(direction: Vec, jiggle: Vec)

  /** The sketch's globals: `particles`, `targetPoints`, `stage`, and
      whether the confession text carries the `visible` class. */
  datatype World = World(particles: seq<Particle>, targets: seq<Vec>, stage: Stage, textVisible: bool)

  /** Where a heart point lands on the canvas: centred, raised by 50. */
  function CanvasOffset(width: real, height: real): Vec {
    Vec(width / 2.0, height / 2.0 - 50.0)
  }

  /** What holds of every particle between frames: it keeps its round-robin
      target, it moves exactly when the stage has left idle drift, its
      acceleration is zero, its speed is at most 2 (at most 0.95 * 2 once
      the confession stage damps it, and zero while drifting), and its
      colour and alpha stay at their initial values. */
  predicate ParticleOk(p: Particle, target: Vec, stage: Stage) {
    && p.target == target
    && (p.isMoving <==> stage != Idle)
    && p.acc == Zero
    && NormSq(p.vel) <= MaxSpeed * MaxSpeed
    && (stage == Confession ==> NormSq(p.vel) <= Damping * Damping * (MaxSpeed * MaxSpeed))
    && (stage == Idle ==> p.vel == Zero)
    && p.color == Pink
    && p.alpha == 255
  }

  /** The invariant of the sketch between frames: 200 targets, 500
      particles, particle i aimed at `targetPoints[i % 200]`, and the text
      visible exactly in the confession stage. */
  predicate Good(w: World) {
    && |w.targets| == PointCount
    && |w.particles| == ParticleCount
    && (forall i :: 0 <= i < |w.particles| ==> ParticleOk(w.particles[i], w.targets[i % |w.targets|], w.stage))
    && (w.textVisible <==> w.stage == Confession)
  }

  /** `setup()` without the canvas, the DOM lookup and the random seed:
      the heart points shifted by the canvas offset become the targets,
      500 particles are spawned at the given random positions, and
      particle i is aimed at target i mod 200. The result satisfies the
      invariant, in the idle stage with the text hidden. */
  method Setup(width: real, height: real, trig: Trig, spawn: seq<Vec>) returns (w: World)
    requires |spawn| == ParticleCount
    ensures Good(w) && w.stage == Idle && !w.textVisible
    ensures forall j :: 0 <= j < |w.targets| ==>
      w.targets[j] == Add(HeartCurve(HeartScale, SampleParam(j), trig), CanvasOffset(width, height))
    ensures forall i :: 0 <= i < |w.particles| ==> w.particles[i].pos == spawn[i]
  {
    var heartPoints := GenerateHeartPoints(HeartScale, trig);
    var targets: seq<Vec> := [];
    for k := 0 to |heartPoints|
      invariant |targets| == k
      invariant forall j :: 0 <= j < k ==> targets[j] == Add(heartPoints[j], CanvasOffset(width, height))
    {
      var p := heartPoints[k];
      targets := targets + [Vec(p.x + (width / 2.0), p.y + (height / 2.0) - 50.0)];
    }

    var particles: seq<Particle> := [];
    for i := 0 to ParticleCount
      invariant |particles| == i
      invariant forall j :: 0 <= j < i ==> particles[j] == NewParticle(spawn[j].x, spawn[j].y, 0.0, 0.0)
    {
      particles := particles + [NewParticle(spawn[i].x, spawn[i].y, 0.0, 0.0)];
    }

    for i := 0 to |particles|
      invariant |particles| == ParticleCount
      invariant forall j :: 0 <= j < i ==>
        particles[j] == NewParticle(spawn[j].x, spawn[j].y, 0.0, 0.0).(target := targets[j % |targets|])
      invariant forall j :: i <= j < |particles| ==> particles[j] == NewParticle(spawn[j].x, spawn[j].y, 0.0, 0.0)
    {
      var target := targets[i % |targets|];
      particles := particles[i := particles[i].(target := Vec(target.x, target.y))];
    }

    w := World(particles, targets, Idle, false);
  }

  /** Under the invariant, particles i and i + 200 share a target, and
      every heart target is the target of particles j and j + 200. */
  lemma SharedTargets(w: World)
    requires Good(w)
    ensures forall i :: 0 <= i && i + PointCount < |w.particles| ==>
      w.particles[i].target == w.particles[i + PointCount].target
    ensures forall j :: 0 <= j < |w.targets| ==>
      w.particles[j].target == w.targets[j] && w.particles[j + PointCount].target == w.targets[j]
  {
    forall i | 0 <= i && i + PointCount < |w.particles|
      ensures w.particles[i].target == w.particles[i + PointCount].target
    {
      assert (i + PointCount) % PointCount == i % PointCount;
    }
    forall j | 0 <= j < |w.targets|
      ensures w.particles[j].target == w.targets[j] && w.particles[j + PointCount].target == w.targets[j]
    {
      assert j % PointCount == j;
      assert (j + PointCount) % PointCount == j;
    }
  }

  /** The particle loop of `draw()`: `update()` on every particle in list
      order (drawing is not modelled). */
  function UpdateAll(ps: seq<Particle>, lib: Library, rolls: seq<Roll>): (r: seq<Particle>)
    requires IsLimiter(lib.limit)
    requires |rolls| == |ps|
    ensures |r| == |ps|
  {
    seq(|ps|, i requires 0 <= i < |ps| => Update(ps[i], lib, rolls[i].direction))
  }

  /** The per-stage effects after the transition check: in the transition
      stage every particle is switched to moving, in the confession stage
      every particle is jiggled and its velocity damped. */
  function ApplyStage(ps: seq<Particle>, stage: Stage, rolls: seq<Roll>): (r: seq<Particle>)
    requires |rolls| == |ps|
    ensures |r| == |ps|
  {
    match stage
    case Idle => ps
    case Transition => seq(|ps|, i requires 0 <= i < |ps| => ps[i].(isMoving := true))
    case Confession => seq(|ps|, i requires 0 <= i < |ps| => Settle(ps[i], rolls[i].jiggle))
  }

  /** One call of `draw()` at the given `frameCount`. Every particle is
      first updated, then switched to moving in the transition stage or
      jiggled and damped in the confession stage. Targets are never
      touched; the stage rises by at most one; after a frame in the
      transition stage every particle is moving; the text, once visible,
      stays visible and becomes visible only on the transition-to-confession
      frame. */
  function Draw(w: World, frameCount: int, lib: Library, rolls: seq<Roll>): (r: World)
    requires IsLimiter(lib.limit)
    requires |rolls| == |w.particles|
    ensures |r.particles| == |w.particles| && r.targets == w.targets
    ensures forall i :: 0 <= i < |r.particles| ==> r.particles[i].target == w.particles[i].target
    ensures r.stage == Idle ==> forall i ::
      0 <= i < |r.particles| ==> r.particles[i] == Update(w.particles[i], lib, rolls[i].direction)
    ensures r.stage == Transition ==> forall i ::
      0 <= i < |r.particles| ==> r.particles[i] == Update(w.particles[i], lib, rolls[i].direction).(isMoving := true)
    ensures r.stage == Confession ==> forall i ::
      0 <= i < |r.particles| ==> r.particles[i] == Settle(Update(w.particles[i], lib, rolls[i].direction), rolls[i].jiggle)
    ensures r.stage == Step(w.stage, frameCount).stage
    ensures r.textVisible <==> w.textVisible || Step(w.stage, frameCount).showText
    ensures Index(w.stage) <= Index(r.stage) <= Index(w.stage) + 1
    ensures r.stage == Transition ==> forall i :: 0 <= i < |r.particles| ==> r.particles[i].isMoving
    ensures w.textVisible ==> r.textVisible
    ensures !w.textVisible && r.textVisible ==> w.stage == Transition && r.stage == Confession
  {
    var updated := if |w.particles| > 0 then UpdateAll(w.particles, lib, rolls) else w.particles;
    var step := Step(w.stage, frameCount);
    World(ApplyStage(updated, step.stage, rolls), w.targets, step.stage, w.textVisible || step.showText)
  }

  /** A frame of `draw()` keeps the invariant. */
  lemma {:induction false} DrawPreservesGood(w: World, frameCount: int, lib: Library, rolls: seq<Roll>)
    requires IsLimiter(lib.limit)
    requires |rolls| == |w.particles|
    requires Good(w)
    ensures Good(Draw(w, frameCount, lib, rolls))
  {
    var r := Draw(w, frameCount, lib, rolls);
    var updated := UpdateAll(w.particles, lib, rolls);
    var step := Step(w.stage, frameCount);
    assert r.particles == ApplyStage(updated, step.stage, rolls);
    forall i | 0 <= i < |r.particles|
      ensures ParticleOk(r.particles[i], r.targets[i % |r.targets|], r.stage)
    {
      var p := w.particles[i];
      assert ParticleOk(p, w.targets[i % |w.targets|], w.stage);
      var u := Update(p, lib, rolls[i].direction);
      assert updated[i] == u;
      match step.stage
      case Idle =>
        assert r.particles[i] == u;
      case Transition =>
        assert r.particles[i] == u.(isMoving := true);
      case Confession =>
        assert p.isMoving;
        var s := Settle(u, rolls[i].jiggle);
        assert r.particles[i] == s;
        assert NormSq(u.vel) <= MaxSpeed * MaxSpeed;
        assert NormSq(s.vel) <= Damping * Damping * (MaxSpeed * MaxSpeed);
    }
  }

  /** `draw()` on the frames first, first + 1, ..., one list of random
      draws per frame. The stage follows the stage controller alone, the
      text is visible exactly when it was or the run revealed it, and the
      invariant is kept. */
  function Animate(w: World, first: int, lib: Library, rolls: seq<seq<Roll>>): (r: World)
    requires IsLimiter(lib.limit)
    requires forall k :: 0 <= k < |rolls| ==> |rolls[k]| == |w.particles|
    ensures |r.particles| == |w.particles| && r.targets == w.targets
    ensures r.stage == Replay(w.stage, Frames(first, |rolls|))
    ensures r.textVisible <==> w.textVisible || Reveals(w.stage, Frames(first, |rolls|)) == 1
    ensures Good(w) ==> Good(r)
  {
    if |rolls| == 0 then w
    else
      var n := |rolls| - 1;
      var prev := Animate(w, first, lib, rolls[..n]);
      FramesPrefix(first, n);
      var r := Draw(prev, first + n, lib, rolls[n]);
      if Good(w) then
        DrawPreservesGood(prev, first + n, lib, rolls[n]);
        r
      else
        r
  }

  /** From the state `setup()` leaves, drawing frames 1, 2, ..., f gives
      the stage of the closed-form schedule; the text is visible exactly
      after frame 1200; and every particle is moving exactly after
      frame 600. */
  lemma {:induction false} Lifecycle(w: World, lib: Library, rolls: seq<seq<Roll>>)
    requires IsLimiter(lib.limit)
    requires Good(w) && w.stage == Idle && !w.textVisible
    requires forall k :: 0 <= k < |rolls| ==> |rolls[k]| == |w.particles|
    ensures Good(Animate(w, 1, lib, rolls))
    ensures Animate(w, 1, lib, rolls).stage == StageAt(|rolls|)
    ensures Animate(w, 1, lib, rolls).textVisible <==> |rolls| > FrameLimit2
    ensures forall i :: 0 <= i < ParticleCount ==>
      (Animate(w, 1, lib, rolls).particles[i].isMoving <==> |rolls| > FrameLimit1)
  {
    var r := Animate(w, 1, lib, rolls);
    StageSchedule(|rolls|);
    RevealSchedule(|rolls|);
    forall i | 0 <= i < ParticleCount
      ensures r.particles[i].isMoving <==> |rolls| > FrameLimit1
    {
      assert ParticleOk(r.particles[i], r.targets[i % |r.targets|], r.stage);
    }
  }
}
