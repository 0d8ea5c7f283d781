/** The narrative stage controller at the end of `draw()` in
    docs/sketch.js: a one-way machine over three stages, advanced by
    p5's frame counter. */
module Stages {

  /** The source's `stage` variable: 0 idle drift, 1 transition, 2 confession. */
  datatype Stage = Idle | Transition | Confession

  /** The integer the source stores for each stage. */
  function Index(s: Stage): nat {
    match s
    case Idle => 0
    case Transition => 1
    case Confession => 2
  }

  /** `frameLimit1` and `frameLimit2`. */
  const FrameLimit1: int := 600
  const FrameLimit2: int := 1200

  /** The stage after one frame, and whether the confession text is made
      visible on that frame (the `classList.add('visible')` event). */
  datatype StepResult = StepResult(stage: Stage, showText: bool)

  /** One evaluation of the transition `if / else if` for the current
      `frameCount`. The `else if` means a single frame moves the stage on
      by at most one, and the text is revealed exactly when the stage
      moves from transition to confession. */
  function Step(s: Stage, frameCount: int): (r: StepResult)
    ensures Index(s) <= Index(r.stage) <= Index(s) + 1
    ensures r.showText <==> s == Transition && r.stage == Confession
    ensures r.stage != s ==> frameCount > FrameLimit1
    ensures s == Transition && r.stage == Confession ==> frameCount > FrameLimit2
    ensures s == Idle && frameCount > FrameLimit1 ==> r.stage == Transition
    ensures s == Transition && frameCount > FrameLimit2 ==> r.stage == Confession
  {
    if s == Idle && frameCount > FrameLimit1 then
      StepResult(Transition, false)
    else if s == Transition && frameCount > FrameLimit2 then
      StepResult(Confession, true)
    else
      StepResult(s, false)
  }

  /** The values p5's `frameCount` takes on the draws first, first+1, ... */
  function Frames(first: int, n: nat): (fs: seq<int>)
    ensures |fs| == n
  {
    seq(n, i => first + i)
  }

  /** Dropping the last frame of a run leaves the shorter run. */
  lemma FramesPrefix(first: int, n: nat)
    ensures Frames(first, n + 1)[..n] == Frames(first, n)
  {
  }

  /** The stage after `Step` has run on each frame count in turn. */
  function Replay(s: Stage, frames: seq<int>): (r: Stage)
    ensures Index(s) <= Index(r) <= Index(s) + |frames|
  {
    if |frames| == 0 then s
    else
      var n := |frames| - 1;
      Step(Replay(s, frames[..n]), frames[n]).stage
  }

  /** How many times the confession text is revealed over those frames:
      once if the run reaches the confession stage from an earlier one,
      and never otherwise. */
  function Reveals(s: Stage, frames: seq<int>): (r: nat)
    ensures r <= 1
    ensures r == 1 <==> s != Confession && Replay(s, frames) == Confession
  {
    if |frames| == 0 then 0
    else
      var n := |frames| - 1;
      Reveals(s, frames[..n]) + (if Step(Replay(s, frames[..n]), frames[n]).showText then 1 else 0)
  }

  /** The stage the source's thresholds call for after frame f, written as
      a closed form over the frame number. */
  function StageAt(f: int): Stage {
    if f <= FrameLimit1 then Idle
    else if f <= FrameLimit2 then Transition
    else Confession
  }

  /** Starting idle and drawing frames 1, 2, ..., f, the stage is the
      closed form: idle up to frame 600, transition up to frame 1200,
      confession after. */
  lemma {:induction false} StageSchedule(f: nat)
    ensures Replay(Idle, Frames(1, f)) == StageAt(f)
  {
    if f > 0 {
      assert Frames(1, f)[..f - 1] == Frames(1, f - 1);
      StageSchedule(f - 1);
    }
  }

  /** Over frames 1, 2, ..., f the confession text is revealed once if
      f exceeds 1200 and not at all otherwise. */
  lemma RevealSchedule(f: nat)
    ensures Reveals(Idle, Frames(1, f)) == (if f > FrameLimit2 then 1 else 0)
  {
    StageSchedule(f);
  }

  /** Replaying more frames never lowers the stage: the stage after a
      prefix of the frames is at most the stage after all of them. */
  lemma {:induction false} ReplayMonotone(s: Stage, frames: seq<int>, k: nat)
    requires k <= |frames|
    ensures Index(Replay(s, frames[..k])) <= Index(Replay(s, frames))
    decreases |frames| - k
  {
    if k < |frames| {
      var n := |frames| - 1;
      assert frames[..n][..k] == frames[..k];
      ReplayMonotone(s, frames[..n], k);
    } else {
      assert frames[..k] == frames;
    }
  }
}
