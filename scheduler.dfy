/**
 * The fixed-timestep scheduler of main.cpp's update(): wall-clock time is
 * added to a carried accumulator, as many whole steps as fit are simulated,
 * and what is left is carried into the next frame. Time is a real; the
 * game's float arithmetic is not modelled.
 *
 * The loop itself lives in GameLoop.Game.Update, which is proved against
 * RunFrame below.
 */
module Scheduler {
  import opened Constants

  /** The number of whole steps that fit in a non-negative amount of time. */
  function WholeSteps(total: real): (k: nat)
    requires total >= 0.0
    ensures k as real * FIXED_TIMESTEP <= total < (k + 1) as real * FIXED_TIMESTEP
  {
    (total / FIXED_TIMESTEP).Floor
  }

  /**
   * Splitting an amount of time into whole steps plus a leftover shorter
   * than one step can be done in only one way.
   */
  lemma SplitIsUnique(k1: nat, r1: real, k2: nat, r2: real)
    requires k1 as real * FIXED_TIMESTEP + r1 == k2 as real * FIXED_TIMESTEP + r2
    requires 0.0 <= r1 < FIXED_TIMESTEP && 0.0 <= r2 < FIXED_TIMESTEP
    ensures k1 == k2 && r1 == r2
  {
  }

  /** While at least one step's worth of time remains, another whole step fits. */
  lemma AnotherStepFits(total: real, k: nat, rest: real)
    requires k as real * FIXED_TIMESTEP + rest == total
    requires rest >= FIXED_TIMESTEP
    ensures k + 1 <= WholeSteps(total)
  {
  }

  /** What one call of update() does with the time: steps run and the new accumulator. */
  datatype Frame = Frame(steps: nat, leftover: real)

  /**
   * One frame: below one step nothing runs and the whole sum is carried;
   * otherwise whole steps run and the leftover is carried.
   */
  function RunFrame(accumulator: real, delta: real): (f: Frame)
    ensures f.steps as real * FIXED_TIMESTEP + f.leftover == accumulator + delta
    ensures f.leftover < FIXED_TIMESTEP
    ensures accumulator + delta >= 0.0 ==> f.leftover >= 0.0
    ensures f.steps == 0 <==> accumulator + delta < FIXED_TIMESTEP
    ensures f.steps == 0 ==> f.leftover == accumulator + delta
  {
    var total := delta + accumulator;
    if total < FIXED_TIMESTEP then
      Frame(0, total)
    else
      var k := WholeSteps(total);
      Frame(k, total - k as real * FIXED_TIMESTEP)
  }

  /** The whole number of steps and leftover that RunFrame picks are the only split. */
  lemma RunFrameIsTheSplit(accumulator: real, delta: real, k: nat, r: real)
    requires k as real * FIXED_TIMESTEP + r == accumulator + delta
    requires 0.0 <= r < FIXED_TIMESTEP
    ensures RunFrame(accumulator, delta) == Frame(k, r)
  {
    var f := RunFrame(accumulator, delta);
    SplitIsUnique(k, r, f.steps, f.leftover);
  }

  /** Sum of a sequence of frame times. */
  function Sum(deltas: seq<real>): (t: real)
    ensures (forall i :: 0 <= i < |deltas| ==> deltas[i] >= 0.0) ==> t >= 0.0
  {
    if deltas == [] then 0.0 else deltas[0] + Sum(deltas[1..])
  }

  /** Several frames in a row: total steps run and the final accumulator. */
  function RunFrames(accumulator: real, deltas: seq<real>): Frame
    decreases |deltas|
  {
    if deltas == [] then Frame(0, accumulator)
    else
      var first := RunFrame(accumulator, deltas[0]);
      var rest := RunFrames(first.leftover, deltas[1..]);
      Frame(first.steps + rest.steps, rest.leftover)
  }

  /** Two frames run the same steps, and leave the same accumulator, as one frame of their total. */
  lemma TwoFramesAsOne(accumulator: real, d1: real, d2: real)
    requires accumulator + d1 >= 0.0 && d2 >= 0.0
    ensures var f1 := RunFrame(accumulator, d1);
            var f2 := RunFrame(f1.leftover, d2);
            RunFrame(accumulator, d1 + d2) == Frame(f1.steps + f2.steps, f2.leftover)
  {
    var f1 := RunFrame(accumulator, d1);
    var f2 := RunFrame(f1.leftover, d2);
    assert (f1.steps + f2.steps) as real * FIXED_TIMESTEP
        == f1.steps as real * FIXED_TIMESTEP + f2.steps as real * FIXED_TIMESTEP;
    RunFrameIsTheSplit(accumulator, d1 + d2, f1.steps + f2.steps, f2.leftover);
  }

  /**
   * The number of steps depends only on the total time, not on how it is
   * cut into frames: any run of frames does exactly what one frame of the
   * summed time does.
   */
  lemma {:induction false} FramesAsOne(accumulator: real, deltas: seq<real>)
    requires 0.0 <= accumulator < FIXED_TIMESTEP
    requires forall i :: 0 <= i < |deltas| ==> deltas[i] >= 0.0
    ensures RunFrames(accumulator, deltas) == RunFrame(accumulator, Sum(deltas))
    decreases |deltas|
  {
    if deltas != [] {
      var first := RunFrame(accumulator, deltas[0]);
      FramesAsOne(first.leftover, deltas[1..]);
      TwoFramesAsOne(accumulator, deltas[0], Sum(deltas[1..]));
    }
  }

  /** Over any run of frames, the steps taken are the whole steps in the time supplied. */
  lemma StepsOfFrames(accumulator: real, deltas: seq<real>)
    requires 0.0 <= accumulator < FIXED_TIMESTEP
    requires forall i :: 0 <= i < |deltas| ==> deltas[i] >= 0.0
    ensures RunFrames(accumulator, deltas).steps == WholeSteps(accumulator + Sum(deltas))
  {
    FramesAsOne(accumulator, deltas);
    var total := accumulator + Sum(deltas);
    var f := RunFrame(accumulator, Sum(deltas));
    SplitIsUnique(f.steps, f.leftover, WholeSteps(total), total - WholeSteps(total) as real * FIXED_TIMESTEP);
  }
}
