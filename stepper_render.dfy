/*
 * render() of the stepper example, in place: the six global counters are the
 * fields of one object, Tick performs one frame of the per-frame loop and
 * Render runs the loop over a block, recording each frame's pin levels in the
 * digital output buffer instead of writing pins.
 */
module StepperRender {
  import opened StepperSpec
  import opened StepperProps

  class Stepper {
    var phase: int
    var stepCounter: int
    var stepLengthSamples: int
    var state: int
    var stateCounter: int
    var servoCounter: int

    /** The counters as a value. */
    ghost function Counts(): (c: Counters)
      reads this
    {
      Counters(phase, stepCounter, stepLengthSamples, state, stateCounter, servoCounter)
    }

    /** The globals' initialisers. */
    constructor ()
      ensures Counts() == Initial() && Inv(Counts())
    {
      phase := 0;
      stepCounter := 0;
      stepLengthSamples := StepLengthSlow;
      state := MoveRight1;
      stateCounter := 0;
      servoCounter := 0;
    }

    /** One frame: returns the five pin levels and advances the counters. */
    method Tick() returns (out: Levels)
      modifies this
      ensures out == Output(old(Counts()))
      ensures Counts() == Next(old(Counts()))
      ensures old(Inv(Counts())) ==> Inv(Counts())
    {
      var b := phase == 0 || phase == 1;
      var a := phase == 1 || phase == 2;
      servoCounter := servoCounter - 1;
      out := Levels(a, !a, b, !b, servoCounter > 0);

      stepCounter := stepCounter + 1;
      if stepCounter >= stepLengthSamples {
        CompleteStep();
      }
    }

    /** The end of a step: render() lines 117-155. */
    method CompleteStep()
      modifies this
      ensures Counts() == StepperSpec.CompleteStep(old(Counts()))
    {
      stateCounter := stateCounter + 1;

      if state == MoveRight1 || state == MoveRight2 || state == MoveRight3 {
        phase := (phase + 1) % 4;
      } else if state == MoveLeft1 || state == MoveLeft2 || state == MoveLeft3 {
        phase := (phase + 3) % 4;
      } else if state == Spin {
        phase := (phase + 1) % 4;
      }

      if state == Spin {
        if stateCounter >= SpinSteps {
          stateCounter := 0;
          state := MoveRight1;
          stepLengthSamples := StepLengthSlow;
        }
      } else {
        if stateCounter >= MoveSteps {
          stateCounter := 0;
          state := state + 1;
          if state % 2 == 1 {
            servoCounter := ServoPulseOdd;
          } else {
            servoCounter := ServoPulseEven;
          }
          if state == Spin {
            stepLengthSamples := StepLengthFast;
          }
        }
      }

      stepCounter := 0;
    }

    /**
     * One block of audioFrames frames; frame n's levels go to frames[n]. The
     * buffer holds the block's digital frames, so Setup's check is what keeps
     * every write inside it.
     */
    method Render(ctx: Context, frames: array<Levels>)
      requires Setup(ctx) && frames.Length == ctx.digitalFrames
      modifies this, frames
      ensures frames[..] == Outputs(old(Counts()), ctx.audioFrames)
      ensures Counts() == Run(old(Counts()), ctx.audioFrames)
      ensures old(Inv(Counts())) ==> Inv(Counts())
    {
      ghost var start := Counts();
      var n := 0;
      while n < ctx.audioFrames
        invariant 0 <= n <= ctx.audioFrames
        invariant Counts() == Run(start, n)
        invariant frames[..n] == Outputs(start, n)
      {
        RunLast(start, n);
        var levels := Tick();
        frames[n] := levels;
        n := n + 1;
      }
    }
  }
}
