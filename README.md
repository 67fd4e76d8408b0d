# Stepper choreography (Bela `stepper` example)

A model of the stepper/servo choreography in `examples/11-Extras/stepper/render.cpp`. The program
keeps six global counters: `gPhase`, `gStepCounter`, `gStepLengthSamples`, `gState`,
`gStateCounter` and `gServoCounter`. Once per audio frame, `render()` does three things:

- It drives the two coil pairs of a bipolar stepper motor (A1/A2, B1/B2) from the phase.
- It drives a servo line while a countdown is positive.
- It advances the counters. Every `gStepLengthSamples` frames the phase turns by one step. After
  16 steps (48 in Spin) the choreography moves to the next of its seven states: MoveRight1,
  MoveLeft1, MoveRight2, MoveLeft2, MoveRight3, MoveLeft3, Spin, and then back to MoveRight1.

`setup()` refuses to start unless audio and digital frames are in step.

- `stepper_spec.dfy`, module `StepperSpec`. The counters are a datatype, `Counters`. One frame is
  the pure function `Next`, the pin levels of a frame are `Output`, and `n` frames are `Run` and
  `Outputs`. `Inv` is the invariant every reachable counter combination satisfies.
- `stepper_props.dfy`, module `StepperProps`. Lemmas about the model:
  - what a single frame does;
  - the coil pattern and its inverse;
  - the servo pulse width;
  - whole steps and whole states;
  - the full choreography: 6 × 16 × 1000 + 48 × 500 = 120000 frames bring every counter except
    the servo countdown back to where it started.
- `stepper_render.dfy`, module `StepperRender`. Class `Stepper` holds the six counters as fields.
  `Tick` performs one frame in place, using the source's own increments and branches, and is
  proved equal to `Next`/`Output`. `Render` loops `Tick` over a block and stores frame `n`'s
  levels in `frames[n]`. `frames` stands for the block's digital output buffer.

The bit masks `(p + 1) & 3`, `(p + 3) & 3` and `gState & 1` are written as Dafny's `% 4` and `% 2`.
On two's-complement integers these masks give the non-negative remainder, which is exactly what
Dafny's Euclidean `%` computes. The `switch` in `render()` has no default case, so a state outside
the enumeration leaves the phase alone. The model does the same. The comparisons are `>=`, as in
the source.

Three consequences of the code that are easy to misread:

- Entering MoveLeft1 (index 1, odd) loads the servo countdown with 120, not 80. The 80-sample pulse
  goes with the even states MoveRight2, MoveRight3 and Spin.
- After the countdown is loaded with N, the servo is high for N − 1 frames, not N. The counter is
  decremented before it is tested.
- A step boundary changes the state only when the state's step budget is used up, not on every
  step.

## Model

| member | source | states |
|---|---|---|
| StepperSpec.Initial | examples/11-Extras/stepper/render.cpp:27-56 | the initial counters (state MoveRight1, slow step length, all counters 0) satisfy the invariant |
| StepperSpec.Setup | examples/11-Extras/stepper/render.cpp:71-74 | setup fails exactly when audio frames differ from digital frames |
| StepperSpec.Output | examples/11-Extras/stepper/render.cpp:93-114 | each coil pair is complementary (A2 = ¬A1, B2 = ¬B1); the servo is high exactly when the counter before the frame exceeds 1, i.e. is still positive after the pre-decrement |
| StepperSpec.PhaseAfterStep | examples/11-Extras/stepper/render.cpp:119-133 | a step keeps the phase in 0..3; leftward states turn it back by one modulo 4, every other state forward by one |
| StepperSpec.Budget | examples/11-Extras/stepper/render.cpp:136-143 | a state lasts a positive number of steps (48 in Spin, 16 otherwise) |
| StepperSpec.LengthFor | examples/11-Extras/stepper/render.cpp:27-28 | the step length is always 1000 or 500 samples |
| StepperSpec.ServoPulse | examples/11-Extras/stepper/render.cpp:146-149 | the pulse loaded on entering a state is 120 or 80 samples |
| StepperSpec.CompleteStep | examples/11-Extras/stepper/render.cpp:117-155 | the end of a step always restarts the step counter and keeps the invariant of counters that were valid before the step counter reached the step length |
| StepperSpec.Next | examples/11-Extras/stepper/render.cpp:111-156 | one frame preserves the invariant: phase in 0..3, state in 0..6, step length 500 in Spin and 1000 elsewhere, step counter below the step length, state counter below 48 in Spin and 16 elsewhere, servo counter at most 120 |
| StepperSpec.Run | examples/11-Extras/stepper/render.cpp:92-157 | any number of frames preserves the invariant |
| StepperSpec.Outputs | examples/11-Extras/stepper/render.cpp:92-157 | the levels of frame i are those written from the counters after i frames |
| StepperProps.QuietFrame | examples/11-Extras/stepper/render.cpp:116 | a frame that does not complete a step only increments the step counter and decrements the servo counter |
| StepperProps.BoundaryFrame | examples/11-Extras/stepper/render.cpp:116-155 | a frame that completes a step resets the step counter, turns the phase one step in the state's direction, counts the step modulo the state's budget, moves to the next state (mod 7) exactly when the budget is used, and keeps the step length matched to the state |
| StepperProps.OnlyBoundaryMoves | examples/11-Extras/stepper/render.cpp:116-156 | the step counter returns to 0 exactly on a step-completing frame; on any other frame phase, state, state counter and step length are unchanged |
| StepperProps.StateChangesIff | examples/11-Extras/stepper/render.cpp:135-153 | the state changes if and only if a step completes the state's budget |
| StepperProps.ServoRule | examples/11-Extras/stepper/render.cpp:111-151 | the servo counter falls by one per frame unless a non-spin state ends, which loads 120 or 80 by the new state's parity; leaving Spin never loads it; entering Spin switches to the fast step length |
| StepperProps.CoilSequence | examples/11-Extras/stepper/render.cpp:93-109 | phases 0,1,2,3 drive (B1,A2), (B1,A1), (B2,A1), (B2,A2) high |
| StepperProps.CoilRoundTrip | examples/11-Extras/stepper/render.cpp:93-109 | the coil levels determine the phase: decoding them gives back the phase |
| StepperProps.NeighbourPhasesDifferInOnePair | examples/11-Extras/stepper/render.cpp:93-109 | phases that differ by one modulo 4 differ in the polarity of exactly one coil pair |
| StepperProps.RunAdd | examples/11-Extras/stepper/render.cpp:92-157 | running a + b frames is running a frames and then b |
| StepperProps.WithinStep | examples/11-Extras/stepper/render.cpp:111-117 | frames inside one step only advance the step counter and count the servo down |
| StepperProps.RunLast | examples/11-Extras/stepper/render.cpp:92-157 | n + 1 frames are n frames followed by one more |
| StepperProps.UpToBoundary | examples/11-Extras/stepper/render.cpp:111-117 | the frames of a step before its last only advance the step counter and count the servo down |
| StepperProps.OneStep | examples/11-Extras/stepper/render.cpp:116-155 | a whole step from its first frame ends with the boundary frame |
| StepperProps.InnerStep | examples/11-Extras/stepper/render.cpp:116-155 | a whole step that does not use up the state's budget turns the phase once, counts one step and leaves the state and step length alone |
| StepperProps.TurnStep | examples/11-Extras/stepper/render.cpp:119-133 | k + 1 steps in a state turn the phase once more than k |
| StepperProps.WholeTurns | examples/11-Extras/stepper/render.cpp:119-143 | 16 or 48 steps in one direction bring the phase back to where it was |
| StepperProps.Steps | examples/11-Extras/stepper/render.cpp:116-155 | k whole steps inside one state turn the phase k times, count k steps and count the servo down by k step lengths |
| StepperProps.AllButLastStep | examples/11-Extras/stepper/render.cpp:116-155 | all steps of a state but its last leave the state in place with its budget minus one counted |
| StepperProps.LastStep | examples/11-Extras/stepper/render.cpp:135-155 | the last step of a state hands over to the next state: Spin to MoveRight1 with the slow length; any other state to its successor with the servo pulse loaded |
| StepperProps.StateHolds | examples/11-Extras/stepper/render.cpp:135-153 | from a state's first frame, every frame count short of its budget times its step length leaves the state and step length unchanged, so with Segment the state changes exactly at that count |
| StepperProps.Segment | examples/11-Extras/stepper/render.cpp:116-155 | one whole state from its first frame ends at the first frame of the next with the phase where it began |
| StepperProps.MoveSegment | examples/11-Extras/stepper/render.cpp:143-152 | 16000 frames of a directional state lead to the next state with its pulse loaded and the fast length exactly for Spin |
| StepperProps.SpinSegment | examples/11-Extras/stepper/render.cpp:135-140 | 24000 frames of Spin lead back to MoveRight1 with the slow length and the servo untouched |
| StepperProps.MovesToSpin | examples/11-Extras/stepper/render.cpp:143-152 | from any directional state the remaining moves lead into Spin with the fast length and an 80-sample pulse |
| StepperProps.Cycle | examples/11-Extras/stepper/render.cpp:116-155 | from the start of MoveRight1, 120000 frames restore phase, state, step counter, state counter and step length; the servo counter is 80 − 24000 |
| StepperProps.FirstStateChange | examples/11-Extras/stepper/render.cpp:143-149 | from the initial counters, MoveLeft1 begins after 16000 frames with a 120-sample pulse |
| StepperProps.SpinBegins | examples/11-Extras/stepper/render.cpp:150-151 | from the initial counters, Spin begins after 96000 frames with the 500-sample step length |
| StepperProps.InitialCycle | examples/11-Extras/stepper/render.cpp:27-56 | the initial counters come back after one full choreography, servo countdown aside |
| StepperProps.ServoCountsDown | examples/11-Extras/stepper/render.cpp:111 | with no reload in between, the servo counter after n frames is n less |
| StepperProps.ServoStaysLow | examples/11-Extras/stepper/render.cpp:111-114 | once the counter is at most 1, the servo is written low on every frame until a reload |
| StepperProps.ServoPulseWidth | examples/11-Extras/stepper/render.cpp:111-149 | after the frame that loads N, the next N − 1 frames are high and the following ones low |
| StepperProps.EntryServo | examples/11-Extras/stepper/render.cpp:111-149 | the servo counter a state begins with is never below 80 − 24000, what Spin leaves for MoveRight1 |
| StepperProps.NextKeepsServoFloor | examples/11-Extras/stepper/render.cpp:111-151 | one frame keeps the servo counter at or above its value on entering the state minus the frames elapsed in it |
| StepperProps.RunKeepsServoFloor | examples/11-Extras/stepper/render.cpp:92-157 | any number of frames keeps that floor |
| StepperProps.ServoFloorBound | examples/11-Extras/stepper/render.cpp:111-149 | under the floor, the servo counter lies in −39919..120 |
| StepperProps.ServoRange | examples/11-Extras/stepper/render.cpp:111-149 | from counters under the floor, the servo counter stays in −39919..120 on every later frame |
| StepperProps.ServoNeverOverflows | examples/11-Extras/stepper/render.cpp:41 | from the initial counters, the servo counter stays in −39919..120 on every frame, inside the range of a signed 32-bit int |
| StepperRender.Stepper.constructor | examples/11-Extras/stepper/render.cpp:27-56 | the globals start at the initial counters |
| StepperRender.Stepper.Tick | examples/11-Extras/stepper/render.cpp:93-155 | one frame in place: returns the frame's five levels and leaves the counters at Next of the old ones; the invariant `Inv` is kept |
| StepperRender.Stepper.CompleteStep | examples/11-Extras/stepper/render.cpp:117-155 | the step-completion branch in place leaves the counters at the value the model gives for it |
| StepperRender.Stepper.Render | examples/11-Extras/stepper/render.cpp:90-158 | given a successful setup, a block writes frame n's levels to frames[n] for every frame and leaves the counters at Run of the old ones |

## Left out

- `pinMode`, `digitalWriteOnce` and `rt_printf` are calls into the Bela runtime, which is not part of
  this model. The levels are returned by `Tick` and recorded by `Render` instead of written to pins.
  Setup's pin configuration and error message are dropped.
- `BelaContext` is reduced to its audio and digital frame counts, and `userData` is not modelled. The
  pin identifiers (`P8_27`, ...) are hardware constants with no behaviour.
- `cleanup()` has an empty body.
- The scheduling of `render()` by the audio engine is external. Successive blocks are successive
  calls of `Render` on the same `Stepper`.
- The counters are unbounded integers rather than 32-bit `int`s. No wrap-around is lost: `Inv`
  bounds every counter but `gServoCounter`, and ServoNeverOverflows shows that one stays in
  −39919..120, reached at the end of MoveRight1 after a spin has drained Spin's 80-sample pulse.
- ServoPulseWidth: covers the first 500 frames after a reload, which is the shortest a step can last.
  ServoStaysLow carries the low level on from there up to the next reload.
