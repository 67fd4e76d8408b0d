/*
 * The stepper/servo choreography of the Bela "stepper" example, as values.
 *
 * The example keeps six global integer counters and, once per audio frame,
 * drives two coil pairs of a bipolar stepper motor and one servo line, then
 * advances its counters. This module gives those counters as a datatype and
 * one frame of the routine as the pure function Next; the class in
 * StepperRender performs the same frame in place and is proved against it.
 */
module StepperSpec {

  // Step lengths, in samples.
  const StepLengthSlow := 1000
  const StepLengthFast := 500

  // The choreography states, in the order they are visited.
  const MoveRight1 := 0
  const MoveLeft1 := 1
  const MoveRight2 := 2
  const MoveLeft2 := 3
  const MoveRight3 := 4
  const MoveLeft3 := 5
  const Spin := 6
  const StateMax := 7

  // Steps taken in one state before the next one begins.
  const MoveSteps := 16
  const SpinSteps := 48

  // Servo pulse lengths, in samples, loaded when a new state is entered.
  const ServoPulseOdd := 120
  const ServoPulseEven := 80

  /** The six global counters of the routine. */
  datatype Counters = Counters(
    phase: int,
    stepCounter: int,
    stepLengthSamples: int,
    state: int,
    stateCounter: int,
    servoCounter: int)

  /** The levels written to the five output pins in one frame (true = HIGH). */
  datatype Levels = Levels(a1: bool, a2: bool, b1: bool, b2: bool, servo: bool)

  /** The part of the host's context the routine looks at. */
  datatype Context = Context(audioFrames: nat, digitalFrames: nat)

  /** The counters as the program starts. */
  function Initial(): (c: Counters)
    ensures Inv(c) && c.state == MoveRight1 && c.stepLengthSamples == StepLengthSlow
  {
    Counters(0, 0, StepLengthSlow, MoveRight1, 0, 0)
  }

  /** setup(): succeeds exactly when audio and digital frames are in step. */
  function Setup(ctx: Context): (ok: bool)
    ensures ok <==> ctx.audioFrames == ctx.digitalFrames
  {
    ctx.audioFrames == ctx.digitalFrames
  }

  /** Coil pair B is driven forwards (B1 high) in phases 0 and 1. */
  predicate CoilBForward(phase: int)
  {
    phase == 0 || phase == 1
  }

  /** Coil pair A is driven forwards (A1 high) in phases 1 and 2. */
  predicate CoilAForward(phase: int)
  {
    phase == 1 || phase == 2
  }

  /**
   * The levels written in one frame: the coils follow the phase before the
   * frame, the servo line is high when the pre-decremented counter is positive.
   */
  function Output(c: Counters): (l: Levels)
    ensures l.b2 == !l.b1 && l.a2 == !l.a1
    ensures l.servo <==> c.servoCounter > 1
  {
    var b := CoilBForward(c.phase);
    var a := CoilAForward(c.phase);
    Levels(a, !a, b, !b, c.servoCounter - 1 > 0)
  }

  /** The phase encoded by a frame's coil levels; the inverse of Output on phases. */
  function PhaseOf(l: Levels): (p: int)
    ensures 0 <= p < 4
  {
    if l.b1 then (if l.a1 then 1 else 0)
    else (if l.a1 then 2 else 3)
  }

  /** The leftward moves; every other state turns the motor forwards. */
  predicate IsLeftward(state: int)
  {
    state == MoveLeft1 || state == MoveLeft2 || state == MoveLeft3
  }

  /**
   * The phase after one step in the given state. `(p + 1) & 3` and
   * `(p + 3) & 3` on two's-complement integers are the non-negative remainders
   * modulo 4, which is what Dafny's `%` computes. A state outside the
   * enumeration matches no case and leaves the phase alone.
   */
  function PhaseAfterStep(state: int, phase: int): (p: int)
    ensures 0 <= state < StateMax ==> 0 <= p < 4
    ensures IsLeftward(state) ==> (p + 1) % 4 == phase % 4
    ensures 0 <= state < StateMax && !IsLeftward(state) ==> (p - 1) % 4 == phase % 4
  {
    if state == MoveRight1 || state == MoveRight2 || state == MoveRight3 then (phase + 1) % 4
    else if IsLeftward(state) then (phase + 3) % 4
    else if state == Spin then (phase + 1) % 4
    else phase
  }

  /** Steps a state lasts. */
  function Budget(state: int): (n: int)
    ensures n > 0
  {
    if state == Spin then SpinSteps else MoveSteps
  }

  /** The step length that goes with a state: fast while spinning, slow otherwise. */
  function LengthFor(state: int): (n: int)
    ensures n == StepLengthSlow || n == StepLengthFast
  {
    if state == Spin then StepLengthFast else StepLengthSlow
  }

  /** The servo pulse loaded on entering a state: 120 for odd indices, 80 for even. */
  function ServoPulse(state: int): (n: int)
    ensures n == ServoPulseOdd || n == ServoPulseEven
  {
    if state % 2 == 1 then ServoPulseOdd else ServoPulseEven
  }

  /** The invariant every reachable combination of counters satisfies. */
  predicate Inv(c: Counters)
  {
    && 0 <= c.phase < 4
    && 0 <= c.state < StateMax
    && c.stepLengthSamples == LengthFor(c.state)
    && 0 <= c.stepCounter < c.stepLengthSamples
    && 0 <= c.stateCounter < Budget(c.state)
    && c.servoCounter <= ServoPulseOdd
  }

  /** This frame completes a step. */
  predicate AtBoundary(c: Counters)
  {
    c.stepCounter + 1 >= c.stepLengthSamples
  }

  /** This frame ends a non-spin state, and so loads the servo counter. */
  predicate Reloads(c: Counters)
  {
    AtBoundary(c) && c.state != Spin && c.stateCounter + 1 >= MoveSteps
  }

  /**
   * The end of a step (render() lines 117-155), applied to counters whose step
   * counter has just reached the step length: count the step, turn the phase,
   * move on when the state's budget is used, and restart the step counter.
   */
  function CompleteStep(c: Counters): (r: Counters)
    ensures Inv(c.(stepCounter := 0)) ==> Inv(r)
    ensures r.stepCounter == 0
  {
    var stateSteps := c.stateCounter + 1;
    var phase := PhaseAfterStep(c.state, c.phase);
    if c.state == Spin then
      if stateSteps >= SpinSteps then
        Counters(phase, 0, StepLengthSlow, MoveRight1, 0, c.servoCounter)
      else
        Counters(phase, 0, c.stepLengthSamples, c.state, stateSteps, c.servoCounter)
    else if stateSteps >= MoveSteps then
      var state := c.state + 1;
      Counters(phase, 0, if state == Spin then StepLengthFast else c.stepLengthSamples,
               state, 0, ServoPulse(state))
    else
      Counters(phase, 0, c.stepLengthSamples, c.state, stateSteps, c.servoCounter)
  }

  /** One frame of render(): the counters after it. */
  function Next(c: Counters): (r: Counters)
    ensures Inv(c) ==> Inv(r)
  {
    var ticked := c.(stepCounter := c.stepCounter + 1, servoCounter := c.servoCounter - 1);
    if ticked.stepCounter >= c.stepLengthSamples then CompleteStep(ticked) else ticked
  }

  /** The counters after n frames. */
  function Run(c: Counters, n: nat): (r: Counters)
    ensures Inv(c) ==> Inv(r)
    decreases n
  {
    if n == 0 then c else Run(Next(c), n - 1)
  }

  /** The levels written in each of n frames. */
  function Outputs(c: Counters, n: nat): (r: seq<Levels>)
    ensures |r| == n
    ensures forall i :: 0 <= i < n ==> r[i] == Output(Run(c, i))
    decreases n
  {
    if n == 0 then [] else Outputs(c, n - 1) + [Output(Run(c, n - 1))]
  }
}
