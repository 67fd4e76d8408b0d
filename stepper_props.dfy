/*
 * Properties of the choreography: what one frame does to the counters, how
 * the servo pulse and the coil pattern behave, and that the whole
 * choreography returns to its starting counters after 120000 frames.
 */
module StepperProps {
  import opened StepperSpec

  /** Frames in one full choreography: six moves of 16 slow steps, one spin of 48 fast ones. */
  const CycleFrames := 6 * MoveSteps * StepLengthSlow + SpinSteps * StepLengthFast

  /** The phase after k steps in one state: forwards or backwards by k, modulo 4. */
  function Turn(state: int, phase: int, k: int): (p: int)
  {
    if IsLeftward(state) then (phase - k) % 4 else (phase + k) % 4
  }

  // ---------------------------------------------------------------------------
  // One frame

  /** Between step boundaries only the step counter and the servo countdown move. */
  lemma QuietFrame(c: Counters)
    requires Inv(c) && !AtBoundary(c)
    ensures Next(c) == c.(stepCounter := c.stepCounter + 1, servoCounter := c.servoCounter - 1)
    ensures Next(c).stepCounter > 0
  {
  }

  /**
   * A frame that completes a step resets the step counter, turns the phase by
   * one in the state's direction, counts the step, and moves to the next state
   * (cyclically, in enumeration order) exactly when the state's budget is used.
   */
  lemma BoundaryFrame(c: Counters)
    requires Inv(c) && AtBoundary(c)
    ensures Next(c).stepCounter == 0
    ensures Next(c).phase == Turn(c.state, c.phase, 1)
    ensures Next(c).stateCounter == (c.stateCounter + 1) % Budget(c.state)
    ensures Next(c).state == if c.stateCounter + 1 == Budget(c.state) then (c.state + 1) % StateMax else c.state
    ensures Next(c).stepLengthSamples == LengthFor(Next(c).state)
  {
  }

  /** Phase, state and state counter change only on a frame that completes a step. */
  lemma OnlyBoundaryMoves(c: Counters)
    requires Inv(c)
    ensures (Next(c).stepCounter == 0) <==> AtBoundary(c)
    ensures !AtBoundary(c) ==>
      Next(c).phase == c.phase && Next(c).state == c.state && Next(c).stateCounter == c.stateCounter
      && Next(c).stepLengthSamples == c.stepLengthSamples
  {
  }

  /** The state changes exactly when a step completes the state's budget. */
  lemma StateChangesIff(c: Counters)
    requires Inv(c)
    ensures Next(c).state != c.state <==> AtBoundary(c) && c.stateCounter + 1 == Budget(c.state)
  {
  }

  /**
   * The servo counter counts down by one each frame, except on a frame that
   * ends a non-spin state: that one loads 120 or 80 by the parity of the new
   * state. Leaving Spin does not touch it.
   */
  lemma ServoRule(c: Counters)
    ensures Next(c).servoCounter == if Reloads(c) then ServoPulse(c.state + 1) else c.servoCounter - 1
    ensures Reloads(c) && c.state == MoveLeft3 ==> Next(c).state == Spin && Next(c).stepLengthSamples == StepLengthFast
  {
  }

  // ---------------------------------------------------------------------------
  // Coil pattern

  /** The coil levels of the four phases, in drive order. */
  lemma CoilSequence(c: Counters)
    ensures c.phase == 0 ==> var l := Output(c); l.b1 && !l.b2 && !l.a1 && l.a2
    ensures c.phase == 1 ==> var l := Output(c); l.b1 && !l.b2 && l.a1 && !l.a2
    ensures c.phase == 2 ==> var l := Output(c); !l.b1 && l.b2 && l.a1 && !l.a2
    ensures c.phase == 3 ==> var l := Output(c); !l.b1 && l.b2 && !l.a1 && l.a2
  {
  }

  /** The coil levels identify the phase: PhaseOf undoes Output. */
  lemma CoilRoundTrip(c: Counters)
    requires 0 <= c.phase < 4
    ensures PhaseOf(Output(c)) == c.phase
  {
  }

  /** Neighbouring phases differ in the polarity of exactly one coil pair. */
  lemma NeighbourPhasesDifferInOnePair(c: Counters, d: Counters)
    requires 0 <= c.phase < 4 && d.phase == (c.phase + 1) % 4
    ensures (Output(c).a1 != Output(d).a1) != (Output(c).b1 != Output(d).b1)
  {
  }

  // ---------------------------------------------------------------------------
  // Runs of frames

  /** Running a + b frames is running a frames, then b. */
  lemma {:induction false} RunAdd(c: Counters, a: nat, b: nat)
    ensures Run(c, a + b) == Run(Run(c, a), b)
    decreases a
  {
    if a > 0 {
      RunAdd(Next(c), a - 1, b);
    }
  }

  /** Within one step, j frames only advance the step counter and count the servo down. */
  lemma {:induction false} WithinStep(c: Counters, j: nat)
    requires Inv(c) && c.stepCounter + j < c.stepLengthSamples
    ensures Run(c, j) == c.(stepCounter := c.stepCounter + j, servoCounter := c.servoCounter - j)
    decreases j
  {
    if j > 0 {
      WithinStep(c, j - 1);
      RunLast(c, j - 1);
    }
  }

  /** A whole step, from its first frame to the one that completes it. */
  lemma OneStep(c: Counters)
    requires Inv(c) && c.stepCounter == 0
    ensures Run(c, c.stepLengthSamples) ==
      Next(c.(stepCounter := c.stepLengthSamples - 1, servoCounter := c.servoCounter - (c.stepLengthSamples - 1)))
  {
    RunLast(c, c.stepLengthSamples - 1);
    UpToBoundary(c);
  }

  /** The last frame of a run is one more frame after the rest. */
  lemma RunLast(c: Counters, n: nat)
    ensures Run(c, n + 1) == Next(Run(c, n))
  {
    RunAdd(c, n, 1);
  }

  /** All frames of a step before the one that completes it. */
  lemma UpToBoundary(c: Counters)
    requires Inv(c) && c.stepCounter == 0
    ensures Run(c, c.stepLengthSamples - 1) ==
      c.(stepCounter := c.stepLengthSamples - 1, servoCounter := c.servoCounter - (c.stepLengthSamples - 1))
  {
    WithinStep(c, c.stepLengthSamples - 1);
  }

  /** A whole step that does not use up the state's budget. */
  lemma InnerStep(d: Counters)
    requires Inv(d) && d.stepCounter == 0 && d.stateCounter + 1 < Budget(d.state)
    ensures Run(d, d.stepLengthSamples) ==
      d.(phase := PhaseAfterStep(d.state, d.phase),
         stateCounter := d.stateCounter + 1,
         servoCounter := d.servoCounter - d.stepLengthSamples)
  {
    var L := d.stepLengthSamples;
    OneStep(d);
    var e := d.(stepCounter := L - 1, servoCounter := d.servoCounter - (L - 1));
    assert Next(e) == CompleteStep(d.(stepCounter := L, servoCounter := d.servoCounter - L));
  }

  /** One more step in a state turns the phase once more in the state's direction. */
  lemma TurnStep(state: int, phase: int, k: int)
    requires 0 <= state < StateMax
    ensures PhaseAfterStep(state, Turn(state, phase, k)) == Turn(state, phase, k + 1)
  {
  }

  /** A state's whole budget of steps brings the phase back where it was. */
  lemma WholeTurns(state: int, phase: int)
    requires 0 <= phase < 4
    ensures Turn(state, phase, Budget(state)) == phase
  {
    if state == Spin {
      assert Turn(state, phase, 48) == (phase + 48) % 4;
    } else if IsLeftward(state) {
      assert Turn(state, phase, 16) == (phase - 16) % 4;
    } else {
      assert Turn(state, phase, 16) == (phase + 16) % 4;
    }
  }

  /** The frames in k steps of L frames each, counted one step at a time. */
  function StepFrames(k: nat, L: nat): (n: nat)
  {
    if k == 0 then 0 else StepFrames(k - 1, L) + L
  }

  /** Counting step by step gives the product. */
  lemma {:induction false} StepFramesProduct(k: nat, L: nat)
    ensures StepFrames(k, L) == k * L
  {
    if k > 0 {
      StepFramesProduct(k - 1, L);
    }
  }

  /** k whole steps that stay inside one state. */
  lemma {:induction false} Steps(c: Counters, k: nat)
    requires Inv(c) && c.stepCounter == 0
    requires c.stateCounter + k < Budget(c.state)
    ensures var n := StepFrames(k, c.stepLengthSamples);
      Run(c, n) ==
        c.(phase := Turn(c.state, c.phase, k),
           stateCounter := c.stateCounter + k,
           servoCounter := c.servoCounter - n)
    decreases k
  {
    if k == 0 {
      assert c.phase == Turn(c.state, c.phase, 0);
    } else {
      var L := c.stepLengthSamples;
      var m := StepFrames(k - 1, L);
      Steps(c, k - 1);
      var d := Run(c, m);
      assert d.stepLengthSamples == L && d.state == c.state;
      InnerStep(d);
      RunAdd(c, m, L);
      assert Run(c, StepFrames(k, L)) == Run(d, L);
      TurnStep(c.state, c.phase, k - 1);
    }
  }

  /** All steps of one state up to, but not including, its last. */
  lemma AllButLastStep(c: Counters)
    requires Inv(c) && c.stepCounter == 0 && c.stateCounter == 0
    ensures var n := (Budget(c.state) - 1) * c.stepLengthSamples;
      Run(c, n) == c.(phase := Turn(c.state, c.phase, Budget(c.state) - 1),
                      stateCounter := Budget(c.state) - 1,
                      servoCounter := c.servoCounter - n)
  {
    Steps(c, Budget(c.state) - 1);
    StepFramesProduct(Budget(c.state) - 1, c.stepLengthSamples);
  }

  /** The step that uses up a state's budget, from its first frame. */
  lemma LastStep(d: Counters)
    requires Inv(d) && d.stepCounter == 0 && d.stateCounter == Budget(d.state) - 1
    ensures var phase := PhaseAfterStep(d.state, d.phase);
      Run(d, d.stepLengthSamples) ==
        if d.state == Spin then
          Counters(phase, 0, StepLengthSlow, MoveRight1, 0, d.servoCounter - d.stepLengthSamples)
        else
          Counters(phase, 0, LengthFor(d.state + 1), d.state + 1, 0, ServoPulse(d.state + 1))
  {
    OneStep(d);
  }

  /**
   * One state from its first frame to the first frame of the next: the phase
   * is back where it was (16 and 48 steps are whole turns); a directional state
   * hands over to the next one with its servo pulse loaded and, for Spin, the
   * fast step length; Spin hands over to MoveRight1 with the slow step length
   * and the servo counter only counted down.
   */
  lemma Segment(c: Counters)
    requires Inv(c) && c.stepCounter == 0 && c.stateCounter == 0
    ensures var n := Budget(c.state) * c.stepLengthSamples;
      Run(c, n) ==
        if c.state == Spin then
          c.(state := MoveRight1, stepLengthSamples := StepLengthSlow, servoCounter := c.servoCounter - n)
        else
          Counters(c.phase, 0, LengthFor(c.state + 1), c.state + 1, 0, ServoPulse(c.state + 1))
  {
    var B, L := Budget(c.state), c.stepLengthSamples;
    var m := (B - 1) * L;
    if c.state == Spin {
      assert B == 48 && L == 500 && m == 23500;
    } else {
      assert B == 16 && L == 1000 && m == 15000;
    }
    AllButLastStep(c);
    var d := Run(c, m);
    LastStep(d);
    RunAdd(c, m, L);
    assert Run(c, B * L) == Run(d, L);
    TurnStep(c.state, c.phase, B - 1);
    WholeTurns(c.state, c.phase);
  }

  /** One directional state: 16000 frames later the next state has begun. */
  lemma MoveSegment(c: Counters)
    requires Inv(c) && c.state != Spin && c.stepCounter == 0 && c.stateCounter == 0
    ensures Run(c, MoveSteps * StepLengthSlow) ==
      Counters(c.phase, 0, LengthFor(c.state + 1), c.state + 1, 0, ServoPulse(c.state + 1))
  {
    Segment(c);
  }

  /** The spin: 24000 frames later MoveRight1 has begun again. */
  lemma SpinSegment(c: Counters)
    requires Inv(c) && c.state == Spin && c.stepCounter == 0 && c.stateCounter == 0
    ensures Run(c, SpinSteps * StepLengthFast) ==
      c.(state := MoveRight1, stepLengthSamples := StepLengthSlow,
         servoCounter := c.servoCounter - SpinSteps * StepLengthFast)
  {
    Segment(c);
  }

  /** A frame count below B * L splits into fewer than B whole steps and a part step. */
  lemma SplitFrames(j: nat, B: nat, L: nat)
    requires 0 < L && j < B * L
    ensures j == StepFrames(j / L, L) + j % L
    ensures j / L < B && j % L < L
  {
    StepFramesProduct(j / L, L);
  }

  /**
   * A state holds on every frame before its segment ends: from its first
   * frame, any j frames short of the budget's B * L leave the state and the
   * step length as they were. With Segment, the state changes exactly at B * L.
   */
  lemma StateHolds(c: Counters, j: nat)
    requires Inv(c) && c.stepCounter == 0 && c.stateCounter == 0
    requires j < Budget(c.state) * c.stepLengthSamples
    ensures Run(c, j).state == c.state
    ensures Run(c, j).stepLengthSamples == c.stepLengthSamples
  {
    var L := c.stepLengthSamples;
    SplitFrames(j, Budget(c.state), L);
    var q, r := j / L, j % L;
    var m := StepFrames(q, L);
    Steps(c, q);
    var d := Run(c, m);
    WithinStep(d, r);
    RunAdd(c, m, r);
  }

  /** From the start of a directional state, the remaining moves lead into Spin. */
  lemma {:induction false} MovesToSpin(c: Counters)
    requires Inv(c) && c.state != Spin && c.stepCounter == 0 && c.stateCounter == 0
    ensures Run(c, (Spin - c.state) * MoveSteps * StepLengthSlow) ==
      Counters(c.phase, 0, StepLengthFast, Spin, 0, ServoPulseEven)
    decreases Spin - c.state
  {
    var seg := MoveSteps * StepLengthSlow;
    MoveSegment(c);
    var d := Run(c, seg);
    if d.state != Spin {
      MovesToSpin(d);
      assert (Spin - c.state) * seg == seg + (Spin - d.state) * seg;
      RunAdd(c, seg, (Spin - d.state) * seg);
    }
  }

  /**
   * The whole choreography: from the first frame of MoveRight1, 120000 frames
   * later every counter but the servo countdown is back where it started.
   */
  lemma {:induction false} Cycle(c: Counters)
    requires Inv(c) && c.state == MoveRight1 && c.stepCounter == 0 && c.stateCounter == 0
    ensures Run(c, CycleFrames) ==
      c.(servoCounter := ServoPulseEven - SpinSteps * StepLengthFast)
  {
    var moves := 6 * MoveSteps * StepLengthSlow;
    MovesToSpin(c);
    var s := Run(c, moves);
    SpinSegment(s);
    RunAdd(c, moves, SpinSteps * StepLengthFast);
  }

  /** The first state change: 16000 frames in, MoveLeft1 begins with a 120-sample servo pulse. */
  lemma FirstStateChange()
    ensures Run(Initial(), MoveSteps * StepLengthSlow).state == MoveLeft1
    ensures Run(Initial(), MoveSteps * StepLengthSlow).servoCounter == ServoPulseOdd
  {
    MoveSegment(Initial());
  }

  /** Spin begins after the six directional states, with the fast step length. */
  lemma SpinBegins()
    ensures Run(Initial(), 6 * MoveSteps * StepLengthSlow).state == Spin
    ensures Run(Initial(), 6 * MoveSteps * StepLengthSlow).stepLengthSamples == StepLengthFast
  {
    MovesToSpin(Initial());
  }

  /** From the initial counters, one full choreography returns to them, servo aside. */
  lemma InitialCycle()
    ensures Run(Initial(), CycleFrames) == Initial().(servoCounter := ServoPulseEven - SpinSteps * StepLengthFast)
  {
    Cycle(Initial());
  }

  // ---------------------------------------------------------------------------
  // Servo pulse

  /** Without a reload, the servo counter falls by exactly one per frame. */
  lemma {:induction false} ServoCountsDown(c: Counters, n: nat)
    requires forall i :: 0 <= i < n ==> !Reloads(Run(c, i))
    ensures Run(c, n).servoCounter == c.servoCounter - n
    decreases n
  {
    if n > 0 {
      ServoCountsDown(c, n - 1);
      ServoRule(Run(c, n - 1));
      RunLast(c, n - 1);
    }
  }

  /**
   * Once the servo counter is down to 1 or below, every frame writes the servo
   * low until a reload.
   */
  lemma ServoStaysLow(c: Counters, n: nat)
    requires c.servoCounter <= 1
    requires forall i :: 0 <= i < n ==> !Reloads(Run(c, i))
    ensures forall j :: 0 <= j < n ==> !Outputs(c, n)[j].servo
  {
    forall j | 0 <= j < n
      ensures !Outputs(c, n)[j].servo
    {
      ServoCountsDown(c, j);
    }
  }

  /**
   * After the frame that loads the servo counter with N, the next N - 1 frames
   * write the servo high and the frames after them low (within the first 500
   * frames, before any other step can complete).
   */
  lemma ServoPulseWidth(c: Counters, n: nat)
    requires Inv(c) && Reloads(c) && n <= StepLengthFast
    ensures var pulse := ServoPulse(c.state + 1);
      forall j :: 0 <= j < n ==> (Outputs(Next(c), n)[j].servo <==> j < pulse - 1)
  {
    var d := Next(c);
    forall j | 0 <= j < n
      ensures Outputs(d, n)[j].servo <==> j < ServoPulse(c.state + 1) - 1
    {
      WithinStep(d, j);
    }
  }

  // ---------------------------------------------------------------------------
  // Servo counter range

  /**
   * The servo counter when the current state began: the pulse loaded on
   * entering it, or, for MoveRight1, what is left of Spin's 80-sample pulse
   * after Spin's 24000 frames (the wrap does not reload it).
   */
  function EntryServo(state: int): (n: int)
    ensures n >= ServoPulseEven - SpinSteps * StepLengthFast
  {
    if state == MoveRight1 then ServoPulseEven - SpinSteps * StepLengthFast else ServoPulse(state)
  }

  /** Frames elapsed since the current state began. */
  function Elapsed(c: Counters): (n: int)
  {
    c.stateCounter * c.stepLengthSamples + c.stepCounter
  }

  /** The servo counter has fallen by at most one per frame since the state began. */
  predicate ServoFloor(c: Counters)
  {
    c.servoCounter >= EntryServo(c.state) - Elapsed(c)
  }

  /** The lowest value the servo counter reaches: the end of MoveRight1 after a spin. */
  const ServoMin := ServoPulseEven - SpinSteps * StepLengthFast - (MoveSteps * StepLengthSlow - 1)

  /** One frame keeps the floor. */
  lemma NextKeepsServoFloor(c: Counters)
    requires Inv(c) && ServoFloor(c)
    ensures ServoFloor(Next(c))
  {
    var r := Next(c);
    if !AtBoundary(c) {
      assert r == c.(stepCounter := c.stepCounter + 1, servoCounter := c.servoCounter - 1);
      assert Elapsed(r) == Elapsed(c) + 1;
    } else if Reloads(c) || (c.state == Spin && c.stateCounter + 1 == SpinSteps) {
      assert Elapsed(r) == 0;
      if c.state == Spin {
        assert Elapsed(c) == 47 * 500 + 499;
      }
    } else {
      assert r.state == c.state && r.stateCounter == c.stateCounter + 1 && r.stepCounter == 0;
      assert r.stepLengthSamples == c.stepLengthSamples;
      if c.state == Spin {
        assert Elapsed(r) == Elapsed(c) + 1;
      } else {
        assert Elapsed(r) == Elapsed(c) + 1;
      }
    }
  }

  /** Any run keeps the floor. */
  lemma {:induction false} RunKeepsServoFloor(c: Counters, n: nat)
    requires Inv(c) && ServoFloor(c)
    ensures ServoFloor(Run(c, n))
    decreases n
  {
    if n > 0 {
      NextKeepsServoFloor(c);
      RunKeepsServoFloor(Next(c), n - 1);
    }
  }

  /** Under the floor, the counter never drops below ServoMin. */
  lemma ServoFloorBound(c: Counters)
    requires Inv(c) && ServoFloor(c)
    ensures ServoMin <= c.servoCounter <= ServoPulseOdd
  {
    if c.state == Spin {
      assert Elapsed(c) <= 47 * 500 + 499;
    } else {
      assert Elapsed(c) <= 15 * 1000 + 999;
    }
  }

  /** From counters under the floor, every run keeps the servo counter in ServoMin..120. */
  lemma ServoRange(c: Counters, n: nat)
    requires Inv(c) && ServoFloor(c)
    ensures ServoMin <= Run(c, n).servoCounter <= ServoPulseOdd
  {
    RunKeepsServoFloor(c, n);
    ServoFloorBound(Run(c, n));
  }

  /**
   * From the initial counters the servo counter stays within -39919..120 on
   * every frame, far inside a signed 32-bit int: the decrement in render()
   * never wraps.
   */
  lemma ServoNeverOverflows(n: nat)
    ensures ServoMin <= Run(Initial(), n).servoCounter <= ServoPulseOdd
    ensures -0x8000_0000 <= Run(Initial(), n).servoCounter < 0x8000_0000
  {
    ServoRange(Initial(), n);
  }}
