/**
  What the movement state machine guarantees, and where it departs from what
  the code evidently intends, stated over the functions of module Motion.
*/
module MotionProperties {
  import opened Motion

  // ---------------------------------------------------------------------------
  // The airborne velocity update

  /** Move agrees with the clamp the name maxFallSpeed implies (never fall
      faster than it) exactly when the clamp does not fire or the cap is 0; when
      it fires with a positive cap, the character is sent upward instead. */
  lemma MoveAgreesWithLimitIff(p: StateParams, v: Velocity, axis: real, dt: real)
    ensures var vy := v.y - p.gravity * dt;
      && (Integrate(p, v, axis, dt).y == LimitFall(vy, p.maxFallSpeed) <==> vy >= -p.maxFallSpeed || p.maxFallSpeed == 0.0)
      && (vy < -p.maxFallSpeed && p.maxFallSpeed > 0.0 ==> Integrate(p, v, axis, dt).y > 0.0)
  {
  }

  /** The Jump instance never gets a maxFallSpeed, so in Jump the clamp turns
      every downward integrated velocity into 0. */
  lemma JumpMoveNeverDescends(cfg: Config, v: Velocity, axis: real, dt: real)
    ensures Integrate(InitialStates(cfg)[Jump], v, axis, dt).y == LimitFall(v.y - cfg.jumpGravity * dt, 0.0)
    ensures Integrate(InitialStates(cfg)[Jump], v, axis, dt).y >= 0.0
  {
  }

  /** After any tick from any state the character falls no faster than
      maxFallSpeed. */
  lemma StepBoundsFallSpeed(cfg: Config, m: Machine, f: TickInput)
    requires 0.0 <= cfg.maxFallSpeed && 0.0 <= cfg.initialJumpVelocity
    ensures Step(cfg, m, f).v.y >= -cfg.maxFallSpeed
  {
  }

  /** ... and so after any non-empty run of ticks, whatever the gravities and
      frame times. */
  lemma {:induction false} RunBoundsFallSpeed(cfg: Config, m: Machine, inputs: seq<TickInput>)
    requires 0.0 <= cfg.maxFallSpeed && 0.0 <= cfg.initialJumpVelocity
    requires inputs != []
    ensures Run(cfg, m, inputs).v.y >= -cfg.maxFallSpeed
    decreases |inputs|
  {
    StepBoundsFallSpeed(cfg, m, inputs[0]);
    if |inputs| > 1 {
      RunBoundsFallSpeed(cfg, Step(cfg, m, inputs[0]), inputs[1..]);
    }
  }

  // ---------------------------------------------------------------------------
  // Runs of ticks

  lemma {:induction false} RunAppend(cfg: Config, m: Machine, first: seq<TickInput>, rest: seq<TickInput>)
    ensures Run(cfg, m, first + rest) == Run(cfg, Run(cfg, m, first), rest)
    decreases |first|
  {
    if first == [] {
      assert first + rest == rest;
    } else {
      assert (first + rest)[0] == first[0];
      assert (first + rest)[1..] == first[1..] + rest;
      RunAppend(cfg, Step(cfg, m, first[0]), first[1..], rest);
    }
  }

  // ---------------------------------------------------------------------------
  // Exit and Enter calls

  lemma {:induction false} TransitionsAppend(a: PlayerState, c1: seq<Call>, b: PlayerState, c2: seq<Call>, c: PlayerState)
    requires Transitions(a, c1, b) && Transitions(b, c2, c)
    ensures Transitions(a, c1 + c2, c)
    decreases |c1|
  {
    if c1 == [] {
      assert c1 + c2 == c2;
    } else {
      assert (c1 + c2)[2..] == c1[2..] + c2;
      TransitionsAppend(c1[1].state, c1[2..], b, c2, c);
    }
  }

  lemma OnePair(a: PlayerState, b: PlayerState)
    ensures Transitions(a, [Exited(a), Entered(b)], b)
  {
    assert [Exited(a), Entered(b)][2..] == [];
  }

  lemma TwoPairs(a: PlayerState, b: PlayerState, c: PlayerState)
    ensures Transitions(a, [Exited(a), Entered(b), Exited(b), Entered(c)], c)
  {
    OnePair(b, c);
    assert [Exited(a), Entered(b), Exited(b), Entered(c)][2..] == [Exited(b), Entered(c)];
  }

  lemma ThreePairs(a: PlayerState, b: PlayerState, c: PlayerState, d: PlayerState)
    ensures Transitions(a, [Exited(a), Entered(b), Exited(b), Entered(c), Exited(c), Entered(d)], d)
  {
    TwoPairs(b, c, d);
    assert [Exited(a), Entered(b), Exited(b), Entered(c), Exited(c), Entered(d)][2..]
        == [Exited(b), Entered(c), Exited(c), Entered(d)];
  }

  /** A tick only appends to the calls, and what it appends is a chain of
      ChangeState calls, each exiting the state current at that moment, that
      leads from the state current before the tick to the one current after. */
  lemma StepRecordsTransitions(cfg: Config, m: Machine, f: TickInput)
    ensures CallsExtend(m, Step(cfg, m, f))
  {
    var r := Step(cfg, m, f);
    var added: seq<Call>;
    match m.current {
      case Jump =>
        added := if !f.held then [Exited(Jump), Entered(Fall), Exited(Fall), Entered(Fall)]
                 else if r.current == Fall then [Exited(Jump), Entered(Fall)] else [];
        TwoPairs(Jump, Fall, Fall);
        OnePair(Jump, Fall);
      case Fall =>
        added := if !f.onGround then [] else if r.calls == m.calls + [Exited(Fall), Entered(Grounded)]
                 then [Exited(Fall), Entered(Grounded)] else [Exited(Fall), Entered(Jump), Exited(Jump), Entered(Grounded)];
        OnePair(Fall, Grounded);
        TwoPairs(Fall, Jump, Grounded);
      case Coyote =>
        CoyoteRecordsTransitions(cfg, m, f);
        added := r.calls[|m.calls|..];
      case Grounded =>
        added := (if !f.onGround then [Exited(Grounded), Entered(Coyote)] else [])
          + (if f.pressed then [Exited(if f.onGround then Grounded else Coyote), Entered(Jump)] else []);
        OnePair(Grounded, Coyote);
        OnePair(Grounded, Jump);
        TwoPairs(Grounded, Coyote, Jump);
        assert [Exited(Grounded), Entered(Coyote)] + [Exited(Coyote), Entered(Jump)]
            == [Exited(Grounded), Entered(Coyote), Exited(Coyote), Entered(Jump)];
    }
    assert r.calls == m.calls + added;
    assert r.calls[|m.calls|..] == added;
  }

  /** The Coyote case: the calls of FallState.Tick, then one more
      ChangeState(Jump) on a press, from whichever state is current by then. */
  lemma CoyoteRecordsTransitions(cfg: Config, m: Machine, f: TickInput)
    requires m.current == Coyote
    ensures CallsExtend(m, CoyoteStep(cfg, m, f))
  {
    var r := CoyoteStep(cfg, m, f);
    var fell := FallStep(cfg, m, f, Coyote);
    var latched := if f.pressed then cfg.jumpBuffer else m.coyoteBufferRemaining;
    var d: seq<Call> := if !f.onGround then [] else if latched > 0.0
      then [Exited(Coyote), Entered(Jump), Exited(Jump), Entered(Grounded)] else [Exited(Coyote), Entered(Grounded)];
    assert fell.calls == m.calls + d;
    var added: seq<Call>;
    if f.pressed {
      added := d + [Exited(fell.current), Entered(Jump)];
      if !f.onGround {
        OnePair(Coyote, Jump);
      } else if latched > 0.0 {
        ThreePairs(Coyote, Jump, Grounded, Jump);
        assert added == [Exited(Coyote), Entered(Jump), Exited(Jump), Entered(Grounded), Exited(Grounded), Entered(Jump)];
      } else {
        TwoPairs(Coyote, Grounded, Jump);
        assert added == [Exited(Coyote), Entered(Grounded), Exited(Grounded), Entered(Jump)];
      }
    } else {
      added := d;
      OnePair(Coyote, Grounded);
      TwoPairs(Coyote, Jump, Grounded);
    }
    assert r.calls == m.calls + added;
    assert r.calls[|m.calls|..] == added;
  }

  lemma CallsExtendTransitive(a: Machine, b: Machine, c: Machine)
    requires CallsExtend(a, b) && CallsExtend(b, c)
    ensures CallsExtend(a, c)
  {
    var d1 := b.calls[|a.calls|..];
    var d2 := c.calls[|b.calls|..];
    assert c.calls == a.calls + d1 + d2;
    assert c.calls[|a.calls|..] == d1 + d2;
    TransitionsAppend(a.current, d1, b.current, d2, c.current);
  }

  lemma {:induction false} RunRecordsTransitions(cfg: Config, m: Machine, inputs: seq<TickInput>)
    ensures CallsExtend(m, Run(cfg, m, inputs))
    decreases |inputs|
  {
    if inputs == [] {
      assert m.calls[|m.calls|..] == [];
    } else {
      var s := Step(cfg, m, inputs[0]);
      StepRecordsTransitions(cfg, m, inputs[0]);
      RunRecordsTransitions(cfg, s, inputs[1..]);
      CallsExtendTransitive(m, s, Run(cfg, s, inputs[1..]));
    }
  }

  // ---------------------------------------------------------------------------
  // Coyote and the jump buffer

  /** With no press and no ground contact, Coyote stays Coyote for any number
      of ticks and any frame times: the grace period never runs out. */
  lemma {:induction false} CoyoteNeverExpires(cfg: Config, m: Machine, inputs: seq<TickInput>)
    requires m.current == Coyote && Drifting(inputs)
    ensures Run(cfg, m, inputs).current == Coyote
    decreases |inputs|
  {
    if inputs != [] {
      assert !inputs[0].pressed && !inputs[0].onGround;
      assert Drifting(inputs[1..]) by {
        forall i | 0 <= i < |inputs[1..]| ensures !inputs[1..][i].pressed && !inputs[1..][i].onGround {
          assert inputs[1..][i] == inputs[i + 1];
        }
      }
      CoyoteNeverExpires(cfg, Step(cfg, m, inputs[0]), inputs[1..]);
    }
  }

  /** Walking off a ledge enters Coyote; a press any number of ticks later,
      still in the air, jumps. */
  lemma CoyoteJumpAfterAnyDelay(cfg: Config, m: Machine, offLedge: TickInput, waiting: seq<TickInput>, press: TickInput)
    requires m.current == Grounded && !offLedge.onGround && !offLedge.pressed
    requires Drifting(waiting) && press.pressed
    ensures var r := Run(cfg, m, [offLedge] + waiting + [press]);
      r.current == Jump && r.v == Velocity(press.axis * cfg.horizontalSpeed, cfg.initialJumpVelocity)
  {
    var coyote := Step(cfg, m, offLedge);
    assert coyote.current == Coyote;
    assert ([offLedge] + waiting)[0] == offLedge && ([offLedge] + waiting)[1..] == waiting;
    assert Run(cfg, m, [offLedge] + waiting) == Run(cfg, coyote, waiting);
    CoyoteNeverExpires(cfg, coyote, waiting);
    RunAppend(cfg, m, [offLedge] + waiting, [press]);
    assert [press][1..] == [];
  }

  /** In Fall, away from the ground and without presses, the buffer only
      drains: after a run it is its old value less the elapsed time, however
      far below zero that is. */
  lemma {:induction false} FallBufferDrains(cfg: Config, m: Machine, inputs: seq<TickInput>)
    requires m.current == Fall && Drifting(inputs)
    ensures Run(cfg, m, inputs).current == Fall
    ensures Run(cfg, m, inputs).fallBufferRemaining == m.fallBufferRemaining - Elapsed(inputs)
    decreases |inputs|
  {
    if inputs != [] {
      assert !inputs[0].pressed && !inputs[0].onGround;
      assert Drifting(inputs[1..]) by {
        forall i | 0 <= i < |inputs[1..]| ensures !inputs[1..][i].pressed && !inputs[1..][i].onGround {
          assert inputs[1..][i] == inputs[i + 1];
        }
      }
      FallBufferDrains(cfg, Step(cfg, m, inputs[0]), inputs[1..]);
    }
  }

  /** coyoteTime is copied into the Coyote instance but nothing reads it:
      one tick is the same whatever its value. */
  lemma StepIgnoresCoyoteTime(cfg: Config, t: real, m: Machine, f: TickInput)
    ensures Step(cfg.(coyoteTime := t), m, f) == Step(cfg, m, f)
  {
    var other := cfg.(coyoteTime := t);
    assert InitialStates(other)[Jump] == InitialStates(cfg)[Jump];
    assert InitialStates(other)[Fall] == InitialStates(cfg)[Fall];
    assert InitialStates(other)[Grounded] == InitialStates(cfg)[Grounded];
    assert Integrate(InitialStates(other)[Coyote], m.v, f.axis, f.dt) == Integrate(InitialStates(cfg)[Coyote], m.v, f.axis, f.dt);
  }

  lemma {:induction false} RunIgnoresCoyoteTime(cfg: Config, t: real, m: Machine, inputs: seq<TickInput>)
    ensures Run(cfg.(coyoteTime := t), m, inputs) == Run(cfg, m, inputs)
    decreases |inputs|
  {
    if inputs != [] {
      StepIgnoresCoyoteTime(cfg, t, m, inputs[0]);
      RunIgnoresCoyoteTime(cfg, t, Step(cfg, m, inputs[0]), inputs[1..]);
    }
  }

  // ---------------------------------------------------------------------------
  // Scenarios

  /** Standing still on the ground and pressing jump: Jump, launched straight
      up at initialJumpVelocity. */
  lemma GroundedJumpFromRest(cfg: Config, m: Machine, f: TickInput)
    requires m.current == Grounded && f.axis == 0.0 && f.pressed && f.onGround
    ensures Step(cfg, m, f).current == Jump
    ensures Step(cfg, m, f).v == Velocity(0.0, cfg.initialJumpVelocity)
    ensures Step(cfg, m, f).calls == m.calls + [Exited(Grounded), Entered(Jump)]
  {
  }

  /** A tick with dt = 0 is not idle: releasing the button in Jump still
      moves to Fall, and standing on the ground zeroes any vertical velocity. */
  lemma ZeroTimeTickIsNotIdle(cfg: Config, m: Machine, f: TickInput)
    requires f.dt == 0.0 && !f.pressed && f.onGround
    requires (m.current == Jump && !f.held) || (m.current == Grounded && m.v.y != 0.0)
    ensures Step(cfg, m, f) != m
  {
  }
}
