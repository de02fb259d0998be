/**
  The Player component and its four state instances, updated in place.

  The fields are the ones Player.cs mutates: the current state, the
  dictionary of state instances, the rigid body's velocity and the
  `jumpBufferRemaining` field of the Fall and of the Coyote instance.  Every
  method mirrors its C# counterpart statement by statement and is proved to
  leave `Snapshot()` equal to the matching function of module Motion.
*/
module PlayerController {
  import opened Motion

  class Player {
    const cfg: Config
    var allStates: map<PlayerState, StateParams>
    var currentState: PlayerState
    /** rigidbody2D.velocity */
    var velocity: Velocity
    /** jumpBufferRemaining of the Fall instance and of the Coyote instance */
    var fallBufferRemaining: real
    var coyoteBufferRemaining: real
    /** Every Exit and Enter call so far, in order. */
    ghost var calls: seq<Call>

    ghost predicate Valid()
      reads this
    {
      allStates == InitialStates(cfg)
    }

    ghost function Snapshot(): Machine
      reads this
    {
      Machine(currentState, velocity, fallBufferRemaining, coyoteBufferRemaining, calls)
    }

    /** Start(): fill the dictionary, then enter the configured initial
        state.  `restVelocity` is whatever the rigid body holds at start. */
    constructor Start(cfg: Config, initialState: PlayerState, restVelocity: Velocity)
      ensures Valid() && this.cfg == cfg
      ensures Snapshot() == Motion.Start(cfg, initialState, restVelocity)
    {
      this.cfg := cfg;
      allStates := map[];
      currentState := initialState;
      velocity := restVelocity;
      fallBufferRemaining, coyoteBufferRemaining := 0.0, 0.0;
      calls := [];
      new;
      InitStates();
      EnterState(initialState);
    }

    /** Adds one instance per state; Dictionary.Add would throw on a key
        already present, and the dictionary starts empty. */
    method InitStates()
      requires allStates == map[]
      modifies this
      ensures Valid() && Snapshot() == old(Snapshot())
    {
      var jump := Unset.(horizontalSpeed := cfg.horizontalSpeed, heightEpsilon := cfg.heightEpsilon);
      jump := jump.(gravity := cfg.jumpGravity, initialJumpVelocity := cfg.initialJumpVelocity);
      allStates := allStates[Jump := jump];

      var fall := Unset.(horizontalSpeed := cfg.horizontalSpeed, heightEpsilon := cfg.heightEpsilon);
      fall := fall.(jumpBuffer := cfg.jumpBuffer, maxFallSpeed := cfg.maxFallSpeed, gravity := cfg.fallGravity);
      allStates := allStates[Fall := fall];

      var coyote := Unset.(horizontalSpeed := cfg.horizontalSpeed, heightEpsilon := cfg.heightEpsilon);
      coyote := coyote.(jumpBuffer := cfg.jumpBuffer, maxFallSpeed := cfg.maxFallSpeed, gravity := cfg.fallGravity);
      coyote := coyote.(coyoteTime := cfg.coyoteTime);
      allStates := allStates[Coyote := coyote];

      var grounded := Unset.(horizontalSpeed := cfg.horizontalSpeed, heightEpsilon := cfg.heightEpsilon);
      allStates := allStates[Grounded := grounded];
    }

    method ChangeState(newState: PlayerState)
      requires Valid()
      modifies this
      ensures Valid() && Snapshot() == Motion.ChangeState(cfg, old(Snapshot()), newState)
    {
      Exit();
      EnterState(newState);
    }

    method EnterState(s: PlayerState)
      requires Valid()
      modifies this
      ensures Valid() && Snapshot() == Motion.EnterState(cfg, old(Snapshot()), s)
    {
      currentState := s;
      Enter();
    }

    /** currentState.Enter() */
    method Enter()
      requires Valid()
      modifies this
      ensures Valid()
      ensures Snapshot() == old(Snapshot()).(
        v := if currentState == Jump then Velocity(old(velocity).x, cfg.initialJumpVelocity) else old(velocity),
        calls := old(calls) + [Entered(currentState)])
    {
      calls := calls + [Entered(currentState)];
      if currentState == Jump {
        JumpEnter();
      }
    }

    /** currentState.Exit() */
    method Exit()
      requires Valid()
      modifies this
      ensures Valid() && Snapshot() == ExitCurrent(old(Snapshot()))
    {
      calls := calls + [Exited(currentState)];
      if currentState == Jump {
        JumpExit();
      }
    }

    /** JumpState.Enter: launch upward, keep the horizontal velocity. */
    method JumpEnter()
      requires Valid()
      modifies this`velocity
      ensures velocity == Velocity(old(velocity).x, cfg.initialJumpVelocity)
    {
      velocity := Velocity(velocity.x, allStates[Jump].initialJumpVelocity);
    }

    /** JumpState.Exit: stop vertical motion, keep the horizontal velocity. */
    method JumpExit()
      modifies this`velocity
      ensures velocity == Velocity(old(velocity).x, 0.0)
    {
      velocity := Velocity(velocity.x, 0.0);
    }

    /** AirborneState.Move, run by the instance `instance`. */
    method Move(instance: PlayerState, axis: real, dt: real)
      requires Valid()
      modifies this`velocity
      ensures velocity == Integrate(allStates[instance], old(velocity), axis, dt)
    {
      var p := allStates[instance];
      var hVelocity := axis * p.horizontalSpeed;
      var vVelocity := velocity.y - p.gravity * dt;
      if vVelocity < -p.maxFallSpeed {
        vVelocity := p.maxFallSpeed;
      }
      assert Velocity(hVelocity, vVelocity) == Integrate(p, velocity, axis, dt);
      velocity := Velocity(hVelocity, vVelocity);
    }

    function BufferRemaining(instance: PlayerState): (b: real)
      reads this
      ensures b == BufferOf(Snapshot(), instance)
    {
      if instance == Coyote then coyoteBufferRemaining else fallBufferRemaining
    }

    method SetBufferRemaining(instance: PlayerState, b: real)
      modifies this`fallBufferRemaining, this`coyoteBufferRemaining
      ensures Snapshot() == WithBuffer(old(Snapshot()), instance, b)
    {
      if instance == Coyote {
        coyoteBufferRemaining := b;
      } else {
        fallBufferRemaining := b;
      }
    }

    method JumpTick(f: TickInput)
      requires Valid() && currentState == Jump
      modifies this
      ensures Valid() && Snapshot() == JumpStep(cfg, old(Snapshot()), f)
    {
      Move(Jump, f.axis, f.dt);
      if !f.held {
        ChangeState(Fall);
      }
      if velocity.y <= ApexThreshold {
        ChangeState(Fall);
      }
    }

    /** FallState.Tick on the instance `instance` (Fall itself, or Coyote
        through base.Tick()). */
    method FallTick(instance: PlayerState, f: TickInput)
      requires Valid() && (instance == Fall || instance == Coyote) && currentState == instance
      modifies this
      ensures Valid() && Snapshot() == FallStep(cfg, old(Snapshot()), f, instance)
    {
      Move(instance, f.axis, f.dt);
      if f.pressed {
        SetBufferRemaining(instance, allStates[instance].jumpBuffer);
      }
      if f.onGround {
        if BufferRemaining(instance) > 0.0 {
          ChangeState(Jump);
        }
        ChangeState(Grounded);
      }
      SetBufferRemaining(instance, BufferRemaining(instance) - f.dt);
    }

    method CoyoteTick(f: TickInput)
      requires Valid() && currentState == Coyote
      modifies this
      ensures Valid() && Snapshot() == CoyoteStep(cfg, old(Snapshot()), f)
    {
      FallTick(Coyote, f);
      if f.pressed {
        ChangeState(Jump);
      }
    }

    method GroundedTick(f: TickInput)
      requires Valid() && currentState == Grounded
      modifies this
      ensures Valid() && Snapshot() == GroundedStep(cfg, old(Snapshot()), f)
    {
      velocity := Velocity(f.axis * allStates[Grounded].horizontalSpeed, 0.0);
      if !f.onGround {
        ChangeState(Coyote);
      }
      // Debug.Assert(onGround()) only logs; it changes nothing.
      if f.pressed {
        ChangeState(Jump);
      }
    }

    /** Update(): currentState.Tick(). */
    method Update(f: TickInput)
      requires Valid()
      modifies this
      ensures Valid() && Snapshot() == Step(cfg, old(Snapshot()), f)
    {
      match currentState
      case Jump => JumpTick(f);
      case Fall => FallTick(Fall, f);
      case Coyote => CoyoteTick(f);
      case Grounded => GroundedTick(f);
    }
  }
}
