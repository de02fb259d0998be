/**
  The movement state machine of the player character, as values.

  One `Machine` value is everything a tick reads and writes: which of the four
  states is current, the velocity last written to the rigid body, the
  `jumpBufferRemaining` field of the Fall instance and of the Coyote instance,
  and (for the proofs) the list of Exit/Enter calls made so far.  Each function
  below mirrors one piece of Assets/Scripts/Player.cs step by step; the class
  in player.dfy runs the same steps in place and is proved equal to these.
*/
module Motion {

  datatype PlayerState = Jump | Fall | Coyote | Grounded

  /** The tunable fields of the Player component.  `initialJumpVelocity` is
      the value Start() derives from `jumpGravity` and `maxHeight`; it is taken
      here as given. */
  datatype Config = Config(
    jumpBuffer: real,
    coyoteTime: real,
    maxFallSpeed: real,
    jumpGravity: real,
    fallGravity: real,
    maxHeight: real,
    heightEpsilon: real,
    horizontalSpeed: real,
    initialJumpVelocity: real)

  /** The public fields of one state instance (State, AirborneState and the
      leaf classes flattened into one record).  A field InitStates does not
      assign keeps C#'s default, 0. */
  datatype StateParams = StateParams(
    horizontalSpeed: real,
    heightEpsilon: real,
    gravity: real,
    maxFallSpeed: real,
    jumpBuffer: real,
    initialJumpVelocity: real,
    coyoteTime: real)

  const Unset := StateParams(0.0, 0.0, 0.0, 0.0, 0.0, 0.0, 0.0)

  datatype Velocity = Velocity(x: real, y: real)

  /** What the host samples once per tick: the horizontal axis, the jump
      button pressed this tick and held, the ground probe, and the frame time. */
  datatype TickInput = TickInput(axis: real, pressed: bool, held: bool, onGround: bool, dt: real)

  /** One call of a state's Exit or Enter. */
  datatype Call = Exited(state: PlayerState) | Entered(state: PlayerState)

  datatype Machine = Machine(
    current: PlayerState,
    v: Velocity,
    fallBufferRemaining: real,
    coyoteBufferRemaining: real,
    calls: seq<Call>)

  /** Jump hands over to Fall once the vertical velocity is at most this. */
  const ApexThreshold: real := 0.001

  /** The dictionary InitStates fills: one instance per state, each with the
      fields it copies from the Player. */
  function InitialStates(cfg: Config): (states: map<PlayerState, StateParams>)
    ensures states.Keys == {Jump, Fall, Coyote, Grounded}
    ensures forall s :: s in states ==>
      states[s].horizontalSpeed == cfg.horizontalSpeed && states[s].heightEpsilon == cfg.heightEpsilon
    ensures states[Jump].gravity == cfg.jumpGravity && states[Jump].initialJumpVelocity == cfg.initialJumpVelocity
    ensures states[Jump].maxFallSpeed == 0.0 && states[Jump].jumpBuffer == 0.0
    ensures states[Fall].gravity == cfg.fallGravity && states[Fall].maxFallSpeed == cfg.maxFallSpeed
    ensures states[Fall].jumpBuffer == cfg.jumpBuffer
    ensures states[Coyote] == states[Fall].(coyoteTime := cfg.coyoteTime)
    ensures states[Grounded].gravity == 0.0 && states[Grounded].maxFallSpeed == 0.0
  {
    var shared := Unset.(horizontalSpeed := cfg.horizontalSpeed, heightEpsilon := cfg.heightEpsilon);
    var fall := shared.(jumpBuffer := cfg.jumpBuffer, maxFallSpeed := cfg.maxFallSpeed, gravity := cfg.fallGravity);
    map[
      Jump := shared.(gravity := cfg.jumpGravity, initialJumpVelocity := cfg.initialJumpVelocity),
      Fall := fall,
      Coyote := fall.(coyoteTime := cfg.coyoteTime),
      Grounded := shared]
  }

  /** The clamp the name `maxFallSpeed` implies: never fall faster than it. */
  function LimitFall(vy: real, maxFallSpeed: real): (r: real)
  {
    if vy < -maxFallSpeed then -maxFallSpeed else vy
  }

  /** AirborneState.Move on the instance `p`: horizontal velocity straight
      from the axis, vertical velocity integrated under `p.gravity`; a result
      below -maxFallSpeed is replaced by +maxFallSpeed, as the code has it. */
  function Integrate(p: StateParams, v: Velocity, axis: real, dt: real): (r: Velocity)
    ensures r.x == axis * p.horizontalSpeed
    ensures p.maxFallSpeed >= 0.0 ==> r.y >= -p.maxFallSpeed
    ensures v.y - p.gravity * dt >= -p.maxFallSpeed ==> r.y == v.y - p.gravity * dt
    ensures v.y - p.gravity * dt < -p.maxFallSpeed ==> r.y == -LimitFall(v.y - p.gravity * dt, p.maxFallSpeed)
  {
    var vy := v.y - p.gravity * dt;
    Velocity(axis * p.horizontalSpeed, if vy < -p.maxFallSpeed then p.maxFallSpeed else vy)
  }

  function BufferOf(m: Machine, instance: PlayerState): (b: real)
  {
    if instance == Coyote then m.coyoteBufferRemaining else m.fallBufferRemaining
  }

  function WithBuffer(m: Machine, instance: PlayerState, b: real): (r: Machine)
  {
    if instance == Coyote then m.(coyoteBufferRemaining := b) else m.(fallBufferRemaining := b)
  }

  /** Exit() of the current state: only JumpState overrides it. */
  function ExitCurrent(m: Machine): (r: Machine)
    ensures r.calls == m.calls + [Exited(m.current)]
    ensures r.current == m.current && r.v.x == m.v.x
    ensures r.v.y == (if m.current == Jump then 0.0 else m.v.y)
    ensures r.fallBufferRemaining == m.fallBufferRemaining && r.coyoteBufferRemaining == m.coyoteBufferRemaining
  {
    var v := if m.current == Jump then Velocity(m.v.x, 0.0) else m.v;
    m.(v := v, calls := m.calls + [Exited(m.current)])
  }

  /** EnterState(s): make `s` current, then its Enter(); only JumpState
      overrides Enter.  No buffer is touched. */
  function EnterState(cfg: Config, m: Machine, s: PlayerState): (r: Machine)
    ensures r.current == s && r.calls == m.calls + [Entered(s)]
    ensures r.v == (if s == Jump then Velocity(m.v.x, cfg.initialJumpVelocity) else m.v)
    ensures r.fallBufferRemaining == m.fallBufferRemaining && r.coyoteBufferRemaining == m.coyoteBufferRemaining
  {
    var v := if s == Jump then Velocity(m.v.x, InitialStates(cfg)[Jump].initialJumpVelocity) else m.v;
    m.(current := s, v := v, calls := m.calls + [Entered(s)])
  }

  /** ChangeState(s): Exit the state current at this moment, then EnterState. */
  function ChangeState(cfg: Config, m: Machine, s: PlayerState): (r: Machine)
    ensures r.current == s
    ensures r.calls == m.calls + [Exited(m.current), Entered(s)]
    ensures r.v.x == m.v.x
    ensures r.v.y == if s == Jump then cfg.initialJumpVelocity else if m.current == Jump then 0.0 else m.v.y
    ensures r.fallBufferRemaining == m.fallBufferRemaining && r.coyoteBufferRemaining == m.coyoteBufferRemaining
  {
    EnterState(cfg, ExitCurrent(m), s)
  }

  /** Start(): the dictionary is filled and the initial state entered, with
      no Exit before it; both buffers hold C#'s default 0. */
  function Start(cfg: Config, initialState: PlayerState, restVelocity: Velocity): (m: Machine)
    ensures m.current == initialState && m.calls == [Entered(initialState)]
    ensures m.fallBufferRemaining == 0.0 && m.coyoteBufferRemaining == 0.0
    ensures m.v == if initialState == Jump then Velocity(restVelocity.x, cfg.initialJumpVelocity) else restVelocity
  {
    EnterState(cfg, Machine(initialState, restVelocity, 0.0, 0.0, []), initialState)
  }

  /** JumpState.Tick.  Each of its two checks calls ChangeState(Fall); on a
      release the first one's Exit zeroes the velocity, so the second fires
      too and Fall is exited and entered again. */
  function JumpStep(cfg: Config, m: Machine, f: TickInput): (r: Machine)
    requires m.current == Jump
    ensures var y := Integrate(InitialStates(cfg)[Jump], m.v, f.axis, f.dt).y;
      && r.v.x == f.axis * cfg.horizontalSpeed
      && (if !f.held || y <= ApexThreshold then r.current == Fall && r.v.y == 0.0
          else r.current == Jump && r.v.y == y && r.v.y > ApexThreshold)
      && r.calls == m.calls + (if !f.held then [Exited(Jump), Entered(Fall), Exited(Fall), Entered(Fall)]
                               else if y <= ApexThreshold then [Exited(Jump), Entered(Fall)]
                               else [])
    ensures r.fallBufferRemaining == m.fallBufferRemaining && r.coyoteBufferRemaining == m.coyoteBufferRemaining
  {
    var moved := m.(v := Integrate(InitialStates(cfg)[Jump], m.v, f.axis, f.dt));
    var released := if !f.held then ChangeState(cfg, moved, Fall) else moved;
    if released.v.y <= ApexThreshold then ChangeState(cfg, released, Fall) else released
  }

  /** FallState.Tick run by the instance `instance` (Fall, or Coyote through
      base.Tick()).  On the ground a positive buffer enters Jump, and the
      unconditional ChangeState(Grounded) that follows exits Jump again, which
      zeroes the vertical velocity; without a buffer the integrated velocity
      is left as it is. */
  function FallStep(cfg: Config, m: Machine, f: TickInput, instance: PlayerState): (r: Machine)
    requires instance == Fall || instance == Coyote
    requires m.current == instance
    ensures var latched := if f.pressed then cfg.jumpBuffer else BufferOf(m, instance);
      && BufferOf(r, instance) == latched - f.dt
      && r.v.x == f.axis * cfg.horizontalSpeed
      && (if f.onGround then
            r.current == Grounded
            && (if latched > 0.0 then
                  r.v.y == 0.0
                  && r.calls == m.calls + [Exited(instance), Entered(Jump), Exited(Jump), Entered(Grounded)]
                else
                  r.v == Integrate(InitialStates(cfg)[instance], m.v, f.axis, f.dt)
                  && r.calls == m.calls + [Exited(instance), Entered(Grounded)])
          else
            r.current == instance && r.calls == m.calls
            && r.v == Integrate(InitialStates(cfg)[instance], m.v, f.axis, f.dt))
    ensures instance == Fall ==> r.coyoteBufferRemaining == m.coyoteBufferRemaining
    ensures instance == Coyote ==> r.fallBufferRemaining == m.fallBufferRemaining
  {
    var p := InitialStates(cfg)[instance];
    var moved := m.(v := Integrate(p, m.v, f.axis, f.dt));
    var latched := WithBuffer(moved, instance, if f.pressed then p.jumpBuffer else BufferOf(moved, instance));
    var landed :=
      if f.onGround then
        var buffered := if BufferOf(latched, instance) > 0.0 then ChangeState(cfg, latched, Jump) else latched;
        ChangeState(cfg, buffered, Grounded)
      else latched;
    WithBuffer(landed, instance, BufferOf(landed, instance) - f.dt)
  }

  /** CoyoteState.Tick: all of FallState.Tick on the Coyote instance, then a
      press this tick enters Jump from whatever state is current by then.
      `coyoteTime` is never consulted. */
  function CoyoteStep(cfg: Config, m: Machine, f: TickInput): (r: Machine)
    requires m.current == Coyote
    ensures f.pressed ==> r.current == Jump && r.v == Velocity(f.axis * cfg.horizontalSpeed, cfg.initialJumpVelocity)
    ensures !f.pressed && f.onGround ==>
      && r.current == Grounded && r.v.x == f.axis * cfg.horizontalSpeed
      && (if m.coyoteBufferRemaining > 0.0 then r.v.y == 0.0
          else r.v == Integrate(InitialStates(cfg)[Coyote], m.v, f.axis, f.dt))
    ensures var latched := if f.pressed then cfg.jumpBuffer else m.coyoteBufferRemaining;
      r.calls == m.calls
        + (if !f.onGround then []
           else if latched > 0.0 then [Exited(Coyote), Entered(Jump), Exited(Jump), Entered(Grounded)]
           else [Exited(Coyote), Entered(Grounded)])
        + (if f.pressed then [Exited(if f.onGround then Grounded else Coyote), Entered(Jump)] else [])
    ensures !f.pressed && !f.onGround ==>
      r.current == Coyote && r.calls == m.calls && r.v == Integrate(InitialStates(cfg)[Coyote], m.v, f.axis, f.dt)
    ensures r.coyoteBufferRemaining == (if f.pressed then cfg.jumpBuffer else m.coyoteBufferRemaining) - f.dt
    ensures r.fallBufferRemaining == m.fallBufferRemaining
  {
    var fell := FallStep(cfg, m, f, Coyote);
    if f.pressed then ChangeState(cfg, fell, Jump) else fell
  }

  /** GroundedState.Tick.  The Debug.Assert after the ground check only logs
      and has no effect on the state. */
  function GroundedStep(cfg: Config, m: Machine, f: TickInput): (r: Machine)
    requires m.current == Grounded
    ensures r.current == (if f.pressed then Jump else if !f.onGround then Coyote else Grounded)
    ensures r.v == Velocity(f.axis * cfg.horizontalSpeed, if f.pressed then cfg.initialJumpVelocity else 0.0)
    ensures r.calls == m.calls
      + (if !f.onGround then [Exited(Grounded), Entered(Coyote)] else [])
      + (if f.pressed then [Exited(if f.onGround then Grounded else Coyote), Entered(Jump)] else [])
    ensures r.fallBufferRemaining == m.fallBufferRemaining && r.coyoteBufferRemaining == m.coyoteBufferRemaining
  {
    var walked := m.(v := Velocity(f.axis * InitialStates(cfg)[Grounded].horizontalSpeed, 0.0));
    var left := if !f.onGround then ChangeState(cfg, walked, Coyote) else walked;
    if f.pressed then ChangeState(cfg, left, Jump) else left
  }

  /** Player.Update: one Tick of whichever state is current. */
  function Step(cfg: Config, m: Machine, f: TickInput): (r: Machine)
  {
    match m.current
    case Jump => JumpStep(cfg, m, f)
    case Fall => FallStep(cfg, m, f, Fall)
    case Coyote => CoyoteStep(cfg, m, f)
    case Grounded => GroundedStep(cfg, m, f)
  }

  /** Consecutive ticks, first input first; the velocity the physics engine
      leaves between ticks is taken to be the one last written. */
  function Run(cfg: Config, m: Machine, inputs: seq<TickInput>): (r: Machine)
    decreases |inputs|
  {
    if inputs == [] then m else Run(cfg, Step(cfg, m, inputs[0]), inputs[1..])
  }

  /** `cs` is a chain of ChangeState calls that starts with `from` current and
      leaves `to` current: Exited(x), Entered(y) pairs in which every x is the
      state current at that moment. */
  predicate Transitions(from: PlayerState, cs: seq<Call>, to: PlayerState)
    decreases |cs|
  {
    if cs == [] then from == to
    else |cs| >= 2 && cs[0] == Exited(from) && cs[1].Entered? && Transitions(cs[1].state, cs[2..], to)
  }

  /** `after` was reached from `before` by ChangeState calls alone: the calls
      of `before` are kept and the new ones form one Transitions chain. */
  predicate CallsExtend(before: Machine, after: Machine)
  {
    && |before.calls| <= |after.calls|
    && after.calls[..|before.calls|] == before.calls
    && Transitions(before.current, after.calls[|before.calls|..], after.current)
  }

  /** Total frame time of a run of inputs. */
  function Elapsed(inputs: seq<TickInput>): (t: real)
    decreases |inputs|
  {
    if inputs == [] then 0.0 else inputs[0].dt + Elapsed(inputs[1..])
  }

  /** No press and no ground contact on any of these ticks. */
  predicate Drifting(inputs: seq<TickInput>)
  {
    forall i :: 0 <= i < |inputs| ==> !inputs[i].pressed && !inputs[i].onGround
  }
}
