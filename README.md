# Player movement state machine

A model of the movement controller of the player character in
`Assets/Scripts/Player.cs` (Smart Moon Adventure, a Unity 2D platformer).
The Player component holds one instance each of four states, Jump, Fall,
Coyote and Grounded. Once per frame it runs the current state's `Tick`. A
tick writes the rigid body's velocity. It may also call `ChangeState` one or
more times. Each call exits the state that is current *at that moment*, makes
the new state current and enters it.

- `motion.dfy` (module `Motion`) describes the machine as values. A `Machine`
  holds the current state, the velocity, the `jumpBufferRemaining` field of
  the Fall instance and of the Coyote instance, and the list of `Exit`/`Enter`
  calls made so far. `InitialStates` is the dictionary `InitStates` fills.
  `Integrate` is `AirborneState.Move`. `ExitCurrent`, `EnterState` and
  `ChangeState` are the transition dispatch. `JumpStep`, `FallStep`,
  `CoyoteStep` and `GroundedStep` are the four `Tick` overrides. `Step` is
  `Update` and `Run` chains ticks.
- `player.dfy` (module `PlayerController`) is class `Player`. It has the same
  fields, updated in place by methods that follow the C# statement by
  statement. Each method is proved to leave the state equal to the
  matching `Motion` function applied to the old state.
- `properties.dfy` (module `MotionProperties`) holds the lemmas: the fall-speed
  bound, the Exit/Enter ordering over any run of ticks, that Coyote never
  expires, how the buffer drains, that `coyoteTime` is never read, and some
  scenarios.

Where the code departs from what it evidently intends, the
model follows the code:

- Falling speed is clamped to `+maxFallSpeed`, not `-maxFallSpeed`. A fall
  faster than the cap therefore turns into a rise (`MoveAgreesWithLimitIff`).
- The Jump instance is never given a `maxFallSpeed`, so its cap is 0. In
  Jump every downward integrated velocity becomes 0 (`JumpMoveNeverDescends`).
  Even so, for a non-negative `maxFallSpeed` and `initialJumpVelocity`, no
  tick ever ends with a downward speed above `maxFallSpeed`
  (`StepBoundsFallSpeed`, `RunBoundsFallSpeed`).
- `jumpBufferRemaining` is not reset when a state is entered. It drains by
  `dt` on every Fall or Coyote tick, below zero if need be
  (`FallBufferDrains`).
- When Fall lands, a positive buffer makes it enter Jump and then, in the
  same tick, Grounded. Exiting Jump zeroes the vertical velocity. Without a
  buffer the tick still ends in Grounded, but it keeps the velocity `Move`
  just computed. In both cases the tick ends in Grounded (`Motion.FallStep`).
- Releasing the button in Jump calls `ChangeState(Fall)` twice: Jump's
  `Exit` zeroes the velocity, so the apex check fires as well
  (`Motion.JumpStep`).
- A tick with `dt = 0` is not idle (`ZeroTimeTickIsNotIdle`).
- `coyoteTime` is never read, so Coyote only ends on a press or on landing
  (`CoyoteNeverExpires`, `StepIgnoresCoyoteTime`).

## Model

| member | source | states |
|---|---|---|
| `Motion.InitialStates` | Assets/Scripts/Player.cs:68-101 | one instance per state; every instance gets `horizontalSpeed` and `heightEpsilon`; Jump gets `jumpGravity` and `initialJumpVelocity`, while its inherited `maxFallSpeed` is never assigned and stays 0; Fall gets `fallGravity`, `maxFallSpeed` and `jumpBuffer`; Coyote is Fall plus `coyoteTime`; Grounded gets only the shared fields. Fields a class does not have (Jump's `jumpBuffer`, Grounded's `gravity` and `maxFallSpeed`) are the flattened record's zero defaults and are never read |
| `PlayerController.Player.InitStates` | Assets/Scripts/Player.cs:68-101 | from an empty dictionary (`Add` throws on a duplicate key), fills `allStates` with exactly `InitialStates(cfg)` and changes nothing else |
| `PlayerController.Player.Start` | Assets/Scripts/Player.cs:37-50 | after construction the dictionary is filled, the initial state is current and was entered once with no `Exit` before it, and both buffers are 0 |
| `Motion.Start` | Assets/Scripts/Player.cs:47-49 | the initial entry records exactly `[Entered(initialState)]`, with no `Exit`; Jump as the initial state launches at `initialJumpVelocity` |
| `Motion.ExitCurrent` | Assets/Scripts/Player.cs:246-250 | `Exit` records the state that is current, keeps it current and keeps the horizontal velocity; only Jump zeroes the vertical velocity |
| `PlayerController.Player.Exit` | Assets/Scripts/Player.cs:61 | `currentState.Exit()` leaves the state equal to `ExitCurrent` of the old state |
| `Motion.EnterState` | Assets/Scripts/Player.cs:109-114 | the new state becomes current and then is entered; only Jump changes the velocity (vertical set to `initialJumpVelocity`, horizontal kept); no buffer is reset |
| `PlayerController.Player.EnterState` | Assets/Scripts/Player.cs:109-114 | reassigns `currentState`, then calls its `Enter`, leaving the state equal to `Motion.EnterState` |
| `PlayerController.Player.Enter` | Assets/Scripts/Player.cs:113 | `currentState.Enter()`: records the entry; only Jump sets the vertical velocity to `initialJumpVelocity` |
| `Motion.ChangeState` | Assets/Scripts/Player.cs:59-65 | records `Exited(old current)` and then `Entered(new)`; exactly the new state is current; horizontal velocity and both buffers unchanged; vertical velocity is `initialJumpVelocity` when entering Jump, 0 when leaving Jump, otherwise unchanged |
| `PlayerController.Player.ChangeState` | Assets/Scripts/Player.cs:59-65 | exits the current state before `currentState` is reassigned, then enters the new one (`Motion.ChangeState`) |
| `PlayerController.Player.JumpEnter` | Assets/Scripts/Player.cs:225-229 | vertical velocity becomes `initialJumpVelocity`; horizontal velocity kept |
| `PlayerController.Player.JumpExit` | Assets/Scripts/Player.cs:246-250 | vertical velocity becomes 0; horizontal velocity kept |
| `Motion.Integrate` | Assets/Scripts/Player.cs:208-218 | horizontal velocity is `axis * horizontalSpeed`; vertical is `v.y - gravity*dt` unless that is below `-maxFallSpeed`, when it is `+maxFallSpeed`, the negation of the intended clamp; with a non-negative cap it never falls faster than the cap |
| `PlayerController.Player.Move` | Assets/Scripts/Player.cs:208-218 | writes exactly `Integrate` of the running instance's parameters to the velocity |
| `MotionProperties.MoveAgreesWithLimitIff` | Assets/Scripts/Player.cs:212-215 | `Move` equals the intended clamp `max(v, -maxFallSpeed)` if and only if the clamp does not fire or the cap is 0; when it fires with a positive cap the result points upward |
| `MotionProperties.JumpMoveNeverDescends` | Assets/Scripts/Player.cs:70-76 | since Jump's `maxFallSpeed` is never assigned, `Move` in Jump gives `max(v.y - jumpGravity*dt, 0)`, never a downward velocity |
| `Motion.JumpStep` | Assets/Scripts/Player.cs:231-244 | not held, or integrated vertical velocity at most 0.001: the tick ends in Fall with vertical velocity 0; otherwise it stays in Jump with the integrated velocity, which is above 0.001; on release the calls are Exit Jump, Enter Fall, Exit Fall, Enter Fall |
| `PlayerController.Player.JumpTick` | Assets/Scripts/Player.cs:231-244 | the in-place tick ends in the state `JumpStep` describes |
| `Motion.FallStep` | Assets/Scripts/Player.cs:264-283 | a press latches `jumpBuffer`; the instance's buffer then drops by `dt`; off the ground it stays with the integrated velocity and no calls; on the ground it always ends in Grounded, and with a positive latched buffer it passes through Jump, whose `Exit` zeroes the vertical velocity; the other instance's buffer is untouched |
| `PlayerController.Player.FallTick` | Assets/Scripts/Player.cs:264-283 | the in-place tick of the Fall or Coyote instance ends in the state `FallStep` describes |
| `Motion.CoyoteStep` | Assets/Scripts/Player.cs:300-307 | runs Fall's tick on the Coyote buffer: a press latches `jumpBuffer`, and the buffer then drops by `dt`; a press ends in Jump at `(axis*horizontalSpeed, initialJumpVelocity)` even when the ground check had already moved to Grounded; with no press and no ground it stays Coyote with the integrated velocity; with no press on the ground it ends in Grounded, with vertical velocity 0 after a positive buffer and the integrated velocity otherwise; the calls are Fall's landing sequence followed by one more Exit/Enter Jump pair on a press |
| `PlayerController.Player.CoyoteTick` | Assets/Scripts/Player.cs:300-307 | the in-place tick ends in the state `CoyoteStep` describes |
| `Motion.GroundedStep` | Assets/Scripts/Player.cs:323-340 | velocity `(axis*horizontalSpeed, 0)`; no ground: Coyote; a press: Jump with vertical velocity `initialJumpVelocity`, taking precedence over Coyote; ground and no press: stays Grounded; the calls are exactly those two optional transitions |
| `PlayerController.Player.GroundedTick` | Assets/Scripts/Player.cs:323-340 | the in-place tick ends in the state `GroundedStep` describes |
| `PlayerController.Player.Update` | Assets/Scripts/Player.cs:52-55 | one frame runs the current state's `Tick` and nothing else (`Motion.Step`) |
| `MotionProperties.StepBoundsFallSpeed` | Assets/Scripts/Player.cs:208-218 | with a non-negative cap and jump velocity, every tick from any state ends with vertical velocity at least `-maxFallSpeed` |
| `MotionProperties.RunBoundsFallSpeed` | Assets/Scripts/Player.cs:52-55 | the same bound holds after any non-empty run of ticks, for any gravities and frame times |
| `MotionProperties.StepRecordsTransitions` | Assets/Scripts/Player.cs:59-65 | a tick only appends calls, and they form a chain of Exit/Enter pairs in which each `Exit` names the state current at that moment, leading from the state before the tick to the state after it |
| `MotionProperties.CoyoteRecordsTransitions` | Assets/Scripts/Player.cs:300-307 | the same for Coyote's tick, including its third transition after Fall's two |
| `MotionProperties.RunRecordsTransitions` | Assets/Scripts/Player.cs:109-114 | over any run of ticks the calls form one unbroken Exit/Enter chain from the first current state to the last |
| `MotionProperties.CoyoteNeverExpires` | Assets/Scripts/Player.cs:291-307 | with no press and no ground contact, Coyote stays current for any number of ticks of any length |
| `MotionProperties.CoyoteJumpAfterAnyDelay` | Assets/Scripts/Player.cs:329-339 | walking off a ledge from Grounded enters Coyote, and a press any number of airborne ticks later ends in Jump at `initialJumpVelocity` |
| `MotionProperties.FallBufferDrains` | Assets/Scripts/Player.cs:282 | in Fall with no press and no ground, the state stays Fall and the buffer equals its starting value minus the total elapsed time, going negative without limit |
| `MotionProperties.StepIgnoresCoyoteTime` | Assets/Scripts/Player.cs:293 | a tick's result does not depend on `coyoteTime` |
| `MotionProperties.RunIgnoresCoyoteTime` | Assets/Scripts/Player.cs:87-95 | no run of ticks depends on `coyoteTime` |
| `MotionProperties.GroundedJumpFromRest` | Assets/Scripts/Player.cs:336-339 | Grounded with axis 0 and a press on the ground: Jump with velocity `(0, initialJumpVelocity)`, through one Exit Grounded/Enter Jump pair |
| `MotionProperties.ZeroTimeTickIsNotIdle` | Assets/Scripts/Player.cs:235-238 | a tick with `dt = 0` can still change the machine: a release in Jump moves to Fall, and Grounded zeroes a non-zero vertical velocity |

## Left out

- `Mathf.Sqrt(jumpGravity * maxHeight)` (Player.cs:43): `initialJumpVelocity` is a configuration value. Floats are modelled as `real`, without IEEE rounding, NaN or signed zero.
- The ground probe `onGround` (`Physics2D.BoxCast` and the editor-only `Debug.DrawRay` drawing, Player.cs:157-183): it is one boolean per tick. Physics does not run during a tick, so the two calls in Grounded's tick see the same value.
- Unity input and time (`Input.GetAxisRaw`, `GetButton`, `GetButtonDown`, `Time.deltaTime`): they are the fields of `TickInput`, sampled once per tick.
- The physics engine between ticks: `Run` assumes the velocity a tick writes is still there at the next tick. Collision response is not modelled. `gravityScale = 0` (Player.cs:44) is what makes this hold for gravity.
- `Debug.Log` (Player.cs:63) and `Debug.Assert` (Player.cs:334): Unity's assert only logs, so both are no-ops.
- `ScriptableObject.CreateInstance` and the component lookups in `State.Initialize` (Player.cs:131-140), `Animator`, and the unused `Direction` enum: engine wiring with no effect on motion. The state instances are the entries of `allStates` plus the two buffer fields.
- `Assets/Scripts/UnitySingleton.cs` is not part of this model. It is a lazily created global instance that has nothing to do with motion.
- `currentState` is `null` before `Start` runs. The model starts from the constructor, so `Update` before `Start` is not modelled.
