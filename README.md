# Locomotion state machine of a Unity character controller, in Dafny

This project models the core of a third-person character controller written
for Unity in C#:

- the generic finite-state machine (`StateMachine<T>` and `State<T>`,
  Assets/Scripts/FiniteStateMachine.cs);
- the six locomotion states (Idle, Move, Sprint, Jump, Slide, WallRun,
  Assets/Scripts/PlayerStates.cs), whose callbacks call the machine's
  `SetState` re-entrantly, so that one callback can set off a cascade of
  nested transitions;
- the controller's per-frame logic (Assets/Scripts/PlayerController.cs):
  state registration in `Awake`, three-band gravity, drag, the drag
  coefficient refresh, walk/sprint speed, air control, and the jump gate.

The model keeps the source's imperative form. `StateMachine` and `State` are
classes whose methods update the registry, the current-state slot and the
back-references in place. `PlayerController` is a class with the fields the
source reassigns (`speed`, `customDrag`, the machine). The state callbacks are
methods that call `SetState`, which calls them back. The recursion terminates
because each nested `SetState` enters a state of lower rank
(`PlayerStates.Rank`). The machine records every Exit and Enter callback in a
ghost trace.

Each imperative method is proved equal to a pure function that follows the
C# control flow: `PlayerStates.Transition` is `SetState`, and `OnEnter` and
`OnUpdate` are the state callbacks. The lemmas about those functions state
what a cascade means:

- for a fixed move vector and sprint flag it settles on Idle (not moving),
  else Sprint (sprinting), else Move;
- it leaves the walk speed in Move and the sprint speed in Sprint;
- it keeps the protocol: an Exit on the current state, then an Enter on
  the next.

Files:

- `finite_state_machine.dfy`, module `FiniteStateMachine`: the generic machine,
  the `Event` trace and the `Alternates` protocol.
- `controller_rules.dfy`, module `ControllerRules`: the gravity bands, drag,
  drag coefficient, speed choice and air-control scaling, as functions over
  `real`.
- `player_states.dfy`, module `PlayerStates`: state kinds, the cascade
  functions and their lemmas.
- `player_controller.dfy`, module `Player`: the `PlayerController` class with
  `Awake`, `SetState`, the state callbacks, `Update` and `Jump`, and a
  `Rigidbody` reduced to a velocity and a list of queued forces.

C# dispatches `Enter`, `Update` and `Exit` virtually. Here
`PlayerController.StateEnter`, `StateUpdate` and `StateExit` match on the
state's kind. The machine's own part of `SetState` is split into two methods,
`BeginExit` and `Select`, and `PlayerController.SetState` runs the callbacks
between them.

Notes on the code:

- A vertical velocity of exactly `-apexThreshold` is in the falling band,
  because the test at PlayerController.cs:84 is strict.
- Jump returns straight to Idle.
- The code has no Land state, jump queue, velocity clamp or sprint-jump boost.
- Slide and WallRun do nothing.
- On the ground the drag coefficient is 5, so a frame longer than 0.2 s
  makes `customDrag * dt` exceed 1, and drag then reverses the horizontal
  velocity instead of damping it (`ControllerRules.LongGroundFrameReverses`);
  for example, a 0.3 s frame turns a horizontal velocity of 1 into -0.5.

## Model

| member | source | states |
|---|---|---|
| FiniteStateMachine.StateMachine.constructor | Assets/Scripts/FiniteStateMachine.cs:13-17 | A new machine remembers its owner, has an empty registry and no current state. |
| FiniteStateMachine.StateMachine.CheckState | Assets/Scripts/FiniteStateMachine.cs:19-22 | True iff the current state's kind is the queried kind; a current state is required, as the C# dereferences it. |
| FiniteStateMachine.StateMachine.AddState | Assets/Scripts/FiniteStateMachine.cs:31-35 | Binds the state's machine and owner back-references; stores it under its own kind, overwriting an earlier entry of that kind and keeping all other entries; the current slot is untouched. |
| FiniteStateMachine.State.constructor | Assets/Scripts/FiniteStateMachine.cs:50-53 | A new state has its kind and is not yet bound to a machine or an owner. |
| FiniteStateMachine.State.SetState | Assets/Scripts/FiniteStateMachine.cs:56-61 | Binds both back-references and returns the state itself. |
| FiniteStateMachine.StateMachine.BeginExit | Assets/Scripts/FiniteStateMachine.cs:40-41 | Issues Exit on the current state only when there is one, and leaves the slot as it is. |
| FiniteStateMachine.StateMachine.Select | Assets/Scripts/FiniteStateMachine.cs:42-46 | A registered kind becomes current and its Enter is issued. For an unregistered kind, no Enter is issued and the slot keeps the state just exited. |
| FiniteStateMachine.AlternatesAppend | Assets/Scripts/FiniteStateMachine.cs:37-47 | Two runs that keep the Exit-then-Enter protocol keep it when joined, and the state last entered is that of the second run. |
| PlayerStates.Transition | Assets/Scripts/FiniteStateMachine.cs:37-47 | Reference definition of SetState: Exit of the current state, then, only for a registered kind, the switch, its Enter and every transition that Enter sets off. |
| PlayerStates.OnEnter | Assets/Scripts/PlayerStates.cs:15-183 | Reference definition of the six Enter bodies, call for call. |
| PlayerStates.OnUpdate | Assets/Scripts/PlayerStates.cs:23-188 | Reference definition of the six Update bodies; for Jump, the part before the wait. |
| PlayerStates.JumpResume | Assets/Scripts/PlayerStates.cs:135-139 | Reference definition of Jump's continuation: SetState to Idle when grounded, else nothing. |
| PlayerStates.TransitionSettles | Assets/Scripts/PlayerStates.cs:15-110 | A SetState to Idle, Move or Sprint ends in Idle when not moving, else Sprint when sprinting, else Move, however many nested transitions it sets off. |
| PlayerStates.EnterSettles | Assets/Scripts/PlayerStates.cs:15-98 | The Enter of Idle, Move or Sprint ends in that same settled state. |
| PlayerStates.UpdateSettles | Assets/Scripts/PlayerStates.cs:23-110 | One Update of Idle, Move or Sprint ends in that same settled state. |
| PlayerStates.TransitionSpeed | Assets/Scripts/PlayerStates.cs:46-98 | After a SetState that switches state, the speed is the walk speed if the final state is Move and the sprint speed if it is Sprint. |
| PlayerStates.EnterSpeed | Assets/Scripts/PlayerStates.cs:46-98 | Whatever the speed before, an Enter cascade leaves the speed its final state needs. |
| PlayerStates.UpdateKeepsSpeedInStep | Assets/Scripts/PlayerStates.cs:59-110 | An Update keeps the speed in step with the state if it was in step before. |
| PlayerStates.UpdateKeepsSpeed | Assets/Scripts/PlayerStates.cs:59-110 | Move's and Sprint's Update never call UpdateSpeed: when the input asks for no transition, the state and the speed, however stale, are kept. |
| PlayerStates.TransitionAlternates | Assets/Scripts/FiniteStateMachine.cs:37-47 | A SetState to a registered kind, with all its nested transitions, alternates Exit and Enter. Every Exit is on the state entered last, which is the final current state. |
| PlayerStates.EnterAlternates | Assets/Scripts/PlayerStates.cs:15-98 | The same protocol for the transitions an Enter sets off. |
| PlayerStates.UpdateAlternates | Assets/Scripts/PlayerStates.cs:23-110 | The same protocol for the transitions an Update sets off. |
| PlayerStates.EveryKindRegistered | Assets/Scripts/PlayerController.cs:41-46 | The six kinds listed at PlayerController.cs:41-46 (`AllKinds`) are every kind. |
| PlayerStates.QuietStates | Assets/Scripts/PlayerStates.cs:127-193 | Enter of Jump, Slide and WallRun, and the synchronous part of their Update, make no transition and leave the speed alone. |
| PlayerStates.IdleMovesIffMoving | Assets/Scripts/PlayerStates.cs:15-29 | Idle's Enter and Update transition iff the move vector's magnitude is at least 0.1, and then to Move. Otherwise both do nothing. |
| PlayerStates.MoveEnterNotExclusive | Assets/Scripts/PlayerStates.cs:46-57 | Move's two checks are independent. Not moving and sprinting, its Enter goes to Idle, then to Sprint, whose Enter goes back to Idle. The cascade ends in Idle with the sprint speed. |
| PlayerStates.JumpResumeIdleIffGrounded | Assets/Scripts/PlayerStates.cs:132-139 | The continuation of Jump's Update enters Idle iff grounded and otherwise does nothing. |
| PlayerStates.UnregisteredBreaksProtocol | Assets/Scripts/FiniteStateMachine.cs:40-46 | SetState to an unregistered kind exits the current state but leaves it current. The next SetState exits it a second time, which breaks the Exit-then-Enter protocol. |
| ControllerRules.IsMoving | Assets/Scripts/PlayerStates.cs:17 | The `MoveDirection.magnitude >= 0.1f` test of the Idle, Move and Sprint callbacks (also lines 25, 48, 61, 88, 102, negated where the source tests `< 0.1f`), written as a squared magnitude of at least 0.01. |
| ControllerRules.AtRest | Assets/Scripts/PlayerController.cs:102 | The `rb.velocity.magnitude < 0.1f` test of ApplyCustomDrag, on the full 3-D velocity, written as a squared magnitude below 0.01. |
| ControllerRules.Multiplier | Assets/Scripts/PlayerController.cs:82-92 | The multiplier of each band: rising, apex and falling multipliers, as assigned at lines 82, 87 and 92. |
| ControllerRules.PhaseOf | Assets/Scripts/PlayerController.cs:79-93 | Exactly one gravity band: rising iff v > t, apex iff -t < v <= t, falling iff v <= -t and v <= t (that is, v <= -t when t >= 0). |
| ControllerRules.PhaseMonotone | Assets/Scripts/PlayerController.cs:79-93 | The bands are ordered: a higher vertical velocity is never in a lower band. |
| ControllerRules.DefaultFallIsHeaviest | Assets/Scripts/PlayerController.cs:16-93 | With the serialized default values, gravity pulls down in every band: hardest while falling, then rising, lightest at the apex. |
| ControllerRules.GravityForce | Assets/Scripts/PlayerController.cs:74-97 | The gravity acceleration is purely vertical, with y = gravity times the band's multiplier times dt. |
| ControllerRules.Drag | Assets/Scripts/PlayerController.cs:100-110 | Below a 3-D speed of 0.1, x and z become 0. Otherwise x and z are scaled by (1 - drag·dt). y is never changed. |
| ControllerRules.DragDamps | Assets/Scripts/PlayerController.cs:107-108 | With 0 <= drag·dt <= 1, drag never increases a horizontal component's magnitude or flips its sign. |
| ControllerRules.LongGroundFrameReverses | Assets/Scripts/PlayerController.cs:107-108 | With the ground coefficient and a frame longer than 0.2 s, drag flips the sign of every nonzero horizontal component of a velocity that is not at rest. |
| ControllerRules.DragCoefficient | Assets/Scripts/PlayerController.cs:120-127 | Reference definition of the coefficient refresh: 5 when grounded, else 0.4. |
| ControllerRules.SelectSpeed | Assets/Scripts/PlayerController.cs:145 | Reference definition of UpdateSpeed's choice: the sprint speed when sprinting, else the walk speed. |
| ControllerRules.MoveAmount | Assets/Scripts/PlayerController.cs:159-160 | Reference definition of one axis of movement: input times speed, times the air-control fraction when airborne, times dt. |
| ControllerRules.AirControlScales | Assets/Scripts/PlayerController.cs:159-160 | Airborne movement is the grounded movement times the air-control fraction. |
| Player.PlayerController.constructor | Assets/Scripts/PlayerController.cs:16-33 | The serialized values, no input, no machine before Awake. |
| Player.PlayerController.Register | Assets/Scripts/PlayerController.cs:41-46 | One registration line of Awake: a freshly allocated state is stored under the kind and bound to the machine and controller; every other entry keeps its object and stays bound. |
| Player.PlayerController.NewMachine | Assets/Scripts/PlayerController.cs:40-46 | A fresh machine owned by the controller, with all six kinds registered and bound, no current state and an empty trace. |
| Player.PlayerController.Awake | Assets/Scripts/PlayerController.cs:38-47 | Registers the six states, then runs SetState to Idle with no state current. The result is the one `Transition` gives, the state is the settled one, and the speed matches it. The trace keeps the Exit-then-Enter protocol and ends in the current state. |
| Player.PlayerController.UpdateSpeed | Assets/Scripts/PlayerController.cs:143-146 | The speed becomes the sprint speed iff the sprint flag is set, else the walk speed. |
| Player.PlayerController.SetState | Assets/Scripts/FiniteStateMachine.cs:37-47 | The re-entrant transition, with every callback it sets off, does exactly what `Transition` computes: current state, trace and speed. The registry is unchanged. |
| Player.PlayerController.StateEnter | Assets/Scripts/PlayerStates.cs:15-183 | Each state's Enter does exactly what `OnEnter` computes. |
| Player.PlayerController.StateUpdate | Assets/Scripts/PlayerStates.cs:23-188 | Each state's Update does exactly what `OnUpdate` computes. |
| Player.PlayerController.StateExit | Assets/Scripts/PlayerStates.cs:31-34 | Every state's Exit changes nothing. |
| Player.PlayerController.JumpResume | Assets/Scripts/PlayerStates.cs:132-139 | If grounded, the machine transitions to Idle and settles. Otherwise nothing changes. The speed stays in step with the state, and the whole trace keeps the Exit-then-Enter protocol. |
| Player.PlayerController.UpdateMachine | Assets/Scripts/FiniteStateMachine.cs:24-29 | Runs the current state's Update, which requires a current state. A locomotion state settles, the speed stays in step, and the whole trace since Awake keeps the Exit-then-Enter protocol, ending in the current state. |
| Player.PlayerController.ApplyCustomGravity | Assets/Scripts/PlayerController.cs:74-98 | Queues the band's gravity as an acceleration. |
| Player.PlayerController.ApplyCustomDrag | Assets/Scripts/PlayerController.cs:100-110 | Overwrites the velocity with its dragged value, using the current drag coefficient. |
| Player.PlayerController.Move | Assets/Scripts/PlayerController.cs:148-171 | Queues two velocity changes: input y times the speed, air factor and dt along the camera forward, then input x times the same along the camera right. |
| Player.PlayerController.ApplyPhysics | Assets/Scripts/PlayerController.cs:117-127 | Gravity from the old velocity, drag with the old coefficient, movement, in that order, then the coefficient becomes 5 when grounded, else 0.4. |
| Player.PlayerController.Update | Assets/Scripts/PlayerController.cs:113-130 | In order: the machine update, gravity from the old velocity, drag with the old coefficient, then movement with the new speed. Finally the coefficient becomes 5 when grounded, else 0.4. The trace protocol is kept. |
| Player.PlayerController.Jump | Assets/Scripts/PlayerController.cs:173-180 | In the air, nothing changes and the press is dropped. Grounded, the machine exits the current state and enters Jump, and only then the upward impulse of the jump force is queued. The trace protocol is kept. |

## Left out

- Jump's `Update` is `async` and waits 200 ms with `Task.Delay`. The model
  keeps only the continuation, `PlayerController.JumpResume`, as a separate
  step. It does not model when the continuation runs or how many are
  pending: one starts on every frame while Jump is current.
- Unity's physics is reduced to a velocity and a list of queued forces.
  `AddForce` only queues a force, as Unity applies it at the next physics
  step, so its effect on the velocity is not modelled.
- The `IsGrounded` raycast is the `grounded` parameter, one value per frame.
  The source casts it up to three times a frame. `CloseToWall` is never
  called and is not part of this model.
- The frame time `Time.deltaTime` and the camera's forward and right vectors
  are parameters.
- Move's flattening and normalising of the camera forward is not modelled.
  Neither is its model rotation (`Quaternion.LookRotation`, `Slerp`): that is
  quaternion arithmetic.
- Player.PlayerController.Move: the rotation after the two impulses is not
  modelled (see above), so its contract covers the impulses only.
- The input-system subscriptions (PlayerController.cs:48-69) are left out.
  `moveDirection` and `isSprinting` are fields that outside code sets.
- The states' `Animator` fields and every `Debug.Log` are left out.
- Single-precision floating point is not modelled; values are `real`. The
  0.1 magnitude tests are written as squared magnitudes against 0.01.
- FiniteStateMachine.StateMachine.CheckState and
  Player.PlayerController.UpdateMachine require a current state. The C#
  dereferences it unconditionally; line 28 sits outside the `if` of line 26.
  The model excludes that call instead of modelling the exception.
- The registry is keyed by a `Kind` datatype rather than the state's
  runtime type, one kind per concrete state class.
- Assets/Scripts/PlayerCamera.cs and Assets/Scripts/PlayerMovement.cs are not
  part of this model. The first is camera transform arithmetic; the second
  is an earlier prototype, not referenced by the other scripts.
