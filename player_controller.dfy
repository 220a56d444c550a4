/**
  The movement controller of Assets/Scripts/PlayerController.cs, with the
  callbacks of the concrete states of Assets/Scripts/PlayerStates.cs.

  The controller owns the state machine and is the `owner` every state reads
  and writes. C# dispatches Enter/Update/Exit virtually on the state object;
  here StateEnter/StateUpdate/StateExit dispatch on the state's kind, and
  SetState drives the machine's two bookkeeping halves around them. The
  callbacks call SetState re-entrantly, exactly as the C# states do; the
  mutual recursion terminates because each nested SetState enters a state of
  lower `PlayerStates.Rank`.

  Unity's physics is reduced to a Rigidbody object holding the velocity the
  controller overwrites and the list of forces it queues with AddForce (Unity
  applies them at the next physics step, not during this tick). Raycasts,
  the frame time and the camera's basis vectors are parameters.
*/
module Player {
  import FSM = FiniteStateMachine
  import opened ControllerRules
  import opened PlayerStates

  datatype ForceMode = Force | Acceleration | Impulse | VelocityChange

  datatype AppliedForce = AppliedForce(force: Vec3, mode: ForceMode)

  /** The part of a Unity Rigidbody the controller touches. */
  class Rigidbody {
    var velocity: Vec3
    var forces: seq<AppliedForce>

    constructor (velocity: Vec3)
      ensures this.velocity == velocity && forces == []
    {
      this.velocity := velocity;
      forces := [];
    }

    /** Rigidbody.AddForce: queues the force; the velocity is not changed until the physics step. */
    method AddForce(f: Vec3, mode: ForceMode)
      modifies this`forces
      ensures forces == old(forces) + [AppliedForce(f, mode)]
    {
      forces := forces + [AppliedForce(f, mode)];
    }
  }

  class PlayerController {
    const settings: Settings
    const rb: Rigidbody
    var speed: real
    var customDrag: real
    var moveDirection: Vec2
    var isSprinting: bool
    var machine: FSM.StateMachine?<Kind, PlayerController>
    /** The machine's current state at the moment each force was queued, in order. */
    ghost var stateAtForce: seq<FSM.Option<Kind>>

    /** What the states read from their owner. */
    function View(): OwnerView
      reads this`moveDirection, this`isSprinting
    {
      OwnerView(IsMoving(moveDirection), isSprinting, settings)
    }

    function CurrentKind(): FSM.Option<Kind>
      reads this`machine, machine`current
      requires machine != null
    {
      if machine.current == null then FSM.None else FSM.Some(machine.current.kind)
    }

    /** The machine, if Awake has created it, as a set for frame expressions. */
    ghost function Machines(): set<FSM.StateMachine<Kind, PlayerController>>
      reads this`machine
    {
      if machine == null then {} else {machine}
    }

    /** The registry Awake builds: one state per kind, each stored under its own
        kind and bound to this machine and this owner; a current state, if any,
        is the registered instance of its kind. */
    ghost predicate Registered()
      reads this`machine, Machines()`states, Machines()`current, if machine == null then {} else machine.states.Values
    {
      && machine != null
      && machine.owner == this
      && (forall k: Kind :: k in machine.states)
      && (forall k :: k in machine.states ==>
            machine.states[k].kind == k && machine.states[k].machine == machine && machine.states[k].owner == FSM.Some(this))
      && (machine.current != null ==> machine.current.kind in machine.states && machine.states[machine.current.kind] == machine.current)
    }

    /** Registered, a current state exists (as it does from Awake on), and the
        whole lifecycle trace since Awake keeps the Exit-then-Enter protocol,
        ending in the state that is current. */
    ghost predicate Valid()
      reads this`machine, Machines()`states, Machines()`current, Machines()`trace
      reads if machine == null then {} else machine.states.Values
    {
      && Registered() && machine.current != null
      && FSM.Alternates(FSM.None, machine.trace)
      && FSM.LastEntered(FSM.None, machine.trace) == CurrentKind()
    }

    /** The component as Unity creates it, before Awake: the serialized values, no input, no machine. */
    constructor (settings: Settings, rb: Rigidbody)
      ensures this.settings == settings && this.rb == rb && machine == null
      ensures speed == settings.initialSpeed && customDrag == settings.initialDrag
      ensures moveDirection == Zero2 && !isSprinting && stateAtForce == []
    {
      this.settings := settings;
      this.rb := rb;
      speed := settings.initialSpeed;
      customDrag := settings.initialDrag;
      moveDirection := Zero2;
      isSprinting := false;
      machine := null;
      stateAtForce := [];
    }

    /** Every registered state is stored under its own kind and bound to `sm` and to this controller. */
    ghost predicate BoundTo(sm: FSM.StateMachine<Kind, PlayerController>)
      reads sm, sm.states.Values
    {
      forall k :: k in sm.states ==>
        sm.states[k].kind == k && sm.states[k].machine == sm && sm.states[k].owner == FSM.Some(this)
    }

    /** One line of Awake: AddState(new State of kind `k`). */
    method Register(sm: FSM.StateMachine<Kind, PlayerController>, k: Kind)
      requires sm.owner == this && BoundTo(sm)
      modifies sm`states
      ensures BoundTo(sm) && sm.states.Keys == old(sm.states.Keys) + {k}
      ensures k in sm.states && forall j :: j in old(sm.states) ==> j in sm.states
      ensures fresh(sm.states[k]) && sm.states == old(sm.states)[k := sm.states[k]]
      ensures sm.current == old(sm.current) && sm.trace == old(sm.trace)
    {
      var s := new FSM.State<Kind, PlayerController>(k);
      sm.AddState(s);
    }

    /** The registry half of Awake: a new machine owned by this controller with
        the six states registered, in the order the source registers them. */
    method NewMachine() returns (sm: FSM.StateMachine<Kind, PlayerController>)
      ensures fresh(sm) && sm.owner == this && sm.current == null && sm.trace == []
      ensures (forall k: Kind :: k in sm.states) && BoundTo(sm)
    {
      sm := new FSM.StateMachine<Kind, PlayerController>(this);
      Register(sm, Kind.Idle);
      Register(sm, Kind.Move);
      Register(sm, Kind.Jump);
      Register(sm, Kind.Slide);
      Register(sm, Kind.Sprint);
      Register(sm, Kind.WallRun);
      forall k: Kind
        ensures k in sm.states
      {
        match k
        case Idle => case Move => case Sprint => case Jump => case Slide => case WallRun =>
      }
    }

    /** Awake: the six states registered, then a transition to Idle (whose Enter
        may already move on), from no current state. */
    method Awake()
      modifies this`machine, this`speed
      ensures Valid() && fresh(machine)
      ensures var o := Transition(FSM.None, Kind.Idle, View(), AllKinds, old(speed));
        CurrentKind() == o.current && machine.trace == o.events && speed == o.speed
      ensures CurrentKind() == FSM.Some(Settled(View()))
      ensures SpeedMatches(CurrentKind(), speed, settings)
    {
      machine := NewMachine();
      assert Registered() && CurrentKind() == FSM.None;
      SetState(Kind.Idle);
      ghost var o := Transition(FSM.None, Kind.Idle, View(), AllKinds, old(speed));
      assert [] + o.events == o.events;
      assert machine.trace == o.events && CurrentKind() == o.current;
      TransitionSettles(FSM.None, Kind.Idle, View(), AllKinds, old(speed));
      TransitionSpeed(FSM.None, Kind.Idle, View(), AllKinds, old(speed));
      TransitionAlternates(FSM.None, Kind.Idle, View(), AllKinds, old(speed));
      assert FSM.Alternates(FSM.None, machine.trace) && FSM.LastEntered(FSM.None, machine.trace) == CurrentKind();
    }

    /** UpdateSpeed: the sprint speed while the sprint flag is set, else the walk speed. */
    method UpdateSpeed()
      modifies this`speed
      ensures speed == SelectSpeed(isSprinting, settings)
      ensures isSprinting ==> speed == settings.sprintSpeed
      ensures !isSprinting ==> speed == settings.walkSpeed
    {
      speed := if isSprinting then settings.sprintSpeed else settings.walkSpeed;
    }

    // ------------------------------------------------------------ transitions

    /** StateMachine.SetState: Exit on the current state, then, the kind being
        registered, the switch and the Enter of the new state, with every
        transition that Enter sets off. */
    method SetState(k: Kind)
      requires Registered()
      modifies machine`current, machine`trace, this`speed
      ensures Registered()
      ensures var o := Transition(old(CurrentKind()), k, View(), AllKinds, old(speed));
        CurrentKind() == o.current && machine.trace == old(machine.trace) + o.events && speed == o.speed
      ensures machine.current != null
      ensures machine == old(machine) && machine.states == old(machine.states)
      decreases Rank(k, View()), 1
    {
      ghost var cur := CurrentKind();
      ghost var before := machine.trace;
      var leaving := machine.BeginExit();
      if leaving != null {
        StateExit(leaving.kind);
      }
      assert machine.trace == before + ExitOf(cur);
      EveryKindRegistered(k);
      var entering := machine.Select(k);
      assert entering == machine.current != null;
      assert machine.trace == before + ExitOf(cur) + [FSM.Enter(k)];
      if entering != null {
        StateEnter(k);
      }
      TransitionUnfolds(before, cur, k, View(), AllKinds, old(speed));
    }

    /** The Exit callback of every state: it does nothing. */
    method StateExit(k: Kind)
      ensures unchanged(this)
    {
    }

    /** The Enter callback of the state of kind `k`, running while `k` is current. */
    method StateEnter(k: Kind)
      requires Registered() && CurrentKind() == FSM.Some(k)
      modifies machine`current, machine`trace, this`speed
      ensures Registered()
      ensures var o := OnEnter(k, View(), AllKinds, old(speed));
        CurrentKind() == o.current && machine.trace == old(machine.trace) + o.events && speed == o.speed
      ensures machine.current != null
      decreases Rank(k, View()), 0
    {
      match k
      case Idle =>
        if IsMoving(moveDirection) {
          SetState(Kind.Move);
        }
      case Move =>
        if !IsMoving(moveDirection) {
          SetState(Kind.Idle);
        }
        if isSprinting {
          SetState(Kind.Sprint);
        } else {
          UpdateSpeed();
        }
      case Sprint =>
        if !IsMoving(moveDirection) {
          SetState(Kind.Idle);
        }
        if !isSprinting {
          SetState(Kind.Move);
        } else {
          UpdateSpeed();
        }
      case Jump =>
      case Slide =>
      case WallRun =>
    }

    /** The Update callback of the state of kind `k`, running while `k` is
        current. Jump's Update only starts its 200 ms wait here; what follows
        the wait is JumpResume. */
    method StateUpdate(k: Kind)
      requires Registered() && CurrentKind() == FSM.Some(k)
      modifies machine`current, machine`trace, this`speed
      ensures Registered()
      ensures var o := OnUpdate(k, View(), AllKinds, old(speed));
        CurrentKind() == o.current && machine.trace == old(machine.trace) + o.events && speed == o.speed
      ensures machine.current != null
    {
      match k
      case Idle =>
        if IsMoving(moveDirection) {
          SetState(Kind.Move);
        }
      case Move =>
        if !IsMoving(moveDirection) {
          SetState(Kind.Idle);
        }
        if isSprinting {
          SetState(Kind.Sprint);
        }
      case Sprint =>
        if !IsMoving(moveDirection) {
          SetState(Kind.Idle);
        }
        if !isSprinting {
          SetState(Kind.Move);
        }
      case Jump =>
      case Slide =>
      case WallRun =>
    }

    /** The continuation of Jump's Update after its wait: back to Idle if the
        character is grounded by then, whatever state is current. */
    method JumpResume(grounded: bool)
      requires Valid()
      modifies machine`current, machine`trace, this`speed
      ensures Valid()
      ensures var o := PlayerStates.JumpResume(old(CurrentKind()), grounded, View(), AllKinds, old(speed));
        CurrentKind() == o.current && machine.trace == old(machine.trace) + o.events && speed == o.speed
      ensures !grounded ==> CurrentKind() == old(CurrentKind()) && machine.trace == old(machine.trace)
      ensures grounded ==> CurrentKind() == FSM.Some(Settled(View()))
      ensures SpeedMatches(old(CurrentKind()), old(speed), settings) ==> SpeedMatches(CurrentKind(), speed, settings)
    {
      if grounded {
        ghost var before := machine.trace;
        SetState(Kind.Idle);
        TransitionSettles(old(CurrentKind()), Kind.Idle, View(), AllKinds, old(speed));
        TransitionSpeed(old(CurrentKind()), Kind.Idle, View(), AllKinds, old(speed));
        TransitionAlternates(old(CurrentKind()), Kind.Idle, View(), AllKinds, old(speed));
        FSM.AlternatesAppend(FSM.None, before, Transition(old(CurrentKind()), Kind.Idle, View(), AllKinds, old(speed)).events);
      }
    }

    /** StateMachine.Update: the current state's Update. The C# method logs the
        current state's type outside its null check, so a current state is
        required. */
    method UpdateMachine()
      requires Valid()
      modifies machine`current, machine`trace, this`speed
      ensures Valid()
      ensures var o := OnUpdate(old(CurrentKind()).value, View(), AllKinds, old(speed));
        CurrentKind() == o.current && machine.trace == old(machine.trace) + o.events && speed == o.speed
      ensures old(CurrentKind()).value in Locomotion ==> CurrentKind() == FSM.Some(Settled(View()))
      ensures SpeedMatches(old(CurrentKind()), old(speed), settings) ==> SpeedMatches(CurrentKind(), speed, settings)
    {
      var k := machine.current.kind;
      ghost var before := machine.trace;
      StateUpdate(k);
      UpdateAlternates(k, View(), AllKinds, old(speed));
      FSM.AlternatesAppend(FSM.None, before, OnUpdate(k, View(), AllKinds, old(speed)).events);
      if k in Locomotion {
        UpdateSettles(k, View(), AllKinds, old(speed));
      }
      if SpeedMatches(old(CurrentKind()), old(speed), settings) {
        UpdateKeepsSpeedInStep(k, View(), AllKinds, old(speed));
      }
    }

    // ---------------------------------------------------------------- physics

    /** Queues a force on the rigidbody, noting the state current at that moment. */
    method ApplyForce(f: Vec3, mode: ForceMode)
      requires machine != null
      modifies rb`forces, this`stateAtForce
      ensures rb.forces == old(rb.forces) + [AppliedForce(f, mode)]
      ensures stateAtForce == old(stateAtForce) + [CurrentKind()]
    {
      rb.AddForce(f, mode);
      stateAtForce := stateAtForce + [CurrentKind()];
    }

    /** ApplyCustomGravity: a vertical acceleration whose multiplier depends on
        the band the vertical velocity is in. */
    method ApplyCustomGravity(dt: real)
      requires machine != null
      modifies rb`forces, this`stateAtForce
      ensures rb.forces == old(rb.forces) + [AppliedForce(GravityForce(rb.velocity.y, settings, dt), Acceleration)]
      ensures stateAtForce == old(stateAtForce) + [CurrentKind()]
    {
      ApplyForce(GravityForce(rb.velocity.y, settings, dt), Acceleration);
    }

    /** ApplyCustomDrag: overwrites the velocity with its dragged value, using the current drag coefficient. */
    method ApplyCustomDrag(dt: real)
      modifies rb`velocity
      ensures rb.velocity == Drag(old(rb.velocity), customDrag, dt)
    {
      rb.velocity := Drag(rb.velocity, customDrag, dt);
    }

    /** Move (without the model rotation): two velocity changes, along the
        flattened camera forward for the input's y and along the camera right
        for the input's x, scaled by the speed, the air-control fraction when
        airborne, and the frame time. */
    method Move(direction: Vec2, grounded: bool, dt: real, frontCam: Vec3, camRight: Vec3)
      requires machine != null
      modifies rb`forces, this`stateAtForce
      ensures rb.forces == old(rb.forces) + [
        AppliedForce(Scale(frontCam, MoveAmount(direction.y, speed, grounded, settings, dt)), VelocityChange),
        AppliedForce(Scale(camRight, MoveAmount(direction.x, speed, grounded, settings, dt)), VelocityChange)]
      ensures stateAtForce == old(stateAtForce) + [CurrentKind(), CurrentKind()]
    {
      var moveX := MoveAmount(direction.y, speed, grounded, settings, dt);
      var moveZ := MoveAmount(direction.x, speed, grounded, settings, dt);
      ApplyForce(Scale(frontCam, moveX), VelocityChange);
      ApplyForce(Scale(camRight, moveZ), VelocityChange);
    }

    /** The rest of Update after the state machine: gravity, drag and movement,
        and last the drag coefficient for the next frame. */
    method ApplyPhysics(grounded: bool, dt: real, frontCam: Vec3, camRight: Vec3)
      requires machine != null
      modifies this`customDrag, this`stateAtForce, rb`velocity, rb`forces
      ensures rb.velocity == Drag(old(rb.velocity), old(customDrag), dt)
      ensures rb.forces == old(rb.forces) + [
        AppliedForce(GravityForce(old(rb.velocity).y, settings, dt), Acceleration),
        AppliedForce(Scale(frontCam, MoveAmount(moveDirection.y, speed, grounded, settings, dt)), VelocityChange),
        AppliedForce(Scale(camRight, MoveAmount(moveDirection.x, speed, grounded, settings, dt)), VelocityChange)]
      ensures stateAtForce == old(stateAtForce) + [CurrentKind(), CurrentKind(), CurrentKind()]
      ensures customDrag == DragCoefficient(grounded)
    {
      ApplyCustomGravity(dt);
      ApplyCustomDrag(dt);
      Move(moveDirection, grounded, dt, frontCam, camRight);
      customDrag := if grounded then GroundDrag else AirDrag;
    }

    /** Update, once per frame: the state machine first, then gravity, drag and
        movement, and last the drag coefficient for the next frame. */
    method Update(grounded: bool, dt: real, frontCam: Vec3, camRight: Vec3)
      requires Valid()
      modifies machine`current, machine`trace, this`speed, this`customDrag, this`stateAtForce, rb`velocity, rb`forces
      ensures Valid()
      ensures var o := OnUpdate(old(CurrentKind()).value, View(), AllKinds, old(speed));
        CurrentKind() == o.current && machine.trace == old(machine.trace) + o.events && speed == o.speed
      ensures rb.velocity == Drag(old(rb.velocity), old(customDrag), dt)
      ensures rb.forces == old(rb.forces) + [
        AppliedForce(GravityForce(old(rb.velocity).y, settings, dt), Acceleration),
        AppliedForce(Scale(frontCam, MoveAmount(moveDirection.y, speed, grounded, settings, dt)), VelocityChange),
        AppliedForce(Scale(camRight, MoveAmount(moveDirection.x, speed, grounded, settings, dt)), VelocityChange)]
      ensures stateAtForce == old(stateAtForce) + [CurrentKind(), CurrentKind(), CurrentKind()]
      ensures customDrag == DragCoefficient(grounded)
      ensures old(CurrentKind()).value in Locomotion ==> CurrentKind() == FSM.Some(Settled(View()))
      ensures SpeedMatches(old(CurrentKind()), old(speed), settings) ==> SpeedMatches(CurrentKind(), speed, settings)
    {
      UpdateMachine();
      ApplyPhysics(grounded, dt, frontCam, camRight);
    }

    /** Jump: only when grounded, the machine enters Jump and then an upward
        impulse of the jump force is queued; a press in the air is dropped. */
    method Jump(grounded: bool)
      requires Valid()
      modifies machine`current, machine`trace, this`speed, this`stateAtForce, rb`forces
      ensures Valid() && speed == old(speed) && rb.velocity == old(rb.velocity)
      ensures !grounded ==> (CurrentKind() == old(CurrentKind()) && machine.trace == old(machine.trace)
                             && rb.forces == old(rb.forces) && stateAtForce == old(stateAtForce))
      ensures grounded ==> (CurrentKind() == FSM.Some(Kind.Jump)
                            && machine.trace == old(machine.trace) + [FSM.Exit(old(CurrentKind()).value), FSM.Enter(Kind.Jump)]
                            && rb.forces == old(rb.forces) + [AppliedForce(Vec3(0.0, settings.jumpForce, 0.0), Impulse)]
                            && stateAtForce == old(stateAtForce) + [FSM.Some(Kind.Jump)])
    {
      if grounded {
        ghost var before := machine.trace;
        SetState(Kind.Jump);
        TransitionAlternates(old(CurrentKind()), Kind.Jump, View(), AllKinds, old(speed));
        FSM.AlternatesAppend(FSM.None, before, Transition(old(CurrentKind()), Kind.Jump, View(), AllKinds, old(speed)).events);
        ApplyForce(Vec3(0.0, settings.jumpForce, 0.0), Impulse);
      }
    }
  }
}
