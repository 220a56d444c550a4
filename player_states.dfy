/**
  The locomotion states of Assets/Scripts/PlayerStates.cs and the nested
  transitions they trigger.

  Every callback of Idle, Move and Sprint may call the machine's SetState, and
  SetState runs the Enter callback of the state it switches to, which may call
  SetState again: one callback can set off a cascade of nested transitions.
  This module states what such a cascade does, as functions that follow the
  C# control flow call for call: `Transition` is StateMachine.SetState
  (FiniteStateMachine.cs lines 37-47), `OnEnter` and `OnUpdate` are the
  states' Enter and Update bodies. The imperative callbacks in module Player
  are proved to do exactly what these functions compute; the lemmas here say
  what the cascade means: it settles on a state fixed by the move vector and
  the sprint flag, it leaves the speed that state needs, and it keeps the
  Exit-then-Enter protocol.

  The move vector and the sprint flag are fixed during a cascade (the
  callbacks never write them), so a cascade sees them as two booleans.
*/
module PlayerStates {
  import opened FiniteStateMachine
  import opened ControllerRules

  /** One kind per concrete state class. */
  datatype Kind = Idle | Move | Sprint | Jump | Slide | WallRun

  /** The kinds PlayerController.Awake registers. */
  const AllKinds: set<Kind> := {Idle, Move, Jump, Slide, Sprint, WallRun}

  lemma EveryKindRegistered(k: Kind)
    ensures k in AllKinds
  {
    match k
    case Idle => case Move => case Sprint => case Jump => case Slide => case WallRun =>
  }

  /** The three states whose callbacks react to the move vector and the sprint flag. */
  const Locomotion: set<Kind> := {Idle, Move, Sprint}

  /** What the states read from their owner: whether the move vector's magnitude
      is at least 0.1, the sprint flag, and the configured speeds. */
  datatype OwnerView = OwnerView(moving: bool, sprinting: bool, settings: Settings)

  /** What a run of callbacks leaves behind: the current state, the Exit/Enter
      callbacks issued in order, and the owner's speed. */
  datatype Outcome = Outcome(current: Option<Kind>, events: seq<Event<Kind>>, speed: real)

  function Stay(k: Kind, speed: real): Outcome {
    Outcome(Some(k), [], speed)
  }

  /** Run `b` after `a` (b was computed from a's final state and speed). */
  function Then(a: Outcome, b: Outcome): Outcome {
    Outcome(b.current, a.events + b.events, b.speed)
  }

  function ExitOf(cur: Option<Kind>): seq<Event<Kind>> {
    if cur.Some? then [Exit(cur.value)] else []
  }

  /** The state a locomotion cascade comes to rest in. */
  function Settled(v: OwnerView): Kind {
    if !v.moving then Idle else if v.sprinting then Sprint else Move
  }

  /** The speed each locomotion state needs: walk speed in Move, sprint speed in Sprint. */
  predicate SpeedMatches(cur: Option<Kind>, speed: real, s: Settings) {
    (cur == Some(Move) ==> speed == s.walkSpeed) && (cur == Some(Sprint) ==> speed == s.sprintSpeed)
  }

  /** How many more nested Enter calls entering `k` can set off. */
  function Rank(k: Kind, v: OwnerView): nat {
    match k
    case Idle => if v.moving then 2 else 0
    case Move => if v.moving then (if v.sprinting then 1 else 0) else (if v.sprinting then 2 else 1)
    case Sprint => if v.moving then (if v.sprinting then 0 else 1) else (if v.sprinting then 1 else 2)
    case _ => 0
  }

  /** StateMachine.SetState to `k` from current state `cur`, with registry
      keys `reg`: Exit on the current state, then, only if `k` is registered,
      switch to it and run its Enter. */
  function Transition(cur: Option<Kind>, k: Kind, v: OwnerView, reg: set<Kind>, speed: real): Outcome
    decreases Rank(k, v), 1
  {
    if k in reg then
      var e := OnEnter(k, v, reg, speed);
      Outcome(e.current, ExitOf(cur) + [Enter(k)] + e.events, e.speed)
    else Outcome(cur, ExitOf(cur), speed)
  }

  /** A registered target, appended to a trace `before`: the Exit, the Enter
      and the events of the target's Enter body, in that order. */
  lemma TransitionUnfolds(before: seq<Event<Kind>>, cur: Option<Kind>, k: Kind, v: OwnerView, reg: set<Kind>, speed: real)
    requires k in reg
    ensures var o := Transition(cur, k, v, reg, speed); var e := OnEnter(k, v, reg, speed);
      o.current == e.current && o.speed == e.speed && before + o.events == before + ExitOf(cur) + [Enter(k)] + e.events
  {
  }

  /** The Enter body of the state of kind `k`, run while `k` is current. */
  function OnEnter(k: Kind, v: OwnerView, reg: set<Kind>, speed: real): Outcome
    decreases Rank(k, v), 0
  {
    match k
    case Idle =>
      if v.moving then Transition(Some(Idle), Move, v, reg, speed) else Stay(Idle, speed)
    case Move =>
      var first := if !v.moving then Transition(Some(Move), Idle, v, reg, speed) else Stay(Move, speed);
      if v.sprinting then Then(first, Transition(first.current, Sprint, v, reg, first.speed))
      else Outcome(first.current, first.events, SelectSpeed(v.sprinting, v.settings))
    case Sprint =>
      var first := if !v.moving then Transition(Some(Sprint), Idle, v, reg, speed) else Stay(Sprint, speed);
      if !v.sprinting then Then(first, Transition(first.current, Move, v, reg, first.speed))
      else Outcome(first.current, first.events, SelectSpeed(v.sprinting, v.settings))
    case _ =>
      Stay(k, speed)
  }

  /** The Update body of the state of kind `k`, run while `k` is current. For
      Jump this is only the part that runs at once: the rest waits 200 ms and
      is `JumpResume`. */
  function OnUpdate(k: Kind, v: OwnerView, reg: set<Kind>, speed: real): Outcome {
    match k
    case Idle =>
      if v.moving then Transition(Some(Idle), Move, v, reg, speed) else Stay(Idle, speed)
    case Move =>
      var first := if !v.moving then Transition(Some(Move), Idle, v, reg, speed) else Stay(Move, speed);
      if v.sprinting then Then(first, Transition(first.current, Sprint, v, reg, first.speed)) else first
    case Sprint =>
      var first := if !v.moving then Transition(Some(Sprint), Idle, v, reg, speed) else Stay(Sprint, speed);
      if !v.sprinting then Then(first, Transition(first.current, Move, v, reg, first.speed)) else first
    case _ =>
      Stay(k, speed)
  }

  /** The continuation of Jump's Update, once its 200 ms wait is over: it acts
      on whatever state is current by then. */
  function JumpResume(cur: Option<Kind>, grounded: bool, v: OwnerView, reg: set<Kind>, speed: real): Outcome {
    if grounded then Transition(cur, Idle, v, reg, speed) else Outcome(cur, [], speed)
  }

  // ------------------------------------------------------- where a cascade ends

  /** A transition into Idle, Move or Sprint settles on Idle when not moving,
      else on Sprint when sprinting, else on Move. */
  lemma {:induction false} TransitionSettles(cur: Option<Kind>, k: Kind, v: OwnerView, reg: set<Kind>, speed: real)
    requires Locomotion <= reg && k in Locomotion
    ensures Transition(cur, k, v, reg, speed).current == Some(Settled(v))
    decreases Rank(k, v), 1
  {
    EnterSettles(k, v, reg, speed);
  }

  /** The Enter of Idle, Move or Sprint settles as TransitionSettles says. */
  lemma {:induction false} EnterSettles(k: Kind, v: OwnerView, reg: set<Kind>, speed: real)
    requires Locomotion <= reg && k in Locomotion
    ensures OnEnter(k, v, reg, speed).current == Some(Settled(v))
    decreases Rank(k, v), 0
  {
    match k
    case Idle =>
      if v.moving {
        TransitionSettles(Some(Idle), Move, v, reg, speed);
      }
    case Move =>
      var first := if !v.moving then Transition(Some(Move), Idle, v, reg, speed) else Stay(Move, speed);
      if !v.moving {
        TransitionSettles(Some(Move), Idle, v, reg, speed);
      }
      if v.sprinting {
        TransitionSettles(first.current, Sprint, v, reg, first.speed);
      }
    case Sprint =>
      var first := if !v.moving then Transition(Some(Sprint), Idle, v, reg, speed) else Stay(Sprint, speed);
      if !v.moving {
        TransitionSettles(Some(Sprint), Idle, v, reg, speed);
      }
      if !v.sprinting {
        TransitionSettles(first.current, Move, v, reg, first.speed);
      }
  }

  /** One Update of Idle, Move or Sprint also settles there. */
  lemma {:induction false} UpdateSettles(k: Kind, v: OwnerView, reg: set<Kind>, speed: real)
    requires Locomotion <= reg && k in Locomotion
    ensures OnUpdate(k, v, reg, speed).current == Some(Settled(v))
  {
    match k
    case Idle =>
      if v.moving {
        TransitionSettles(Some(Idle), Move, v, reg, speed);
      }
    case Move =>
      var first := if !v.moving then Transition(Some(Move), Idle, v, reg, speed) else Stay(Move, speed);
      if !v.moving {
        TransitionSettles(Some(Move), Idle, v, reg, speed);
      }
      if v.sprinting {
        TransitionSettles(first.current, Sprint, v, reg, first.speed);
      }
    case Sprint =>
      var first := if !v.moving then Transition(Some(Sprint), Idle, v, reg, speed) else Stay(Sprint, speed);
      if !v.moving {
        TransitionSettles(Some(Sprint), Idle, v, reg, speed);
      }
      if !v.sprinting {
        TransitionSettles(first.current, Move, v, reg, first.speed);
      }
  }

  // ------------------------------------------------------------------- speed

  /** A transition that switches state leaves the speed the new state needs;
      one to an unregistered kind keeps whatever held before. */
  lemma {:induction false} TransitionSpeed(cur: Option<Kind>, k: Kind, v: OwnerView, reg: set<Kind>, speed: real)
    requires Locomotion <= reg
    requires k in reg || SpeedMatches(cur, speed, v.settings)
    ensures SpeedMatches(Transition(cur, k, v, reg, speed).current, Transition(cur, k, v, reg, speed).speed, v.settings)
    decreases Rank(k, v), 1
  {
    if k in reg {
      EnterSpeed(k, v, reg, speed);
    }
  }

  /** Whatever the speed before, an Enter leaves the speed its final state needs. */
  lemma {:induction false} EnterSpeed(k: Kind, v: OwnerView, reg: set<Kind>, speed: real)
    requires Locomotion <= reg
    ensures SpeedMatches(OnEnter(k, v, reg, speed).current, OnEnter(k, v, reg, speed).speed, v.settings)
    decreases Rank(k, v), 0
  {
    match k
    case Idle =>
      if v.moving {
        TransitionSpeed(Some(Idle), Move, v, reg, speed);
      }
    case Move =>
      var first := if !v.moving then Transition(Some(Move), Idle, v, reg, speed) else Stay(Move, speed);
      if !v.moving {
        TransitionSettles(Some(Move), Idle, v, reg, speed);
      }
      if v.sprinting {
        TransitionSpeed(first.current, Sprint, v, reg, first.speed);
      }
    case Sprint =>
      var first := if !v.moving then Transition(Some(Sprint), Idle, v, reg, speed) else Stay(Sprint, speed);
      if !v.moving {
        TransitionSettles(Some(Sprint), Idle, v, reg, speed);
      }
      if !v.sprinting {
        TransitionSpeed(first.current, Move, v, reg, first.speed);
      }
    case _ =>
  }

  /** An Update keeps the speed in step with the state, provided it was in step before. */
  lemma {:induction false} UpdateKeepsSpeedInStep(k: Kind, v: OwnerView, reg: set<Kind>, speed: real)
    requires Locomotion <= reg && SpeedMatches(Some(k), speed, v.settings)
    ensures SpeedMatches(OnUpdate(k, v, reg, speed).current, OnUpdate(k, v, reg, speed).speed, v.settings)
  {
    match k
    case Idle =>
      if v.moving {
        TransitionSpeed(Some(Idle), Move, v, reg, speed);
      }
    case Move =>
      var first := if !v.moving then Transition(Some(Move), Idle, v, reg, speed) else Stay(Move, speed);
      if !v.moving {
        TransitionSpeed(Some(Move), Idle, v, reg, speed);
      }
      if v.sprinting {
        TransitionSpeed(first.current, Sprint, v, reg, first.speed);
      }
    case Sprint =>
      var first := if !v.moving then Transition(Some(Sprint), Idle, v, reg, speed) else Stay(Sprint, speed);
      if !v.moving {
        TransitionSpeed(Some(Sprint), Idle, v, reg, speed);
      }
      if !v.sprinting {
        TransitionSpeed(first.current, Move, v, reg, first.speed);
      }
    case _ =>
  }

  // ------------------------------------------------- the Exit/Enter protocol

  /** With every target registered, a transition and all the transitions it
      sets off keep the lifecycle protocol, and the state it leaves current
      is the one entered last. */
  lemma {:induction false} TransitionAlternates(cur: Option<Kind>, k: Kind, v: OwnerView, reg: set<Kind>, speed: real)
    requires Locomotion <= reg && k in reg
    ensures Alternates(cur, Transition(cur, k, v, reg, speed).events)
    ensures Transition(cur, k, v, reg, speed).current == LastEntered(cur, Transition(cur, k, v, reg, speed).events)
    decreases Rank(k, v), 1
  {
    var head := ExitOf(cur) + [Enter(k)];
    var e := OnEnter(k, v, reg, speed);
    EnterAlternates(k, v, reg, speed);
    assert Alternates(cur, head) by {
      if cur.Some? {
        assert head[2..] == [];
      } else {
        assert head[1..] == [];
      }
    }
    assert LastEntered(cur, head) == Some(k) by {
      if cur.Some? {
        assert head[1..] == [Enter(k)];
        assert head[1..][1..] == [];
        assert LastEntered(cur, head) == LastEntered(cur, [Enter(k)]) == LastEntered(Some(k), []);
      } else {
        assert head[1..] == [];
        assert LastEntered(cur, head) == LastEntered(Some(k), []);
      }
    }
    AlternatesAppend(cur, head, e.events);
  }

  /** The Enter of `k` keeps the protocol from `k` on. */
  lemma {:induction false} EnterAlternates(k: Kind, v: OwnerView, reg: set<Kind>, speed: real)
    requires Locomotion <= reg
    ensures Alternates(Some(k), OnEnter(k, v, reg, speed).events)
    ensures OnEnter(k, v, reg, speed).current == LastEntered(Some(k), OnEnter(k, v, reg, speed).events)
    decreases Rank(k, v), 0
  {
    match k
    case Idle =>
      if v.moving {
        TransitionAlternates(Some(Idle), Move, v, reg, speed);
      }
    case Move =>
      var first := if !v.moving then Transition(Some(Move), Idle, v, reg, speed) else Stay(Move, speed);
      if !v.moving {
        TransitionAlternates(Some(Move), Idle, v, reg, speed);
      }
      if v.sprinting {
        var second := Transition(first.current, Sprint, v, reg, first.speed);
        TransitionAlternates(first.current, Sprint, v, reg, first.speed);
        AlternatesAppend(Some(Move), first.events, second.events);
      }
    case Sprint =>
      var first := if !v.moving then Transition(Some(Sprint), Idle, v, reg, speed) else Stay(Sprint, speed);
      if !v.moving {
        TransitionAlternates(Some(Sprint), Idle, v, reg, speed);
      }
      if !v.sprinting {
        var second := Transition(first.current, Move, v, reg, first.speed);
        TransitionAlternates(first.current, Move, v, reg, first.speed);
        AlternatesAppend(Some(Sprint), first.events, second.events);
      }
    case _ =>
  }

  /** The Update of `k` keeps the protocol from `k` on. */
  lemma {:induction false} UpdateAlternates(k: Kind, v: OwnerView, reg: set<Kind>, speed: real)
    requires Locomotion <= reg
    ensures Alternates(Some(k), OnUpdate(k, v, reg, speed).events)
    ensures OnUpdate(k, v, reg, speed).current == LastEntered(Some(k), OnUpdate(k, v, reg, speed).events)
  {
    match k
    case Idle =>
      if v.moving {
        TransitionAlternates(Some(Idle), Move, v, reg, speed);
      }
    case Move =>
      var first := if !v.moving then Transition(Some(Move), Idle, v, reg, speed) else Stay(Move, speed);
      if !v.moving {
        TransitionAlternates(Some(Move), Idle, v, reg, speed);
      }
      if v.sprinting {
        var second := Transition(first.current, Sprint, v, reg, first.speed);
        TransitionAlternates(first.current, Sprint, v, reg, first.speed);
        AlternatesAppend(Some(Move), first.events, second.events);
      }
    case Sprint =>
      var first := if !v.moving then Transition(Some(Sprint), Idle, v, reg, speed) else Stay(Sprint, speed);
      if !v.moving {
        TransitionAlternates(Some(Sprint), Idle, v, reg, speed);
      }
      if !v.sprinting {
        var second := Transition(first.current, Move, v, reg, first.speed);
        TransitionAlternates(first.current, Move, v, reg, first.speed);
        AlternatesAppend(Some(Sprint), first.events, second.events);
      }
    case _ =>
  }

  // ------------------------------------------------ single callbacks, quirks

  /** Jump, Slide and WallRun never transition from Enter or from the
      synchronous part of Update, and never touch the speed. */
  lemma QuietStates(k: Kind, v: OwnerView, reg: set<Kind>, speed: real)
    requires k !in Locomotion
    ensures OnEnter(k, v, reg, speed) == Stay(k, speed)
    ensures OnUpdate(k, v, reg, speed) == Stay(k, speed)
  {
  }

  /** Idle's Enter and Update start a transition iff the move vector's
      magnitude is at least 0.1, and that transition goes to Move. */
  lemma IdleMovesIffMoving(v: OwnerView, reg: set<Kind>, speed: real)
    requires Move in reg
    ensures OnEnter(Idle, v, reg, speed).events != [] <==> v.moving
    ensures OnUpdate(Idle, v, reg, speed).events != [] <==> v.moving
    ensures v.moving ==> OnEnter(Idle, v, reg, speed).events[..2] == [Exit(Idle), Enter(Move)]
    ensures v.moving ==> OnUpdate(Idle, v, reg, speed).events[..2] == [Exit(Idle), Enter(Move)]
    ensures !v.moving ==> OnEnter(Idle, v, reg, speed) == Stay(Idle, speed)
    ensures !v.moving ==> OnUpdate(Idle, v, reg, speed) == Stay(Idle, speed)
  {
    if v.moving {
      var e := OnEnter(Move, v, reg, speed);
      assert OnEnter(Idle, v, reg, speed).events == [Exit(Idle), Enter(Move)] + e.events;
    }
  }

  /** Move's and Sprint's Update never call UpdateSpeed: when the input asks
      for no transition, Update leaves the state and a stale speed as they are. */
  lemma UpdateKeepsSpeed(v: OwnerView, reg: set<Kind>, speed: real)
    ensures v.moving && !v.sprinting ==> OnUpdate(Move, v, reg, speed) == Stay(Move, speed)
    ensures v.moving && v.sprinting ==> OnUpdate(Sprint, v, reg, speed) == Stay(Sprint, speed)
  {
  }

  /** Move's two checks are not exclusive: entering Move while not moving but
      sprinting first goes to Idle and then still goes to Sprint, whose own
      Enter goes back to Idle; the
      cascade ends in Idle with the sprint speed, set by Move's Enter after
      the nested transitions returned. */
  lemma MoveEnterNotExclusive(v: OwnerView, speed: real)
    requires !v.moving && v.sprinting
    ensures OnEnter(Move, v, AllKinds, speed)
      == Outcome(Some(Idle), [Exit(Move), Enter(Idle), Exit(Idle), Enter(Sprint), Exit(Sprint), Enter(Idle)],
                 v.settings.sprintSpeed)
  {
    assert OnEnter(Idle, v, AllKinds, speed) == Stay(Idle, speed);
    assert Transition(Some(Move), Idle, v, AllKinds, speed) == Outcome(Some(Idle), [Exit(Move), Enter(Idle)], speed);
    assert Transition(Some(Sprint), Idle, v, AllKinds, speed) == Outcome(Some(Idle), [Exit(Sprint), Enter(Idle)], speed);
    var inSprint := OnEnter(Sprint, v, AllKinds, speed);
    assert inSprint == Outcome(Some(Idle), [Exit(Sprint), Enter(Idle)], v.settings.sprintSpeed);
    var toSprint := Transition(Some(Idle), Sprint, v, AllKinds, speed);
    assert toSprint.events == [Exit(Idle), Enter(Sprint)] + inSprint.events;
  }

  /** The continuation of Jump's Update enters Idle iff the character is
      grounded by then; otherwise it does nothing at all. */
  lemma JumpResumeIdleIffGrounded(cur: Option<Kind>, grounded: bool, v: OwnerView, reg: set<Kind>, speed: real)
    requires Idle in reg
    ensures Enter(Idle) in JumpResume(cur, grounded, v, reg, speed).events <==> grounded
    ensures grounded ==> JumpResume(cur, grounded, v, reg, speed).events[..|ExitOf(cur)| + 1] == ExitOf(cur) + [Enter(Idle)]
    ensures !grounded ==> JumpResume(cur, grounded, v, reg, speed) == Outcome(cur, [], speed)
  {
    if grounded {
      var e := OnEnter(Idle, v, reg, speed);
      var evs := ExitOf(cur) + [Enter(Idle)] + e.events;
      assert evs[|ExitOf(cur)|] == Enter(Idle);
      assert evs[..|ExitOf(cur)| + 1] == ExitOf(cur) + [Enter(Idle)];
    }
  }

  /** The unregistered-target quirk: a transition to an unregistered kind
      exits the current state but leaves it current, so the next transition
      exits it a second time and the Exit/Enter protocol is broken. */
  lemma UnregisteredBreaksProtocol(c: Kind, k: Kind, next: Kind, v: OwnerView, reg: set<Kind>, speed: real)
    requires k !in reg && next in reg
    ensures var a := Transition(Some(c), k, v, reg, speed);
      a.current == Some(c) && a.events == [Exit(c)]
      && !Alternates(Some(c), a.events + Transition(a.current, next, v, reg, a.speed).events)
  {
    var a := Transition(Some(c), k, v, reg, speed);
    var b := Transition(a.current, next, v, reg, a.speed);
    assert b.events[0] == Exit(c);
    assert (a.events + b.events)[1] == Exit(c);
  }
}
