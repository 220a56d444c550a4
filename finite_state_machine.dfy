/**
  The generic finite-state machine of Assets/Scripts/FiniteStateMachine.cs.

  A machine owns a registry from state kind to state instance (the C# code keys
  it by the state's runtime type; here every state carries its kind) and a
  single current-state slot. States hold two back-references, to the machine
  and to the owner, bound when they are registered.

  The C# machine calls the abstract callbacks Enter/Update/Exit of the current
  state. Without virtual dispatch the callbacks are run by the module that
  knows the concrete states (module Player); this class does the machine's own
  bookkeeping of a transition in two halves, BeginExit (the Exit call on the
  current state, lines 40-41) and Select (the lookup, the switch and the
  Enter call, lines 42-45). The ghost `trace` records, in order, every Exit
  and Enter callback the machine issued.
*/
module FiniteStateMachine {

  datatype Option<T> = None | Some(value: T)

  /** A lifecycle callback issued by the machine, with the kind of the state it was issued on. */
  datatype Event<K> = Enter(kind: K) | Exit(kind: K)

  /** The state a run of callbacks leaves current, starting from `cur`: the
      kind of the last Enter in `evs`, or `cur` when there is none. */
  function LastEntered<K>(cur: Option<K>, evs: seq<Event<K>>): Option<K>
    decreases |evs|
  {
    if evs == [] then cur
    else LastEntered(if evs[0].Enter? then Some(evs[0].kind) else cur, evs[1..])
  }

  /** The lifecycle protocol, starting from current state `cur`: every
      transition issues Exit on the state that is current (when there is one)
      and then Enter on the next, so Exits and Enters alternate and every Exit
      is issued on the state most recently entered. */
  predicate Alternates<K(==)>(cur: Option<K>, evs: seq<Event<K>>)
    decreases |evs|
  {
    if evs == [] then true
    else if cur.None? then evs[0].Enter? && Alternates(Some(evs[0].kind), evs[1..])
    else |evs| >= 2 && evs[0] == Exit(cur.value) && evs[1].Enter? && Alternates(Some(evs[1].kind), evs[2..])
  }

  /** Two runs that each keep the protocol keep it when the second starts where the first ended. */
  lemma {:induction false} AlternatesAppend<K>(cur: Option<K>, a: seq<Event<K>>, b: seq<Event<K>>)
    requires Alternates(cur, a) && Alternates(LastEntered(cur, a), b)
    ensures Alternates(cur, a + b)
    ensures LastEntered(cur, a + b) == LastEntered(LastEntered(cur, a), b)
    decreases |a|
  {
    if a == [] {
      assert a + b == b;
    } else if cur.None? {
      assert (a + b)[1..] == a[1..] + b;
      assert LastEntered(cur, a) == LastEntered(Some(a[0].kind), a[1..]);
      AlternatesAppend(Some(a[0].kind), a[1..], b);
    } else {
      assert (a + b)[1..] == a[1..] + b;
      assert (a + b)[2..] == a[2..] + b;
      assert a[1..][1..] == a[2..];
      assert LastEntered(cur, a) == LastEntered(cur, a[1..]) == LastEntered(Some(a[1].kind), a[2..]);
      AlternatesAppend(Some(a[1].kind), a[2..], b);
    }
  }

  /** The abstract base State<T>: its kind and its two back-references. */
  class State<K(==), T> {
    const kind: K
    var machine: StateMachine?<K, T>
    var owner: Option<T>

    /** A freshly built state is not yet bound to any machine or owner. */
    constructor (kind: K)
      ensures this.kind == kind && machine == null && owner == None
    {
      this.kind := kind;
      machine := null;
      owner := None;
    }

    /** State<T>.SetState: binds both back-references and returns the state itself. */
    method SetState(sm: StateMachine<K, T>, owner: T) returns (r: State<K, T>)
      modifies this`machine, this`owner
      ensures r == this
      ensures machine == sm && this.owner == Some(owner)
    {
      machine := sm;
      this.owner := Some(owner);
      r := this;
    }
  }

  class StateMachine<K(==), T> {
    const owner: T
    var states: map<K, State<K, T>>
    var current: State?<K, T>
    ghost var trace: seq<Event<K>>

    /** A new machine remembers its owner, has an empty registry and no current state. */
    constructor (owner: T)
      ensures this.owner == owner
      ensures states == map[] && current == null && trace == []
    {
      this.owner := owner;
      states := map[];
      current := null;
      trace := [];
    }

    /** CheckState<TS>: whether the current state is of the queried kind. The C#
        code dereferences the current state, so a current state is required. */
    method CheckState(k: K) returns (b: bool)
      requires current != null
      ensures b <==> current.kind == k
    {
      b := current.kind == k;
    }

    /** AddState: binds the state's back-references to this machine and its owner
        and stores it under its own kind; an earlier state of that kind is
        replaced and every other entry is kept. */
    method AddState(s: State<K, T>)
      modifies this`states, s`machine, s`owner
      ensures s.machine == this && s.owner == Some(owner)
      ensures states == old(states)[s.kind := s]
      ensures s.kind in states && states[s.kind] == s
      ensures forall k :: k in old(states) && k != s.kind ==> k in states && states[k] == old(states)[k]
      ensures current == old(current) && trace == old(trace)
    {
      var bound := s.SetState(this, owner);
      states := states[bound.kind := bound];
    }

    /** First half of SetState<TS> (lines 40-41): if there is a current state,
        its Exit is issued; the slot itself is not touched. Returns the state
        whose Exit callback the caller must now run, or null. */
    method BeginExit() returns (leaving: State?<K, T>)
      modifies this`trace
      ensures leaving == current
      ensures trace == old(trace) + (if current == null then [] else [Exit(current.kind)])
    {
      leaving := current;
      if current != null {
        trace := trace + [Exit(current.kind)];
      }
    }

    /** Second half of SetState<TS> (lines 42-46): a registered kind becomes the
        current state and its Enter is issued; an unregistered kind leaves the
        slot as it was (still the state just exited) and issues nothing. Returns
        the state whose Enter callback the caller must now run, or null. */
    method Select(k: K) returns (entering: State?<K, T>)
      modifies this`current, this`trace
      ensures k in states ==> current == states[k] && entering == current && trace == old(trace) + [Enter(k)]
      ensures k !in states ==> current == old(current) && entering == null && trace == old(trace)
    {
      entering := null;
      if k in states {
        current := states[k];
        trace := trace + [Enter(k)];
        entering := current;
      }
    }
  }
}
