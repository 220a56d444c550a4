/**
  The per-tick decision rules of Assets/Scripts/PlayerController.cs, as pure
  functions over real numbers: the three-band gravity multiplier, the drag
  rule, the grounded/airborne drag coefficient, the walk/sprint speed choice
  and the air-control scaling of the movement impulse. The rigidbody, the
  raycasts and the clock are not modelled here: velocity, `grounded` and `dt`
  are inputs.
*/
module ControllerRules {

  datatype Vec2 = Vec2(x: real, y: real)
  datatype Vec3 = Vec3(x: real, y: real, z: real)

  const Zero2: Vec2 := Vec2(0.0, 0.0)

  function Scale(v: Vec3, a: real): Vec3 {
    Vec3(v.x * a, v.y * a, v.z * a)
  }

  function SqMagnitude(v: Vec3): real {
    v.x * v.x + v.y * v.y + v.z * v.z
  }

  /** The serialized fields of the controller, with the values the source gives them by default. */
  datatype Settings = Settings(
    gravity: real,
    risingMultiplier: real,
    apexMultiplier: real,
    fallingMultiplier: real,
    initialSpeed: real,
    sprintSpeed: real,
    walkSpeed: real,
    jumpForce: real,
    airMoveSpeedMultiplier: real,
    initialDrag: real,
    apexThreshold: real)

  const Defaults: Settings := Settings(-25.0, 1.0, 0.6, 2.5, 100.0, 145.0, 100.0, 5.0, 0.05, 0.4, 0.5)

  /** Drag coefficients written at the end of every tick. */
  const GroundDrag: real := 5.0
  const AirDrag: real := 0.4

  /** The move vector counts as "moving" when its magnitude is at least 0.1,
      i.e. when its squared magnitude is at least 0.01. */
  predicate IsMoving(d: Vec2) {
    d.x * d.x + d.y * d.y >= 0.01
  }

  /** The velocity counts as "at rest" when its full 3-D magnitude is below 0.1. */
  predicate AtRest(v: Vec3) {
    SqMagnitude(v) < 0.01
  }

  // ---------------------------------------------------------------- gravity

  datatype Phase = Rising | Apex | Falling

  /** Which band of the jump the vertical velocity `vy` is in, for apex threshold `t`:
      strictly above `t` is rising, above `-t` up to `t` is the apex, and `-t`
      itself and everything below is falling. */
  function PhaseOf(vy: real, t: real): (p: Phase)
    ensures p == Rising <==> vy > t
    ensures p == Apex <==> -t < vy <= t
    ensures p == Falling <==> vy <= -t && vy <= t
  {
    if vy > t then Rising
    else if vy > -t then Apex
    else Falling
  }

  function PhaseOrder(p: Phase): nat {
    match p
    case Falling => 0
    case Apex => 1
    case Rising => 2
  }

  /** The bands are contiguous and ordered: a higher vertical velocity is never in a lower band. */
  lemma PhaseMonotone(vy1: real, vy2: real, t: real)
    requires vy1 <= vy2
    ensures PhaseOrder(PhaseOf(vy1, t)) <= PhaseOrder(PhaseOf(vy2, t))
  {
  }

  /** With the serialized default values, gravity pulls down in every band, and
      harder while falling than while rising, and harder while rising than at
      the apex. */
  lemma DefaultFallIsHeaviest(rising: real, apex: real, falling: real, dt: real)
    requires dt > 0.0
    requires rising > Defaults.apexThreshold && -Defaults.apexThreshold < apex <= Defaults.apexThreshold
    requires falling <= -Defaults.apexThreshold
    ensures GravityForce(falling, Defaults, dt).y < GravityForce(rising, Defaults, dt).y
    ensures GravityForce(rising, Defaults, dt).y < GravityForce(apex, Defaults, dt).y < 0.0
  {
  }

  function Multiplier(p: Phase, s: Settings): real {
    match p
    case Rising => s.risingMultiplier
    case Apex => s.apexMultiplier
    case Falling => s.fallingMultiplier
  }

  /** The acceleration ApplyCustomGravity adds: purely vertical, the gravity
      scaled by the band's multiplier and by the frame time. */
  function GravityForce(vy: real, s: Settings, dt: real): (g: Vec3)
    ensures g.x == 0.0 && g.z == 0.0
    ensures vy > s.apexThreshold ==> g.y == s.gravity * s.risingMultiplier * dt
    ensures -s.apexThreshold < vy <= s.apexThreshold ==> g.y == s.gravity * s.apexMultiplier * dt
    ensures vy <= -s.apexThreshold && vy <= s.apexThreshold ==> g.y == s.gravity * s.fallingMultiplier * dt
  {
    Vec3(0.0, s.gravity * Multiplier(PhaseOf(vy, s.apexThreshold), s) * dt, 0.0)
  }

  // ------------------------------------------------------------------- drag

  /** ApplyCustomDrag: a velocity at rest loses its horizontal part outright;
      otherwise x and z are scaled by (1 - drag * dt). The vertical part is
      never touched. */
  function Drag(v: Vec3, drag: real, dt: real): (r: Vec3)
    ensures r.y == v.y
    ensures AtRest(v) ==> r.x == 0.0 && r.z == 0.0
    ensures !AtRest(v) ==> r.x == v.x * (1.0 - drag * dt) && r.z == v.z * (1.0 - drag * dt)
  {
    if AtRest(v) then Vec3(0.0, v.y, 0.0)
    else
      var k := 1.0 - drag * dt;
      Vec3(v.x * k, v.y, v.z * k)
  }

  function Abs(a: real): real {
    if a < 0.0 then -a else a
  }

  /** With a drag step between 0 and 1, drag never speeds a horizontal component
      up and never flips its sign. */
  lemma DragDamps(v: Vec3, drag: real, dt: real)
    requires 0.0 <= drag * dt <= 1.0
    ensures Abs(Drag(v, drag, dt).x) <= Abs(v.x) && Abs(Drag(v, drag, dt).z) <= Abs(v.z)
    ensures (v.x >= 0.0 ==> Drag(v, drag, dt).x >= 0.0) && (v.x <= 0.0 ==> Drag(v, drag, dt).x <= 0.0)
    ensures (v.z >= 0.0 ==> Drag(v, drag, dt).z >= 0.0) && (v.z <= 0.0 ==> Drag(v, drag, dt).z <= 0.0)
  {
    var r := Drag(v, drag, dt);
    var k := if AtRest(v) then 0.0 else 1.0 - drag * dt;
    Damp(v.x, k, r.x);
    Damp(v.z, k, r.z);
  }

  /** Scaling by a factor in [0, 1] does not grow a magnitude nor flip a sign. */
  lemma Damp(a: real, k: real, b: real)
    requires 0.0 <= k <= 1.0 && b == a * k
    ensures Abs(b) <= Abs(a)
    ensures (a >= 0.0 ==> b >= 0.0) && (a <= 0.0 ==> b <= 0.0)
  {
    var m := Abs(a) * k;
    assert 0.0 <= m <= Abs(a);
    assert a >= 0.0 ==> b == m;
    assert a < 0.0 ==> b == -m;
  }

  /** On the ground, a frame longer than 0.2 s makes drag·dt exceed 1, and the
      drag then reverses the horizontal velocity of a moving body instead of
      damping it. */
  lemma LongGroundFrameReverses(v: Vec3, dt: real)
    requires !AtRest(v) && GroundDrag * dt > 1.0
    ensures v.x > 0.0 ==> Drag(v, GroundDrag, dt).x < 0.0
    ensures v.x < 0.0 ==> Drag(v, GroundDrag, dt).x > 0.0
    ensures v.z > 0.0 ==> Drag(v, GroundDrag, dt).z < 0.0
    ensures v.z < 0.0 ==> Drag(v, GroundDrag, dt).z > 0.0
  {
  }

  /** The drag coefficient the controller writes at the end of a tick. */
  function DragCoefficient(grounded: bool): real {
    if grounded then GroundDrag else AirDrag
  }

  // ------------------------------------------------------------------ speed

  /** UpdateSpeed's choice: the sprint speed while sprinting, else the walk speed. */
  function SelectSpeed(sprinting: bool, s: Settings): real {
    if sprinting then s.sprintSpeed else s.walkSpeed
  }

  // --------------------------------------------------------------- movement

  /** The velocity change Move applies along one camera axis: the input
      component times the speed, times the air-control fraction when not
      grounded, times the frame time. */
  function MoveAmount(axis: real, speed: real, grounded: bool, s: Settings, dt: real): real {
    axis * (speed * (if grounded then 1.0 else s.airMoveSpeedMultiplier)) * dt
  }

  /** Airborne movement is the grounded movement scaled by the air-control fraction. */
  lemma AirControlScales(axis: real, speed: real, s: Settings, dt: real)
    ensures MoveAmount(axis, speed, false, s, dt) == s.airMoveSpeedMultiplier * MoveAmount(axis, speed, true, s, dt)
  {
    assert axis * (speed * s.airMoveSpeedMultiplier) * dt == s.airMoveSpeedMultiplier * (axis * speed * dt);
  }
}
