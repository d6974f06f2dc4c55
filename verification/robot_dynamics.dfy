/**
 * The robot family of robot_dynamics.js: four discrete-time forward-Euler
 * update rules over a state array. Each `Dynamics` method mutates the state
 * array in place, one element at a time and in the order of the source, and
 * is specified by a static `Step` function on the array's contents. Each
 * variant also exposes its `Drift` and its constant `ControlCoefficient`, and
 * the lemmas at the end show that every step is control-affine:
 *   new state = old + dt·Drift(old) + dt·Σ_j u[j]·B[j]
 * where row j of B is the coefficient row of control input j.
 *
 * Rendering (`displayState`, sprite fields) is not modelled; `Update` is the
 * source's `update` without the display call.
 */
module RobotDynamics {

  /** The host's `Math.cos` and `Math.sin`, left uninterpreted. */
  datatype Trig = Trig(cos: real -> real, sin: real -> real)

  datatype Option<T> = None | Some(value: T)

  /** Σ_j u[j]·B[j][i]: what the controls contribute to component i. */
  function ControlTerm(B: seq<seq<real>>, u: seq<real>, i: nat): (r: real)
    requires |B| <= |u|
    requires forall j | 0 <= j < |B| :: i < |B[j]|
    decreases |B|
  {
    if |B| == 0 then 0.0 else u[0] * B[0][i] + ControlTerm(B[1..], u[1..], i)
  }

  /** One forward-Euler step written in control-affine form. */
  function AffineStep(s: seq<real>, drift: seq<real>, B: seq<seq<real>>, u: seq<real>, dt: real): (r: seq<real>)
    requires |drift| == |s| && |B| <= |u|
    requires forall j | 0 <= j < |B| :: |B[j]| == |s|
    ensures |r| == |s|
  {
    seq(|s|, i requires 0 <= i < |s| => s[i] + dt * drift[i] + dt * ControlTerm(B, u, i))
  }

  /** A single control row contributes u[0]·B[0][i]. */
  lemma ControlTermOne(B: seq<seq<real>>, u: seq<real>, i: nat)
    requires |B| == 1 && 1 <= |u| && i < |B[0]|
    ensures ControlTerm(B, u, i) == u[0] * B[0][i]
  {
  }

  /** Two control rows contribute u[0]·B[0][i] + u[1]·B[1][i]. */
  lemma ControlTermTwo(B: seq<seq<real>>, u: seq<real>, i: nat)
    requires |B| == 2 && 2 <= |u| && i < |B[0]| && i < |B[1]|
    ensures ControlTerm(B, u, i) == u[0] * B[0][i] + u[1] * B[1][i]
  {
    ControlTermOne(B[1..], u[1..], i);
  }

  /** The abstract robot: a three-element state that its dynamics leave alone. */
  class Robot {
    var states: array<real>

    constructor ()
      ensures fresh(states) && states[..] == [0.0, 0.0, 0.0]
    {
      states := new real[3] [0.0, 0.0, 0.0];
    }

    /** The base class has no drift. */
    static function Drift(s: seq<real>): (d: seq<real>)
      ensures |d| == 3
    {
      [0.0, 0.0, 0.0]
    }

    /** The base class's coefficient is the scalar 0, not a matrix: controls have no effect. */
    static function ControlCoefficient(): (c: real)
      ensures c == 0.0
    {
      0.0
    }

    /** The contents of the state array after `Dynamics`. */
    static function Step(s: seq<real>, dt: real): (r: seq<real>)
      requires |s| >= 3
    {
      [s[0] + 0.0 * dt, s[1] + 0.0 * dt, s[2] + 0.0 * dt] + s[3..]
    }

    method Dynamics(delT: real, u: seq<real>)
      requires states.Length >= 3
      modifies states
      ensures states[..] == Step(old(states[..]), delT)
    {
      states[0] := states[0] + 0.0 * delT;
      states[1] := states[1] + 0.0 * delT;
      states[2] := states[2] + 0.0 * delT;
    }

    method Update(delT: real, u: seq<real>)
      requires states.Length >= 3
      modifies states
      ensures states[..] == Step(old(states[..]), delT)
    {
      Dynamics(delT, u);
    }
  }

  /** Planar double integrator, state [x, vx, y, vy], controls [ax, ay]. */
  class QuadrotorRobot {
    var states: array<real>

    /** Keeps the caller's array itself: later steps mutate the caller's array. */
    constructor (initialState: array<real>)
      ensures states == initialState
    {
      states := initialState;
    }

    static function Drift(s: seq<real>): (d: seq<real>)
      requires |s| >= 4
      ensures |d| == 4
    {
      [s[1], 0.0, s[3], 0.0]
    }

    /** One row per control input, one column per state component; control j drives velocity 2j+1 only. */
    static function ControlCoefficient(): (B: seq<seq<real>>)
      ensures |B| == 2
      ensures forall j | 0 <= j < |B| :: |B[j]| == 4
      ensures forall j, i | 0 <= j < |B| && 0 <= i < |B[j]| :: B[j][i] == if i == 2 * j + 1 then 1.0 else 0.0
    {
      [[0.0, 1.0, 0.0, 0.0], [0.0, 0.0, 0.0, 1.0]]
    }

    /** The contents of the state array after `Dynamics`: positions move with the pre-step velocities. */
    static function Step(s: seq<real>, u: seq<real>, dt: real): (r: seq<real>)
      requires |s| >= 4 && |u| >= 2
      ensures |r| == |s| && r[4..] == s[4..]
    {
      [s[0] + s[1] * dt, s[1] + u[0] * dt, s[2] + s[3] * dt, s[3] + u[1] * dt] + s[4..]
    }

    method Dynamics(delT: real, u: seq<real>)
      requires states.Length >= 4 && |u| >= 2
      modifies states
      ensures states[..] == Step(old(states[..]), u, delT)
    {
      ghost var r := Step(states[..], u, delT);
      states[0] := states[0] + states[1] * delT;
      states[1] := states[1] + u[0] * delT;
      states[2] := states[2] + states[3] * delT;
      states[3] := states[3] + u[1] * delT;
      assert forall i | 0 <= i < states.Length :: states[i] == r[i];
    }

    method Update(delT: real, u: seq<real>)
      requires states.Length >= 4 && |u| >= 2
      modifies states
      ensures states[..] == Step(old(states[..]), u, delT)
    {
      Dynamics(delT, u);
    }
  }

  /** Vertical double integrator, state [y, vy], control [ay]. */
  class VerticalQuadrotorRobot {
    var states: array<real>

    /** Keeps the caller's array itself: later steps mutate the caller's array. */
    constructor (initialState: array<real>)
      ensures states == initialState
    {
      states := initialState;
    }

    static function Drift(s: seq<real>): (d: seq<real>)
      requires |s| >= 2
      ensures |d| == 2
    {
      [s[1], 0.0]
    }

    /** A single row: the one control drives the velocity only. */
    static function ControlCoefficient(): (B: seq<seq<real>>)
      ensures |B| == 1 && |B[0]| == 2
      ensures B[0][0] == 0.0 && B[0][1] == 1.0
    {
      [[0.0, 1.0]]
    }

    /** The contents of the state array after `Dynamics`; nothing past the first two elements changes. */
    static function Step(s: seq<real>, u: seq<real>, dt: real): (r: seq<real>)
      requires |s| >= 2 && |u| >= 1
      ensures |r| == |s| && r[2..] == s[2..]
    {
      [s[0] + s[1] * dt, s[1] + u[0] * dt] + s[2..]
    }

    method Dynamics(delT: real, u: seq<real>)
      requires states.Length >= 2 && |u| >= 1
      modifies states
      ensures states[..] == Step(old(states[..]), u, delT)
    {
      states[0] := states[0] + states[1] * delT;
      states[1] := states[1] + u[0] * delT;
    }

    method Update(delT: real, u: seq<real>)
      requires states.Length >= 2 && |u| >= 1
      modifies states
      ensures states[..] == Step(old(states[..]), u, delT)
    {
      Dynamics(delT, u);
    }
  }

  /**
   * Unicycle, state [x, y, θ], control [turn rate], with a forward `speed`.
   * `spinout` is a property only the driver sets; it is absent (`None`) until then.
   */
  class DubinsRobot {
    var states: array<real>
    var speed: real
    var spinout: Option<real>

    /** Copies the initial state and starts at speed 1. */
    constructor (initialState: array<real>)
      ensures fresh(states) && states[..] == initialState[..]
      ensures speed == 1.0 && spinout == None
    {
      var s := initialState[..];
      states := new real[|s|](i requires 0 <= i < |s| => s[i]);
      speed := 1.0;
      spinout := None;
    }

    static function Drift(s: seq<real>, speed: real, trig: Trig): (d: seq<real>)
      requires |s| >= 3
      ensures |d| == 3
    {
      [speed * trig.cos(s[2]), speed * trig.sin(s[2]), 0.0]
    }

    /** A single row: the one control drives the heading only. */
    static function ControlCoefficient(): (B: seq<seq<real>>)
      ensures |B| == 1 && |B[0]| == 3
      ensures B[0][0] == 0.0 && B[0][1] == 0.0 && B[0][2] == 1.0
    {
      [[0.0, 0.0, 1.0]]
    }

    /**
     * The contents of the state array after `Dynamics`. The position moves
     * along the pre-step heading; the heading is never wrapped (see `Dynamics`).
     */
    static function Step(s: seq<real>, speed: real, u: seq<real>, dt: real, trig: Trig): (r: seq<real>)
      requires |s| >= 3 && |u| >= 1
      ensures |r| == |s| && r[3..] == s[3..]
    {
      [s[0] + speed * trig.cos(s[2]) * dt, s[1] + speed * trig.sin(s[2]) * dt, s[2] + u[0] * dt] + s[3..]
    }

    method Dynamics(delT: real, u: seq<real>, trig: Trig)
      requires states.Length >= 3 && |u| >= 1
      modifies states
      ensures states[..] == Step(old(states[..]), speed, u, delT, trig)
    {
      ghost var r := Step(states[..], speed, u, delT, trig);
      states[0] := states[0] + speed * trig.cos(states[2]) * delT;
      states[1] := states[1] + speed * trig.sin(states[2]) * delT;
      states[2] := states[2] + u[0] * delT;
      assert forall i | 0 <= i < states.Length :: states[i] == r[i];
      // The source follows with a wrap of the heading by 2π, guarded by
      // comparisons against `Math.pi`. JavaScript's Math has no such property
      // (the constant is `Math.PI`), so both guards compare with undefined,
      // are false, and the wrap never runs. Whether a single ±2π wrap was
      // intended is an open question.
    }

    method Update(delT: real, u: seq<real>, trig: Trig)
      requires states.Length >= 3 && |u| >= 1
      modifies states
      ensures states[..] == Step(old(states[..]), speed, u, delT, trig)
    {
      Dynamics(delT, u, trig);
    }
  }

  // ---------------------------------------------------------------------
  // Properties of the update rules

  /** The base robot's step changes nothing, whatever dt. */
  lemma RobotStepIsIdentity(s: seq<real>, dt: real)
    requires |s| >= 3
    ensures Robot.Step(s, dt) == s
  {
  }

  /**
   * The base step is in control-affine form too: no drift and no control
   * rows, matching its scalar coefficient 0, whatever the controls.
   */
  lemma RobotAffine(s: seq<real>, u: seq<real>, dt: real)
    requires |s| >= 3
    ensures Robot.Step(s, dt) == AffineStep(s[..3], Robot.Drift(s), [], u, dt) + s[3..]
    ensures forall j | 0 <= j < |u| :: dt * Robot.ControlCoefficient() * u[j] == 0.0
  {
    var a := AffineStep(s[..3], Robot.Drift(s), [], u, dt);
    assert forall i | 0 <= i < 3 :: a[i] == s[i] == Robot.Step(s, dt)[i];
  }

  /** The planar step is drift plus B·u, with B the published coefficient. */
  lemma QuadrotorAffine(s: seq<real>, u: seq<real>, dt: real)
    requires |s| >= 4 && |u| >= 2
    ensures QuadrotorRobot.Step(s, u, dt)
         == AffineStep(s[..4], QuadrotorRobot.Drift(s), QuadrotorRobot.ControlCoefficient(), u, dt) + s[4..]
  {
    var B := QuadrotorRobot.ControlCoefficient();
    var a := AffineStep(s[..4], QuadrotorRobot.Drift(s), B, u, dt);
    forall i | 0 <= i < 4
      ensures a[i] == QuadrotorRobot.Step(s, u, dt)[i]
    {
      ControlTermTwo(B, u, i);
      assert ControlTerm(B, u, i) == if i == 1 then u[0] else if i == 3 then u[1] else 0.0;
    }
  }

  /** The vertical step is drift plus B·u, with B the published coefficient. */
  lemma VerticalQuadrotorAffine(s: seq<real>, u: seq<real>, dt: real)
    requires |s| >= 2 && |u| >= 1
    ensures VerticalQuadrotorRobot.Step(s, u, dt)
         == AffineStep(s[..2], VerticalQuadrotorRobot.Drift(s), VerticalQuadrotorRobot.ControlCoefficient(), u, dt) + s[2..]
  {
    var B := VerticalQuadrotorRobot.ControlCoefficient();
    var a := AffineStep(s[..2], VerticalQuadrotorRobot.Drift(s), B, u, dt);
    forall i | 0 <= i < 2
      ensures a[i] == VerticalQuadrotorRobot.Step(s, u, dt)[i]
    {
      ControlTermOne(B, u, i);
      assert ControlTerm(B, u, i) == if i == 1 then u[0] else 0.0;
    }
  }

  /** The unicycle step is drift plus B·u, with B the published coefficient. */
  lemma DubinsAffine(s: seq<real>, speed: real, u: seq<real>, dt: real, trig: Trig)
    requires |s| >= 3 && |u| >= 1
    ensures DubinsRobot.Step(s, speed, u, dt, trig)
         == AffineStep(s[..3], DubinsRobot.Drift(s, speed, trig), DubinsRobot.ControlCoefficient(), u, dt) + s[3..]
  {
    var B := DubinsRobot.ControlCoefficient();
    var a := AffineStep(s[..3], DubinsRobot.Drift(s, speed, trig), B, u, dt);
    forall i | 0 <= i < 3
      ensures a[i] == DubinsRobot.Step(s, speed, u, dt, trig)[i]
    {
      ControlTermOne(B, u, i);
      assert ControlTerm(B, u, i) == if i == 2 then u[0] else 0.0;
    }
  }

  /** Zero-duration steps leave every variant's state unchanged. */
  lemma ZeroStepIsIdentity(s: seq<real>, speed: real, u: seq<real>, trig: Trig)
    ensures |s| >= 3 ==> Robot.Step(s, 0.0) == s
    ensures |s| >= 4 && |u| >= 2 ==> QuadrotorRobot.Step(s, u, 0.0) == s
    ensures |s| >= 2 && |u| >= 1 ==> VerticalQuadrotorRobot.Step(s, u, 0.0) == s
    ensures |s| >= 3 && |u| >= 1 ==> DubinsRobot.Step(s, speed, u, 0.0, trig) == s
  {
  }

  /** [0,0,0,0] under u = [1,0] and dt = 1, twice, ends at [1,2,0,0]. */
  lemma QuadrotorTwoSteps()
    ensures QuadrotorRobot.Step(QuadrotorRobot.Step([0.0, 0.0, 0.0, 0.0], [1.0, 0.0], 1.0), [1.0, 0.0], 1.0)
         == [1.0, 2.0, 0.0, 0.0]
  {
  }

  /** [0,0,0] at speed 1 with no turn and dt = 1 ends at [1,0,0]. */
  lemma DubinsStraightLine(trig: Trig)
    requires trig.cos(0.0) == 1.0 && trig.sin(0.0) == 0.0
    ensures DubinsRobot.Step([0.0, 0.0, 0.0], 1.0, [0.0], 1.0, trig) == [1.0, 0.0, 0.0]
  {
  }

  /**
   * The heading is θ + u[0]·dt exactly: a heading of 3.2 (beyond π) with no
   * turn stays 3.2, because the wrap in the source never runs.
   */
  lemma DubinsHeadingNotWrapped(s: seq<real>, speed: real, u: seq<real>, dt: real, trig: Trig)
    requires |s| >= 3 && |u| >= 1
    ensures DubinsRobot.Step(s, speed, u, dt, trig)[2] == s[2] + u[0] * dt
    ensures s[2] == 3.2 && u[0] == 0.0 ==> DubinsRobot.Step(s, speed, u, dt, trig)[2] == 3.2
  {
  }
}
