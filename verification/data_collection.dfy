/**
 * The trial-sequencing state machine of stagePages/Phase2/dataCollection.js:
 * the body of its interval callback (`Tick`) and of its key handler (`Key`),
 * acting on the session's clock, scaled counter, index into the list of
 * initial heights, the Dubins robot and the log of key presses ("flinches").
 *
 * The host's timers, clock, file saving and page navigation are not part of
 * the model: the elapsed wall time and the key press time are parameters, and
 * saving and navigating are reported as returned flags. The obstacle's
 * collision value is a parameter too, a function applied to the robot's state
 * after the step.
 *
 * `OnTick` and `OnKey` specify one callback each on a value snapshot of the
 * session (`Session`); the methods `Tick` and `Key` update the objects in
 * place and are proved to agree with them.
 */
module DataCollection {
  import opened RobotDynamics

  /** Wall time, in milliseconds, before the robot starts to move. */
  const WarmUpMs: int := 3000
  /** Simulated seconds per wall millisecond once the warm-up is over. */
  const TimeScale: real := 0.0005 * 4.0
  /** Every trial starts at this x. */
  const RobotX0: real := -8.0
  /** The initial heights of the trials, visited cyclically. */
  const RobotY0: seq<real> := [
    -2.0, 1.75, 0.25, 0.50, 0.0, 1.50, -0.750, -1.75, 1.75, 1.25, -1.25,
    0.750, 0.750, -2.25, 2.25, -1.50, -1.750, -0.25, -0.50, 0.0, 2.0, -1.0, 0.0, -2.0, 0.0,
    1.25, 1.0, -0.750, 0.25, -1.50, 0.50, 0.0, -1.25, -1.0, 1.50, 1.0, -0.50, 0.0, 2.0, -2.25,
    -0.25, 2.25]
  /** Key code of 'Z', the save-to-file key. */
  const SaveKey: int := 90
  /** The robot's speed after a timed reset. */
  const ResetSpeed: real := 3.0

  /** One logged key press: when, and the robot's state at that moment. */
  datatype Flinch = Flinch(date: int, state: seq<real>)

  /** A value snapshot of everything the two callbacks read or write. */
  datatype Session = Session(
    clock: int,
    counter: real,
    curY0: nat,
    states: seq<real>,
    speed: real,
    spinout: Option<real>,
    flinches: seq<Flinch>)

  datatype TickOutcome = TickOutcome(next: Session, completed: bool)
  datatype KeyOutcome = KeyOutcome(next: Session, saved: bool, completed: bool)

  /** The index stays inside the list of heights and the robot state is [x, y, θ]. */
  predicate WellFormed(s: Session, robotY0: seq<real>)
  {
    s.curY0 < |robotY0| && |s.states| == 3
  }

  /** The state a trial starts from. */
  function InitialState(robotY0: seq<real>, index: nat): (r: seq<real>)
    requires index < |robotY0|
    ensures |r| == 3 && r[0] == RobotX0 && r[1] == robotY0[index] && r[2] == 0.0
  {
    [RobotX0, robotY0[index], 0.0]
  }

  /**
   * The index after one reset, and whether it wrapped (the event that saves
   * the log and ends the session). Both resets share this rule.
   */
  function NextIndex(cur: nat, len: nat): (r: (nat, bool))
    requires cur < len
    ensures r.0 < len && r.0 == (cur + 1) % len
    ensures r.1 <==> cur + 1 == len
    ensures r.1 <==> r.0 == 0 && cur + 1 == len
  {
    if cur + 1 >= len then (0, true) else (cur + 1, false)
  }

  /**
   * A timed reset is due when the robot is past x = 1 or the trial has run
   * long enough: `3·counter > 2 − robotX0` is a counter beyond 10/3.
   */
  predicate ResetDue(states: seq<real>, counter: real): (r: bool)
    requires |states| >= 1
    ensures r <==> states[0] > 1.0 || counter > 10.0 / 3.0
  {
    states[0] > 1.0 || 3.0 * counter > 2.0 - RobotX0
  }

  /** The interval callback. */
  function OnTick(s: Session, robotY0: seq<real>, wallDelta: int, trig: Trig, collisionSetValue: seq<real> -> real): (r: TickOutcome)
    requires WellFormed(s, robotY0)
    ensures WellFormed(r.next, robotY0)
    ensures r.next.clock == s.clock + wallDelta
    ensures r.next.flinches == s.flinches
    ensures r.completed ==> s.curY0 == |robotY0| - 1 && r.next.curY0 == 0
  {
    var clock := s.clock + wallDelta;
    if clock <= WarmUpMs then
      TickOutcome(s.(clock := clock), false)
    else
      var dt := TimeScale * wallDelta as real;
      var counter := s.counter + dt;
      if counter <= 0.0 then
        TickOutcome(s.(clock := clock, counter := counter), false)
      else
        var reset := ResetDue(s.states, counter);
        var advance := NextIndex(s.curY0, |robotY0|);
        var curY0 := if reset then advance.0 else s.curY0;
        var start := if reset then InitialState(robotY0, curY0) else s.states;
        var speed := if reset then ResetSpeed else s.speed;
        var stepped := DubinsRobot.Step(start, speed, [0.0], dt, trig);
        var hit := collisionSetValue(stepped) < 0.0;
        TickOutcome(
          Session(clock, if reset then -1.0 else counter, curY0, stepped,
                  if hit then 0.0 else speed,
                  if hit then Some(0.0) else s.spinout,
                  s.flinches),
          reset && advance.1)
  }

  /** The key handler. */
  function OnKey(s: Session, robotY0: seq<real>, keyCode: int, date: int): (r: KeyOutcome)
    requires WellFormed(s, robotY0)
    ensures WellFormed(r.next, robotY0)
    ensures r.next.clock == s.clock && r.next.speed == s.speed && r.next.spinout == s.spinout
    ensures r.completed ==> r.saved && r.next.curY0 == 0
  {
    if keyCode == SaveKey then
      KeyOutcome(s, true, false)
    else
      var advance := NextIndex(s.curY0, |robotY0|);
      KeyOutcome(
        s.(flinches := s.flinches + [Flinch(date, s.states)],
           curY0 := advance.0,
           states := InitialState(robotY0, advance.0),
           counter := -1.0),
        advance.1, advance.1)
  }

  /** The page's mutable globals, gathered into one object. */
  class DataCollection {
    var clock: int
    var counter: real
    var curY0: nat
    var robot: DubinsRobot
    var flinches: seq<Flinch>
    /** The initial heights; the constructor installs the page's list. */
    const robotY0: seq<real>

    ghost predicate Valid()
      reads this, robot
    {
      curY0 < |robotY0| && robot.states.Length == 3
    }

    /** The session as a value. */
    function State(): (s: Session)
      reads this, robot, robot.states
      ensures Valid() ==> WellFormed(s, robotY0)
    {
      Session(clock, counter, curY0, robot.states[..], robot.speed, robot.spinout, flinches)
    }

    /** The robot starts at the first height, at the speed its constructor gives (1, not the 3 the page passes). */
    constructor ()
      ensures Valid() && fresh(robot) && fresh(robot.states) && robotY0 == RobotY0
      ensures State() == Session(0, -1.0, 0, InitialState(robotY0, 0), 1.0, None, [])
    {
      robotY0 := RobotY0;
      clock := 0;
      counter := -1.0;
      curY0 := 0;
      var initial := new real[3] [RobotX0, RobotY0[0], 0.0];
      robot := new DubinsRobot(initial);
      flinches := [];
    }

    method Tick(wallDelta: int, trig: Trig, collisionSetValue: seq<real> -> real) returns (completed: bool)
      requires Valid()
      modifies this, robot, robot.states
      ensures Valid() && robot == old(robot)
      ensures State() == OnTick(old(State()), robotY0, wallDelta, trig, collisionSetValue).next
      ensures completed == OnTick(old(State()), robotY0, wallDelta, trig, collisionSetValue).completed
    {
      ghost var s := State();
      ghost var r := OnTick(s, robotY0, wallDelta, trig, collisionSetValue);
      completed := false;
      clock := clock + wallDelta;
      if clock > WarmUpMs {
        var delT := TimeScale * wallDelta as real;
        counter := counter + delT;
        if counter > 0.0 {
          var u := [0.0];
          ghost var advance := NextIndex(s.curY0, |robotY0|);
          var reset := robot.states[0] > 1.0 || 3.0 * counter > 2.0 - RobotX0;
          assert reset == ResetDue(s.states, counter);
          if reset {
            curY0 := curY0 + 1;
            if curY0 >= |robotY0| {
              curY0 := 0;
              completed := true;
            }
            assert curY0 == advance.0 && completed == advance.1;
            robot.states := new real[3] [RobotX0, robotY0[curY0], 0.0];
            robot.speed := ResetSpeed;
            counter := -1.0;
          }
          ghost var start := robot.states[..];
          assert start == if reset then InitialState(robotY0, curY0) else s.states;
          robot.Update(delT, u, trig);
          assert robot.states[..] == r.next.states;
          if collisionSetValue(robot.states[..]) < 0.0 {
            robot.speed := 0.0;
            robot.spinout := Some(0.0);
          }
          assert State() == r.next;
        } else {
          assert State() == r.next;
        }
      } else {
        assert State() == r.next;
      }
    }

    method Key(keyCode: int, date: int) returns (saved: bool, completed: bool)
      requires Valid()
      modifies this, robot
      ensures Valid() && robot == old(robot)
      ensures State() == OnKey(old(State()), robotY0, keyCode, date).next
      ensures saved == OnKey(old(State()), robotY0, keyCode, date).saved
      ensures completed == OnKey(old(State()), robotY0, keyCode, date).completed
    {
      saved, completed := false, false;
      if keyCode == SaveKey {
        saved := true;
      } else {
        flinches := flinches + [Flinch(date, robot.states[..])];
        curY0 := curY0 + 1;
        if curY0 >= |robotY0| {
          saved, completed := true, true;
          curY0 := 0;
        }
        robot.states := new real[3] [RobotX0, robotY0[curY0], 0.0];
        counter := -1.0;
      }
    }
  }

  // ---------------------------------------------------------------------
  // Properties of one tick

  /** During the warm-up a tick advances the clock and nothing else. */
  lemma WarmUpTouchesOnlyClock(s: Session, robotY0: seq<real>, wallDelta: int, trig: Trig, collisionSetValue: seq<real> -> real)
    requires WellFormed(s, robotY0) && s.clock + wallDelta <= WarmUpMs
    ensures OnTick(s, robotY0, wallDelta, trig, collisionSetValue) == TickOutcome(s.(clock := s.clock + wallDelta), false)
  {
  }

  /**
   * After the warm-up the counter grows by 0.002 per wall millisecond; while
   * it is not yet positive the robot is neither reset, stepped nor checked.
   */
  lemma CounterBeforeStart(s: Session, robotY0: seq<real>, wallDelta: int, trig: Trig, collisionSetValue: seq<real> -> real)
    requires WellFormed(s, robotY0) && s.clock + wallDelta > WarmUpMs
    requires s.counter + 0.002 * wallDelta as real <= 0.0
    ensures OnTick(s, robotY0, wallDelta, trig, collisionSetValue)
         == TickOutcome(s.(clock := s.clock + wallDelta, counter := s.counter + 0.002 * wallDelta as real), false)
  {
  }

  /**
   * A tick with a timed reset: the index advances (wrapping, and then
   * completing the session), the counter restarts at -1, and the robot is
   * stepped once from the fresh initial state at speed 3 before the
   * collision check, which may then stop it.
   */
  lemma TimedResetThenStep(s: Session, robotY0: seq<real>, wallDelta: int, trig: Trig, collisionSetValue: seq<real> -> real)
    requires WellFormed(s, robotY0) && s.clock + wallDelta > WarmUpMs
    requires var c := s.counter + TimeScale * wallDelta as real; c > 0.0 && ResetDue(s.states, c)
    ensures var r := OnTick(s, robotY0, wallDelta, trig, collisionSetValue);
      var advance := NextIndex(s.curY0, |robotY0|);
      && r.next.curY0 == advance.0
      && r.completed == advance.1
      && r.next.counter == -1.0
      && r.next.states == DubinsRobot.Step(InitialState(robotY0, advance.0), ResetSpeed, [0.0], TimeScale * wallDelta as real, trig)
      && r.next.speed == (if collisionSetValue(r.next.states) < 0.0 then 0.0 else ResetSpeed)
      && r.next.spinout == (if collisionSetValue(r.next.states) < 0.0 then Some(0.0) else s.spinout)
  {
  }

  /**
   * A running tick without a reset: the index and the session stay, and the
   * robot is stepped from where it is at its current speed.
   */
  lemma RunningStep(s: Session, robotY0: seq<real>, wallDelta: int, trig: Trig, collisionSetValue: seq<real> -> real)
    requires WellFormed(s, robotY0) && s.clock + wallDelta > WarmUpMs
    requires var c := s.counter + TimeScale * wallDelta as real; c > 0.0 && !ResetDue(s.states, c)
    ensures var r := OnTick(s, robotY0, wallDelta, trig, collisionSetValue);
      && r.next.curY0 == s.curY0
      && !r.completed
      && r.next.counter == s.counter + TimeScale * wallDelta as real
      && r.next.states == DubinsRobot.Step(s.states, s.speed, [0.0], TimeScale * wallDelta as real, trig)
      && r.next.speed == (if collisionSetValue(r.next.states) < 0.0 then 0.0 else s.speed)
      && r.next.spinout == (if collisionSetValue(r.next.states) < 0.0 then Some(0.0) else s.spinout)
  {
  }

  /** A stopped robot stays stopped on every tick that does not bring a timed reset. */
  lemma StoppedUntilTimedReset(s: Session, robotY0: seq<real>, wallDelta: int, trig: Trig, collisionSetValue: seq<real> -> real)
    requires WellFormed(s, robotY0) && s.speed == 0.0
    requires var c := s.counter + TimeScale * wallDelta as real;
      !(s.clock + wallDelta > WarmUpMs && c > 0.0 && ResetDue(s.states, c))
    ensures OnTick(s, robotY0, wallDelta, trig, collisionSetValue).next.speed == 0.0
  {
  }

  // ---------------------------------------------------------------------
  // Properties of one key press

  /** 'Z' only asks for a save; the session is unchanged. */
  lemma SaveKeyChangesNothing(s: Session, robotY0: seq<real>, date: int)
    requires WellFormed(s, robotY0)
    ensures OnKey(s, robotY0, SaveKey, date) == KeyOutcome(s, true, false)
  {
  }

  /**
   * Any other key logs exactly one record holding the pre-reset state,
   * advances the index by the same rule as a timed reset, restarts the
   * trial and the counter, and leaves the clock and the speed alone.
   */
  lemma KeyResetsAndLogs(s: Session, robotY0: seq<real>, keyCode: int, date: int)
    requires WellFormed(s, robotY0) && keyCode != SaveKey
    ensures var r := OnKey(s, robotY0, keyCode, date);
      var advance := NextIndex(s.curY0, |robotY0|);
      && r.next == s.(flinches := s.flinches + [Flinch(date, s.states)],
                      curY0 := advance.0, states := InitialState(robotY0, advance.0), counter := -1.0)
      && |r.next.flinches| == |s.flinches| + 1
      && r.completed == advance.1 && r.saved == advance.1
  {
  }

  // ---------------------------------------------------------------------
  // The reset sequence

  /** The index after k resets from `start`. */
  function IndexAfter(start: nat, k: nat, len: nat): (i: nat)
    requires start < len
    ensures i < len
  {
    if k == 0 then start else NextIndex(IndexAfter(start, k - 1, len), len).0
  }

  /** How many of the first k resets from `start` completed the session. */
  function Completions(start: nat, k: nat, len: nat): (n: nat)
    requires start < len
  {
    if k == 0 then 0
    else Completions(start, k - 1, len) + if NextIndex(IndexAfter(start, k - 1, len), len).1 then 1 else 0
  }

  /**
   * k resets from `start` move the index k places around the cycle, and
   * every full turn is one completion: index + len·completions == start + k.
   */
  lemma {:induction false} ResetCycle(start: nat, k: nat, len: nat)
    requires start < len
    ensures IndexAfter(start, k, len) + len * Completions(start, k, len) == start + k
  {
    if k > 0 {
      ResetCycle(start, k - 1, len);
      var c := Completions(start, k - 1, len);
      if IndexAfter(start, k - 1, len) + 1 == len {
        assert len * (c + 1) == len * c + len;
      }
    }
  }

  /**
   * From the first height, the 42nd reset is the first to complete the
   * session and brings the index back to 0; the 43rd does not complete it
   * again.
   */
  lemma SessionCompletesOnce()
    ensures Completions(0, |RobotY0| - 1, |RobotY0|) == 0
    ensures Completions(0, |RobotY0|, |RobotY0|) == 1 && IndexAfter(0, |RobotY0|, |RobotY0|) == 0
    ensures Completions(0, |RobotY0| + 1, |RobotY0|) == 1
  {
    var n := |RobotY0|;
    ResetCycle(0, n - 1, n);
    ResetCycle(0, n, n);
    ResetCycle(0, n + 1, n);
  }
}
