# Robot dynamics and trial sequencing, modelled in Dafny

This project models the numerical core of a browser experiment in which a
participant watches a simulated robot drive towards an obstacle and presses a
key when they would intervene ("flinch"). Two pieces are modelled.

- **The robot family** (`robot_dynamics.dfy`, module `RobotDynamics`). There
  are four discrete-time forward-Euler update rules, each a class over a mutable
  `array<real>` state:
  - `Robot`: the abstract base, whose step is a no-op.
  - `QuadrotorRobot`: a planar double integrator `[x, vx, y, vy]`.
  - `VerticalQuadrotorRobot`: a vertical double integrator `[y, vy]`.
  - `DubinsRobot`: a unicycle `[x, y, θ]` with a mutable `speed`.

  Each `Dynamics` method updates the array in place, element by element and in
  the source's order. Each is proved equal to a static `Step` function of the
  old contents. Each variant also exposes its `Drift` and its constant
  `ControlCoefficient`. For the base `Robot` the coefficient is the scalar 0;
  the other three give one row per control input. The lemmas (`RobotAffine`,
  `QuadrotorAffine`, `VerticalQuadrotorAffine`, `DubinsAffine`) prove that
  every step is control-affine, `new = old + dt·Drift(old) + dt·Σ_j u[j]·B[j]`,
  which is the form the safety controller needs. `Math.cos` and `Math.sin` are the
  two functions of a `Trig` value and are left uninterpreted.
- **The trial sequencer** (`data_collection.dfy`, module `DataCollection`).
  This is the Phase 2 data-collection page: its interval callback and its key
  handler.
  - The page's globals (`clock`, `counter`, `curY0`, the robot, the flinch log)
    become the fields of one `DataCollection` object.
  - Its methods `Tick` and `Key` update those fields in place. Each is proved
    to agree with a spec function (`OnTick`, `OnKey`) on a value snapshot
    `Session`.
  - The list of 42 initial heights is a constant field that the constructor
    sets to the page's list. The spec functions take it as a parameter.
  - Saving the log and leaving the page are returned as flags (`saved`,
    `completed`).
  - The elapsed wall time, the time of a key press and the obstacle's collision
    value are inputs. The collision value is a function that `Tick` applies to
    the robot's state after the step.

In a few places the code does not do what its comments or the intended design say; the model follows the code:

- The unicycle's heading wrap compares against `Math.pi`, which is undefined in
  JavaScript, so it never runs. The heading is exactly `θ + u[0]·dt`, and a
  heading of 3.2 is not reduced to 3.2 − 2π (`DubinsHeadingNotWrapped`).
  Whether a single ±2π wrap was intended is an open question.
- `DubinsRobot`'s constructor always starts at speed 1. The page passes 3 and
  other arguments, and the constructor ignores them.
- `update` does not validate the length of the control vector; there is no
  dimension-mismatch error. The model requires enough controls instead.
- The page reports completion every time the index wraps, not once per
  session. In the browser it then leaves the page, so a second wrap is never
  reached. `SessionCompletesOnce` proves that, starting from the first height,
  only the 42nd reset completes and the 43rd does not.

## Model

| member | source | states |
|---|---|---|
| `RobotDynamics.Robot.constructor` | robot_dynamics.js:23-32 | a fresh state array holding [0, 0, 0] |
| `RobotDynamics.Robot.Dynamics` | robot_dynamics.js:5-9 | the array's new contents are `Robot.Step` of the old ones (each element plus 0·dt) |
| `RobotDynamics.Robot.Update` | robot_dynamics.js:34-37 | update is the dynamics step (display left out) |
| `RobotDynamics.Robot.ControlCoefficient` | robot_dynamics.js:12-14 | the base coefficient is the scalar 0 |
| `RobotDynamics.RobotAffine` | robot_dynamics.js:5-14 | the base step is affine with zero drift and no control rows, and the scalar coefficient times any control is 0 |
| `RobotDynamics.RobotStepIsIdentity` | robot_dynamics.js:5-14 | the base robot's step leaves the state unchanged for every dt |
| `RobotDynamics.QuadrotorRobot.constructor` | robot_dynamics.js:64-73 | the robot keeps the caller's array itself (aliasing), not a copy |
| `RobotDynamics.QuadrotorRobot.ControlCoefficient` | robot_dynamics.js:50-52 | two rows (one per control) of four columns; control j drives only velocity 2j+1 |
| `RobotDynamics.QuadrotorRobot.Step` | robot_dynamics.js:43-48 | the step keeps the array length and every element past the fourth |
| `RobotDynamics.QuadrotorRobot.Dynamics` | robot_dynamics.js:43-48 | in-place update equals `Step` of the old contents: positions advance with the pre-step velocities |
| `RobotDynamics.QuadrotorRobot.Update` | robot_dynamics.js:34-37 | update is the dynamics step |
| `RobotDynamics.QuadrotorAffine` | robot_dynamics.js:43-51 | the planar step is old + dt·drift + dt·Σ u[j]·B[j] with B the published coefficient |
| `RobotDynamics.QuadrotorTwoSteps` | robot_dynamics.js:43-48 | [0,0,0,0] with u=[1,0], dt=1, stepped twice, gives [1,2,0,0] |
| `RobotDynamics.VerticalQuadrotorRobot.constructor` | robot_dynamics.js:98-107 | the robot keeps the caller's array itself |
| `RobotDynamics.VerticalQuadrotorRobot.ControlCoefficient` | robot_dynamics.js:84-86 | one row [0, 1]: the control drives only the velocity |
| `RobotDynamics.VerticalQuadrotorRobot.Step` | robot_dynamics.js:79-82 | only the first two elements change; length and everything after are kept |
| `RobotDynamics.VerticalQuadrotorRobot.Dynamics` | robot_dynamics.js:79-82 | in-place update equals `Step` of the old contents; the robot's fields are untouched (frame) |
| `RobotDynamics.VerticalQuadrotorRobot.Update` | robot_dynamics.js:34-37 | update is the dynamics step |
| `RobotDynamics.VerticalQuadrotorAffine` | robot_dynamics.js:79-86 | the vertical step is old + dt·drift + dt·u[0]·B[0] |
| `RobotDynamics.DubinsRobot.constructor` | robot_dynamics.js:139-149 | a fresh copy of the initial state, speed 1, no spinout |
| `RobotDynamics.DubinsRobot.ControlCoefficient` | robot_dynamics.js:126-128 | one row [0, 0, 1]: the control drives only the heading |
| `RobotDynamics.DubinsRobot.Step` | robot_dynamics.js:113-124 | the step keeps the array length and every element past the third |
| `RobotDynamics.DubinsRobot.Dynamics` | robot_dynamics.js:113-124 | in-place update equals `Step` of the old contents; x and y move along the pre-step heading; speed is never changed |
| `RobotDynamics.DubinsRobot.Update` | robot_dynamics.js:34-37 | update is the dynamics step |
| `RobotDynamics.DubinsAffine` | robot_dynamics.js:113-128 | the unicycle step is old + dt·drift(speed, θ) + dt·u[0]·B[0] |
| `RobotDynamics.ZeroStepIsIdentity` | robot_dynamics.js:5-123 | a step with dt = 0 leaves the state unchanged, for each variant whose state and control vectors have that variant's dimensions |
| `RobotDynamics.DubinsStraightLine` | robot_dynamics.js:113-116 | [0,0,0] at speed 1 with u=[0], dt=1 gives [1,0,0] (given cos 0 = 1, sin 0 = 0) |
| `RobotDynamics.DubinsHeadingNotWrapped` | robot_dynamics.js:116-123 | the new heading is exactly θ + u[0]·dt; 3.2 with no turn stays 3.2 |
| `DataCollection.NextIndex` | stagePages/Phase2/dataCollection.js:76-82 | the next index is (cur+1) mod length, and it wraps (completing the session) exactly when cur+1 reaches the length |
| `DataCollection.InitialState` | stagePages/Phase2/dataCollection.js:83 | a trial starts at [−8, robotY0[i], 0] |
| `DataCollection.ResetDue` | stagePages/Phase2/dataCollection.js:75 | the timed reset fires iff x > 1 or the counter exceeds 10/3 |
| `DataCollection.OnTick` | stagePages/Phase2/dataCollection.js:63-98 | a tick keeps the index in range and the state of length 3, adds the wall delta to the clock, never logs, and completes only when leaving the last height for index 0 |
| `DataCollection.OnKey` | stagePages/Phase2/dataCollection.js:110-146 | a key press keeps the index in range and never changes the clock, the speed or the spinout; completing implies saving and index 0 |
| `DataCollection.DataCollection.constructor` | stagePages/Phase2/dataCollection.js:41-61 | clock 0, counter −1, index 0, robot at [−8, first height, 0] with speed 1, empty log |
| `DataCollection.DataCollection.Tick` | stagePages/Phase2/dataCollection.js:63-98 | the in-place update of all fields equals `OnTick` of the old snapshot, and the index invariant is kept |
| `DataCollection.DataCollection.Key` | stagePages/Phase2/dataCollection.js:110-146 | the in-place update equals `OnKey` of the old snapshot, and the index invariant is kept |
| `DataCollection.WarmUpTouchesOnlyClock` | stagePages/Phase2/dataCollection.js:64-68 | while the clock stays ≤ 3000 ms a tick changes only the clock |
| `DataCollection.CounterBeforeStart` | stagePages/Phase2/dataCollection.js:68-71 | after warm-up the counter grows by 0.002·wallDelta; while it is ≤ 0 there is no reset, step or collision check |
| `DataCollection.TimedResetThenStep` | stagePages/Phase2/dataCollection.js:75-92 | on a timed reset the index advances by the wrap rule, the counter becomes −1, and the robot is stepped once from the fresh start at speed 3 before the collision check; a negative collision value sets speed 0 and spinout 0, otherwise the spinout is kept |
| `DataCollection.RunningStep` | stagePages/Phase2/dataCollection.js:88-92 | without a reset the robot is stepped from where it is at its current speed; a negative collision value sets speed 0 and spinout 0, otherwise the spinout is kept |
| `DataCollection.StoppedUntilTimedReset` | stagePages/Phase2/dataCollection.js:85-92 | a robot at speed 0 stays at 0 on every tick without a timed reset |
| `DataCollection.SaveKeyChangesNothing` | stagePages/Phase2/dataCollection.js:115-118 | key 90 ('Z') raises a save and changes no state |
| `DataCollection.KeyResetsAndLogs` | stagePages/Phase2/dataCollection.js:119-146 | any other key appends exactly one record with the pre-reset state, advances the index by the wrap rule, resets the state and the counter, and changes nothing else |
| `DataCollection.IndexAfter` | stagePages/Phase2/dataCollection.js:76-78 | after any number of resets the index is inside the list |
| `DataCollection.ResetCycle` | stagePages/Phase2/dataCollection.js:76-82 | k resets move the index k places around the cycle: index + length·completions = start + k |
| `DataCollection.SessionCompletesOnce` | stagePages/Phase2/dataCollection.js:41-44 | from the first of the 42 heights, the 42nd reset is the first to complete and returns the index to 0; the 43rd does not complete again |

## Left out

- Rendering: every `displayState`, the sprite fields (position, rotation, pivot, size), the renderer, the stage and the countdown text.
- The obstacle's collision function (`RoundObstacle.collisionSetValue`) is not part of this model. `Tick` takes it as a function argument and applies it to the stepped state.
- The host's timers and clock (`setInterval`, `Date.now`): the elapsed wall time and the key press time are parameters.
- Persistence and navigation (`Blob`, `saveAs`, `document.location.href`): these become the returned `saved` and `completed` flags.
- The optional cloud upload: it is switched off by a constant 0 in the source. The participant's address and console logging are also left out.
- sourceJS/recording.js: it only initialises empty telemetry containers and has no logic.
- The key reset's `robot.update(0, 0)`. In JavaScript the control `0` has no element 0, so the heading becomes NaN. This cannot be expressed over `real`. The model's key reset assigns the fresh state `[−8, y, 0]` and does not step. What this costs: on the page, the first running tick after a key press computes `speed·cos(NaN)·dt`, so x and y become NaN as well, even at speed 0. `x > 1` is then never true, so that trial ends only when `3·counter > 10`. The collision function receives a NaN state, and every flinch logged during that trial records a NaN state. Until the next timed reset, the model instead runs an ordinary trial from `[−8, y, 0]`, which differs from the page's.
- IEEE double rounding and the real cosine and sine: the model uses exact `real` arithmetic, and `Trig` holds arbitrary functions.
- Arrays shorter than a variant's state dimension: JavaScript would grow them and produce NaN. Each `Dynamics` instead requires the array to be at least as long as the variant's state, and the control vector to be at least as long as its control dimension.
- The `spinout` property starts out undefined in the source. The model writes that as `None`.
