# Docking behaviour engine — a Dafny model

This project models the decision logic of the docking action server of a
mobile robot (`commander/action_server_docking_final.py`). Given a target
carrier marker id, the node scans left and right until the marker is in view,
then steers on the marker's pose with a PID controller until a completion
test passes.

The model is functional. The module globals and node fields become one
immutable record, `EngineState.Engine`:

- the shared PID memory (`integral`, `derivative`, `last_error`);
- the search globals (`directionLookLeft`, `searchPeriod`, `newTime`, `time_begin`, `startSearch`);
- the node fields (`startDocking`, `arucoMarkerID`, `dockSucced`);
- the two velocity vectors of the motor publisher.

Every behaviour is a pure step function over that record. Python floats are
Dafny `real`. The current time is a parameter.

Modules:

- `EngineState` (`engine_state.dfy`): the state record, the tuning constants and the state at module load.
- `Pid` (`pid.dfy`): one PID call; runs of consecutive calls on the shared memory; their closed form.
- `Search` (`search.dfy`): `searchForAruco` with `turnLeft`/`turnRight`; runs of search calls.
- `Control` (`control.dfy`): `controlDocking` with its saturation, completion test and output shaping, and `startFeeder`.
- `Dispatch` (`dispatch.dfy`): the per-frame choice between `controlDocking` and `searchForAruco`, written as a fold over the detections.
- `Goal` (`goal.dfy`): the branches of the execute callback and the docking loop's success exit.

The model keeps the quirks of the code:

- One PID memory is shared by the angle, x and z axes and by every goal, and no request resets it.
- `controlDocking` reads the pose of the first detection, whichever entry matched.
- The rotation vector's x component serves as the angle.
- The completion test is one-sided. It compares the errors and PID outputs against the target pose components.
- `controlDocking` never writes the linear command, and the search turns set it to zero, so it is always zero (`Goal.AcceptedGoalNeverDrives`).
- `startFeeder` never raises `dockSucced`, so the docking loop never exits.

## Model

| member | source | states |
|---|---|---|
| `EngineState.InitialEngine` | commander/action_server_docking_final.py:23-52 | after the module loads and the node is constructed, the PID memory is zero, the node is idle with target 0 and `dockSucced` false, the search looks right with period 6 and its first call restarts the clock, and both velocity vectors are zero |
| `Pid.Step` | commander/action_server_docking_final.py:219-224 | one PID call adds the error to the shared integral, sets the derivative to the error minus the previous last error, stores the error as the last error, and returns `Kp*e + Ki*integral' + Kd*derivative'` on the updated memory; over several calls see `Pid.RunState` and `Pid.RunOutputAt` |
| `Pid.FirstStepFromRest` | commander/action_server_docking_final.py:219-224 | from all-zero memory one call returns `(Kp+Ki+Kd)*e` and leaves integral, derivative and last error all equal to `e` |
| `Pid.RunState` | commander/action_server_docking_final.py:219-224 | after consecutive calls the integral is the initial integral plus the sum of all errors; the last error is the last call's error; the derivative is that call's difference |
| `Pid.RunOutputAt` | commander/action_server_docking_final.py:219-224 | the n-th output of consecutive calls equals `Kp*e_n + Ki*(I0 + e_0 + … + e_n) + Kd*(e_n - e_{n-1})`, where `e_{-1}` is the memory's last error |
| `Search.Step` | commander/action_server_docking_final.py:184-215 | a call flips direction iff it is not a restart (a restart flips only when the stored period is negative, which `Search.Valid` rules out) and more than the window (3 s while `startSearch`, else 6 s) has elapsed since `time_begin`; a flipping call writes no velocity, sets up a restart and ends the short window for good; any other call turns left `(0,0,0.5)` or right `(0,0,-0.5)` with zero linear velocity; a restart sets `time_begin` to now and keeps the stored period, any other call stores the window it used as the period |
| `Search.SearchForAruco` | commander/action_server_docking_final.py:178-201 | a search call changes only the search globals and the publisher; the PID memory and the node fields are untouched |
| `Search.InitialValid` | commander/action_server_docking_final.py:23-27 | the globals at load time are a valid search state that starts with a restart in the short window |
| `Search.StepPreservesValid` | commander/action_server_docking_final.py:184-196 | the period stays 3 or 6 and no flip happens while the short window is in use; once `startSearch` is false it stays false |
| `Search.RestartNeverFlips` | commander/action_server_docking_final.py:184-192 | a call with `newTime` set restarts the clock at now, cannot flip and keeps turning the current way |
| `Search.WindowAfterRestart` | commander/action_server_docking_final.py:184-195 | after a restart at `t0`, the next call at `t1` flips iff `t1 - t0` exceeds 3 s before the first flip, or 6 s after it |
| `Search.NoTwoFlipsInARow` | commander/action_server_docking_final.py:192-196 | a call that follows a flipping call never flips |
| `Search.Run` | commander/action_server_docking_final.py:178-201 | repeated `searchForAruco` calls at the given times, in order; a run flips at most once per call, and an empty run changes nothing |
| `Search.RunPreservesValid` | commander/action_server_docking_final.py:184-196 | any run of search calls keeps the search state valid |
| `Search.RunDirection` | commander/action_server_docking_final.py:196 | after a run the direction is the initial one, inverted iff the number of flips is odd |
| `Search.RunFlipBound` | commander/action_server_docking_final.py:192-196 | n search calls flip at most `(n+1)/2` times, and at most `n/2` times when the first call is a restart, however far apart the calls are |
| `Search.SevenSecondsOneFlip` | commander/action_server_docking_final.py:184-201 | from load time, three search calls at `t`, any `t2` and `t+7` flip exactly once, at the second call if `t2 - t > 3` and at the third otherwise; the robot then looks left and the short window is over |
| `Control.Abs` | commander/action_server_docking_final.py:261 | the absolute value is non-negative and equals the input or its negation |
| `Control.Saturate` | commander/action_server_docking_final.py:244-257 | the clamped value lies in `[-limit, limit]`; it equals the input when the input is in range and the nearer bound otherwise |
| `Control.SaturateAbove` | commander/action_server_docking_final.py:262-264 | the clamped value is at most the limit; it equals the input when the input is in range and the limit otherwise |
| `Control.StillDocking` | commander/action_server_docking_final.py:266 | the in-progress test holds iff `angleDiff > 0`, `pidX > 0` or `pidZ > 0.10`; it is one-sided, so any negative angle error and x output with `pidZ <= 0.10` count as docked |
| `Control.ControlDocking` | commander/action_server_docking_final.py:227-279 | the errors come from the first detection's pose, with the rotation x component as the angle; the bounds `-0.10 ≤ turnSpeedZ ≤ 0.10`, `-0.07 ≤ driveSpeedX ≤ 0.07` and `0 ≤ driveSpeedZ ≤ 0.07` hold, each speed is the raw PID output clamped to the nearer bound (`Control.Saturate` for turn and x, `Control.SaturateAbove` for z), so it equals the output when in range and the bound otherwise, never a rescaled value; the integral grows by `angleDiff + distanceX + distanceZ` and the last error becomes `distanceZ`; the in-progress branch is taken iff `angleDiff > 0`, `pidX > 0` or `pidZ > 0.10`, and it writes `angularVec = (pidAngle, pidAngle, -turnSpeedZ)`; the linear vector never changes; the completion branch changes nothing, and `dockSucced` is never raised |
| `Control.StartFeeder` | commander/action_server_docking_final.py:277-279 | `startFeeder` leaves the engine unchanged; in particular `dockSucced` keeps its value, because the assignment at line 278 is commented out |
| `Control.ControlIsOnePidRun` | commander/action_server_docking_final.py:241-261 | the three PID outputs and the memory left behind are those of one run of the shared memory over the angle, x and z samples, in that order |
| `Control.SharedMemoryCoupling` | commander/action_server_docking_final.py:241-261 | with integral `I` and last error `L` on entry, the x output differences the x error against the angle error, and the z output differences the z error against the x error; both integrate the errors of the earlier axes |
| `Control.AtTargetFromRestCompletes` | commander/action_server_docking_final.py:266-279 | from zero memory, a marker seen exactly at the target pose passes the completion test; the publisher and `dockSucced` are unchanged |
| `Control.CompletionDependsOnHistory` | commander/action_server_docking_final.py:266 | the same pose (angle -1, at the target distance) seen twice from zero memory completes the first time and not the second |
| `Dispatch.Scan` | commander/action_server_docking_final.py:88-97 | visiting the detections never changes the node fields and makes at most one call per entry |
| `Dispatch.Frame` | commander/action_server_docking_final.py:83-100 | one frame leaves the node fields unchanged; an empty frame makes exactly one search call, and a non-empty frame makes between one call and one call per entry |
| `Dispatch.ScanCalls` | commander/action_server_docking_final.py:88-97 | from any entry on, the calls are one search per non-matching entry before the first match (none once a match was seen), then one control call per matching entry |
| `Dispatch.FrameCalls` | commander/action_server_docking_final.py:83-100 | an empty frame makes one search call; otherwise the calls are `k` searches then `m` control calls, where `k` is the index of the first match (or the frame length) and `m` the number of matching entries; no search follows a control call |
| `Dispatch.ScanWithoutMatchKeepsPid` | commander/action_server_docking_final.py:88-97 | visiting entries none of which matches leaves the PID memory unchanged |
| `Dispatch.FrameWithoutMatchKeepsPid` | commander/action_server_docking_final.py:83-100 | a frame without the target id leaves the PID memory unchanged |
| `Dispatch.ScanFirstPoseOnly` | commander/action_server_docking_final.py:89-97 | from any entry on, the visits depend only on the ids and the first entry |
| `Dispatch.FrameFirstPoseOnly` | commander/action_server_docking_final.py:89-97 | two frames with the same ids and the same first entry give the same result, because `controlDocking` reads `rvecs[0]`/`tvecs[0]`; the poses of later entries, the matching one included, have no effect |
| `Dispatch.StrayMarkerFirst` | commander/action_server_docking_final.py:89-97 | with a stray marker ahead of the target, the frame makes one search call, then one control call that steers on the stray marker's pose |
| `Dispatch.ScanPreservesValid` | commander/action_server_docking_final.py:88-97 | visiting the detections keeps the search state valid |
| `Dispatch.FramePreservesValid` | commander/action_server_docking_final.py:83-100 | every frame keeps the search state valid |
| `Dispatch.ScanKeepsLinearZero` | commander/action_server_docking_final.py:88-97 | a zero linear command stays zero over the visits from any entry on |
| `Dispatch.FrameKeepsLinearZero` | commander/action_server_docking_final.py:83-100 | a zero linear command stays zero through any frame: the search turns write zero (lines 206 and 213) and `controlDocking` does not write it |
| `Goal.ExecuteGoal` | commander/action_server_docking_final.py:59-114 | a start request with feeder id 1 sets `(startDocking, arucoMarkerID, dockSucced) = (true, carrier_id, false)`, creates a publisher with zero vectors and enters the loop; a stop request clears `startDocking` and the target id and returns `docked = false`; a start for another feeder changes nothing and returns `docked = false`; no branch touches the PID or search state |
| `Goal.Iteration` | commander/action_server_docking_final.py:77-109 | one loop iteration never changes the node fields, and it takes the success exit iff `dockSucced` was already true before the frame |
| `Goal.RunLoop` | commander/action_server_docking_final.py:77-109 | over a finite prefix of frames the node fields stay unchanged, and the loop leaves with success iff there is a frame and `dockSucced` was already true |
| `Goal.RunLoopKeepsNode` | commander/action_server_docking_final.py:77-109 | with `dockSucced` false, any finite sequence of frames keeps the loop running and leaves the node fields unchanged |
| `Goal.AcceptedGoalNeverSucceeds` | commander/action_server_docking_final.py:102-109 | after an accepted start request, the docking loop never takes its success exit, whatever frames arrive |
| `Goal.RunLoopKeepsLinearZero` | commander/action_server_docking_final.py:77-100 | a running loop keeps a zero linear command at zero, whatever frames arrive |
| `Goal.AcceptedGoalNeverDrives` | commander/action_server_docking_final.py:59-100 | after an accepted start request the linear command stays zero through every frame, so the robot only turns |
| `Goal.RunLoopPreservesValid` | commander/action_server_docking_final.py:77-100 | a running loop keeps the search state valid |
| `Goal.GoalInheritsControllerState` | commander/action_server_docking_final.py:59-114 | a second accepted goal, after the frames of a first, starts from the PID memory and the (still valid) search state those frames left; only the node fields and the publisher (a new one with zero vectors) are reset |

## Left out

- ROS 2 plumbing is not modelled: node and action server construction, goal handles, feedback and result publishing, logging and `print`, and `main`'s spin loop. It is framework I/O.
- The 100 Hz timer of `MinimalPublisher` and `rclpy.spin_once` are not modelled. They are transport and concurrency; the two velocity vectors are plain state fields.
- Camera capture, marker detection, pose estimation and drawing are OpenCV calls. A frame is given as a sequence of `(id, rvec, tvec)`.
- `load_coefficients` is file I/O.
- The unbounded `while True` loop is modelled over finite prefixes of its frames only (`Goal.RunLoop`).
- IEEE-754 rounding is not modelled; floats are reals.
- `time.time()` is not modelled; each frame is processed at one given time `now`. A restarting `searchForAruco` call reads the clock twice (lines 185 and 192), any other call once (line 192). The model gives every reading in a frame the same `now`, so a restarting call sees zero elapsed time.
- The `is not` identity test on line 96 is taken as always true once `==` has failed, so that branch reduces to `not hasSeenAruco`. `np.invert` on the direction flag is taken as boolean negation.
- Cancellation is not modelled because the code does not implement it. The callback blocks in its loop, and nothing checks for a cancel.
- `completedDocking`, `arucoIDSearcher` and `driveSpeed` are not modelled. They are declared but never written by the modelled code.
- The integer id comparison on line 93 compares a one-element id array with an int. It is modelled as plain integer equality.

## Behaviour worth knowing

These are properties of the code as written that a reader of a docking controller might not expect. The model keeps them.

- One PID memory serves all axes and all goals, and it is never reset between goals (`Control.SharedMemoryCoupling`, `Goal.GoalInheritsControllerState`).
- A first PID call from zero memory returns `(Kp+Ki+Kd)*e`, not `Kp*e`. The integral already includes the current error, and the derivative differences against zero (`Pid.FirstStepFromRest`).
- The completion test is one-sided and compares against the target pose components instead of a tolerance band around zero. It also depends on the PID history, not only on the observation (`Control.CompletionDependsOnHistory`).
- When the completion test passes, the code only prints, so the docking loop never ends (`Goal.AcceptedGoalNeverSucceeds`).
- The pose of the first detection drives the controller, not the pose of the matching marker (`Dispatch.FrameFirstPoseOnly`, `Dispatch.StrayMarkerFirst`).
- The depth and lateral outputs are computed but never published. The linear command stays zero (`Goal.AcceptedGoalNeverDrives`).
