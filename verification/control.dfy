/** controlDocking: turn the pose of a detected marker into a turn command.
    Three PID calls (angle, lateral x, depth z) chain through the one shared
    PID memory; each output is saturated; a one-sided test decides whether the
    robot is still docking, and only then is the angular vector written. */
module Control {
  import opened EngineState
  import Pid

  /** Python's `abs` on a float. */
  function Abs(x: real): (r: real)
    ensures r >= 0.0
    ensures r == x || r == -x
  {
    if x < 0.0 then -x else x
  }

  /** The two-sided clamp applied to the angle and x outputs. */
  function Saturate(v: real, limit: real): (r: real)
    requires limit >= 0.0
    ensures -limit <= r <= limit
    ensures -limit <= v <= limit ==> r == v
    ensures v > limit ==> r == limit
    ensures v < -limit ==> r == -limit
  {
    if v > limit then limit else if v < -limit then -limit else v
  }

  /** The upper clamp applied to the already non-negative z output. */
  function SaturateAbove(v: real, limit: real): (r: real)
    ensures r <= limit
    ensures v <= limit ==> r == v
    ensures v > limit ==> r == limit
    ensures v >= 0.0 && limit >= 0.0 ==> r >= 0.0
  {
    if v > limit then limit else v
  }

  /** The intermediate values of one controlDocking call. `pidZ` is the
      absolute value of the z output, as in `controlDocking`; `driveSpeedX` and
      `driveSpeedZ` are computed but never published. */
  datatype Report = Report(
    angleDiff: real, distanceX: real, distanceZ: real,
    pidAngle: real, pidX: real, pidZ: real,
    turnSpeedZ: real, driveSpeedX: real, driveSpeedZ: real,
    inProgress: bool)

  datatype Result = Result(engine: Engine, report: Report)

  /** The one-sided completion test: the robot is still docking while the
      angle error or the x output is positive, or the z output exceeds the
      target distance. */
  function StillDocking(angleDiff: real, pidX: real, pidZ: real): (b: bool)
    ensures b <==> angleDiff > 0.0 || pidX > 0.0 || pidZ > 0.10
    ensures angleDiff < 0.0 && pidX < 0.0 && pidZ <= 0.10 ==> !b
  {
    angleDiff > TargetDockingAng.z || pidX > TargetDockingPos.x || pidZ > TargetDockingPos.z
  }

  /** The three PID samples of one call, in call order. */
  function Samples(angleDiff: real, distanceX: real, distanceZ: real): (xs: seq<Pid.Sample>)
    ensures |xs| == 3
  {
    [Pid.Sample(angleDiff, Pid.AngleGains),
     Pid.Sample(distanceX, Pid.DistanceXGains),
     Pid.Sample(distanceZ, Pid.DistanceZGains)]
  }

  /** One controlDocking call on a non-empty frame. Whatever entry matched the
      target, the pose read is the first entry's, and the rotation's x
      component serves as the angle. */
  function ControlDocking(e: Engine, dets: seq<Detection>): (r: Result)
    requires |dets| > 0
    // pose selection
    ensures r.report.angleDiff == dets[0].rvec.x - TargetDockingAng.z
    ensures r.report.distanceX == dets[0].tvec.x - TargetDockingPos.x
    ensures r.report.distanceZ == dets[0].tvec.z - TargetDockingPos.z
    // saturation
    ensures -MaxTurnSpeed <= r.report.turnSpeedZ <= MaxTurnSpeed
    ensures -MaxSpeedX <= r.report.driveSpeedX <= MaxSpeedX
    ensures 0.0 <= r.report.driveSpeedZ <= MaxSpeedZ
    ensures -MaxTurnSpeed <= r.report.pidAngle <= MaxTurnSpeed ==> r.report.turnSpeedZ == r.report.pidAngle
    ensures -MaxSpeedX <= r.report.pidX <= MaxSpeedX ==> r.report.driveSpeedX == r.report.pidX
    ensures r.report.pidZ <= MaxSpeedZ ==> r.report.driveSpeedZ == r.report.pidZ
    ensures r.report.pidZ >= 0.0
    // out-of-range outputs are clamped to the nearer bound, not rescaled
    ensures r.report.turnSpeedZ == Saturate(r.report.pidAngle, MaxTurnSpeed)
    ensures r.report.driveSpeedX == Saturate(r.report.pidX, MaxSpeedX)
    ensures r.report.driveSpeedZ == SaturateAbove(r.report.pidZ, MaxSpeedZ)
    // one shared PID memory across the three axes
    ensures r.engine.pid.integral ==
              e.pid.integral + r.report.angleDiff + r.report.distanceX + r.report.distanceZ
    ensures r.engine.pid.lastError == r.report.distanceZ
    // completion test and output shaping
    ensures r.report.inProgress <==> StillDocking(r.report.angleDiff, r.report.pidX, r.report.pidZ)
    ensures r.report.inProgress ==>
              r.engine.publisher.angularVec ==
                Vec3(r.report.pidAngle, r.report.pidAngle, -r.report.turnSpeedZ)
    ensures r.engine.publisher.linearVec == e.publisher.linearVec
    ensures !r.report.inProgress ==> r.engine.publisher == e.publisher
    // nothing else changes; in particular the success flag is never raised
    ensures r.engine.search == e.search && r.engine.node == e.node
  {
    var angleDiff := dets[0].rvec.x - TargetDockingAng.z;
    var a := Pid.Step(e.pid, angleDiff, Pid.AngleGains);
    var turnSpeedZ := Saturate(a.output, MaxTurnSpeed);

    var distanceX := dets[0].tvec.x - TargetDockingPos.x;
    var x := Pid.Step(a.state, distanceX, Pid.DistanceXGains);
    var driveSpeedX := Saturate(x.output, MaxSpeedX);

    var distanceZ := dets[0].tvec.z - TargetDockingPos.z;
    var z := Pid.Step(x.state, distanceZ, Pid.DistanceZGains);
    var pidZ := Abs(z.output);
    var driveSpeedZ := SaturateAbove(pidZ, MaxSpeedZ);

    var inProgress := StillDocking(angleDiff, x.output, pidZ);
    var next := e.(pid := z.state);
    var engine :=
      if inProgress then next.(publisher := next.publisher.(angularVec := Vec3(a.output, a.output, -turnSpeedZ)))
      else StartFeeder(next);
    Result(engine,
           Report(angleDiff, distanceX, distanceZ, a.output, x.output, pidZ,
                  turnSpeedZ, driveSpeedX, driveSpeedZ, inProgress))
  }

  /** startFeeder: the line that would raise the success flag is commented
      out, so the call only prints; nothing the engine holds changes. */
  function StartFeeder(e: Engine): (r: Engine)
    ensures r.node.dockSucced == e.node.dockSucced
    ensures r == e
  {
    e
  }

  /** The three PID outputs of a call are the outputs of one run of the shared
      memory over the angle, x and z samples, and the memory afterwards is
      that run's: the x axis differences against the angle error and the z
      axis against the x error. */
  lemma ControlIsOnePidRun(e: Engine, dets: seq<Detection>)
    requires |dets| > 0
    ensures var r := ControlDocking(e, dets);
            var run := Pid.Run(e.pid, Samples(r.report.angleDiff, r.report.distanceX, r.report.distanceZ));
            && r.report.pidAngle == run.outputs[0]
            && r.report.pidX == run.outputs[1]
            && r.report.pidZ == Abs(run.outputs[2])
            && r.engine.pid == run.state
  {
    var r := ControlDocking(e, dets);
    var xs := Samples(r.report.angleDiff, r.report.distanceX, r.report.distanceZ);
    var a := Pid.Step(e.pid, xs[0].error, xs[0].gains);
    var x := Pid.Step(a.state, xs[1].error, xs[1].gains);
    var z := Pid.Step(x.state, xs[2].error, xs[2].gains);
    assert xs[1..] == [xs[1], xs[2]];
    assert xs[1..][1..] == [xs[2]];
    assert xs[1..][1..][1..] == [];
    assert Pid.Run(x.state, [xs[2]]) == Pid.RunResult([z.output], z.state);
    assert Pid.Run(a.state, [xs[1], xs[2]]) == Pid.RunResult([x.output, z.output], z.state);
    assert Pid.Run(e.pid, xs) == Pid.RunResult([a.output, x.output, z.output], z.state);
  }

  /** The cross-axis coupling written out: with integral I and last error L
      on entry, the x output differences the x error against the angle error
      and integrates both. */
  lemma SharedMemoryCoupling(e: Engine, dets: seq<Detection>)
    requires |dets| > 0
    ensures var r := ControlDocking(e, dets);
            var I := e.pid.integral;
            var L := e.pid.lastError;
            var a := r.report.angleDiff;
            var dx := r.report.distanceX;
            var dz := r.report.distanceZ;
            && r.report.pidAngle == 0.001 * a + 0.1 * (I + a) + 0.1 * (a - L)
            && r.report.pidX == 0.3 * dx + 0.1 * (I + a + dx) + 0.1 * (dx - a)
            && r.report.pidZ == Abs(0.3 * dz + 0.1 * (I + a + dx + dz) + 0.1 * (dz - dx))
  {
    var r := ControlDocking(e, dets);
    var xs := Samples(r.report.angleDiff, r.report.distanceX, r.report.distanceZ);
    ControlIsOnePidRun(e, dets);
    Pid.RunOutputAt(e.pid, xs, 0);
    Pid.RunOutputAt(e.pid, xs, 1);
    Pid.RunOutputAt(e.pid, xs, 2);
  }

  /** A marker seen exactly at the target pose, on untouched PID memory,
      passes the completion test: nothing is published and the success flag
      stays as it was. */
  lemma AtTargetFromRestCompletes(e: Engine, dets: seq<Detection>)
    requires |dets| > 0 && e.pid == PidAtRest
    requires dets[0].rvec.x == 0.0 && dets[0].tvec.x == 0.0 && dets[0].tvec.z == 0.10
    ensures !ControlDocking(e, dets).report.inProgress
    ensures ControlDocking(e, dets).engine.publisher == e.publisher
    ensures ControlDocking(e, dets).engine.node.dockSucced == e.node.dockSucced
  {
    var a := Pid.Step(e.pid, 0.0, Pid.AngleGains);
    assert a.output == 0.0 && a.state == PidAtRest;
    var x := Pid.Step(a.state, 0.0, Pid.DistanceXGains);
    assert x.output == 0.0 && x.state == PidAtRest;
    var z := Pid.Step(x.state, 0.0, Pid.DistanceZGains);
    assert z.output == 0.0;
    assert ControlDocking(e, dets).report.pidX == x.output;
    assert ControlDocking(e, dets).report.pidZ == Abs(z.output);
  }

  /** The pose used by CompletionDependsOnHistory: angle error -1, at the
      target distance, centred. */
  predicate HistoryProbe(dets: seq<Detection>)
  {
    |dets| > 0 && dets[0].rvec.x == -1.0 && dets[0].tvec.x == 0.0 && dets[0].tvec.z == 0.10
  }

  lemma ProbeFromRest(e: Engine, dets: seq<Detection>)
    requires HistoryProbe(dets) && e.pid == PidAtRest
    ensures !ControlDocking(e, dets).report.inProgress
    ensures ControlDocking(e, dets).engine.pid.integral == -1.0
  {
    var a := Pid.Step(e.pid, -1.0, Pid.AngleGains);
    assert a.state == PidState(-1.0, -1.0, -1.0);
    var x := Pid.Step(a.state, 0.0, Pid.DistanceXGains);
    assert x.output == 0.0 && x.state == PidState(-1.0, 1.0, 0.0);
    var z := Pid.Step(x.state, 0.0, Pid.DistanceZGains);
    assert z.output == -0.1;
    assert ControlDocking(e, dets).report.pidX == x.output;
    assert ControlDocking(e, dets).report.pidZ == Abs(z.output);
  }

  lemma ProbeAfterProbe(e: Engine, dets: seq<Detection>)
    requires HistoryProbe(dets) && e.pid.integral == -1.0
    ensures ControlDocking(e, dets).report.inProgress
  {
    var a := Pid.Step(e.pid, -1.0, Pid.AngleGains);
    var x := Pid.Step(a.state, 0.0, Pid.DistanceXGains);
    assert x.state.integral == -2.0 && x.state.lastError == 0.0;
    var z := Pid.Step(x.state, 0.0, Pid.DistanceZGains);
    assert z.output == -0.2;
    assert ControlDocking(e, dets).report.pidZ == Abs(z.output);
  }

  /** The completion test depends on the PID history, not only on the
      observation: the same pose, seen twice in a row from untouched memory,
      passes the test the first time and fails it the second. */
  lemma CompletionDependsOnHistory(e: Engine, dets: seq<Detection>)
    requires HistoryProbe(dets) && e.pid == PidAtRest
    ensures var first := ControlDocking(e, dets);
            && !first.report.inProgress
            && ControlDocking(first.engine, dets).report.inProgress
  {
    ProbeFromRest(e, dets);
    ProbeAfterProbe(ControlDocking(e, dets).engine, dets);
  }
}
