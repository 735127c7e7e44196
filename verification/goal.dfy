/** The action server's goal handling: a start request for this feeder arms
    the node and enters the docking loop; a stop request disarms it; any other
    start request is ignored. The docking loop runs frame after frame and
    leaves only when the success flag is up, which no step ever raises. */
module Goal {
  import opened EngineState
  import Dispatch
  import Search

  /** The id this feeder answers to. */
  const OwnMarkerID: int := 1

  datatype Request = Request(startDocking: bool, feederId: int, carrierId: int)

  /** How the callback ends: it enters the docking loop, or it returns a
      result straight away. */
  datatype Outcome = DockingLoop | Returned(docked: bool)

  datatype GoalResult = GoalResult(engine: Engine, outcome: Outcome)

  /** The branches of the execute callback. Entering the loop creates a
      fresh motor publisher whose vectors are zero. */
  function ExecuteGoal(e: Engine, req: Request): (r: GoalResult)
    ensures req.startDocking && req.feederId == OwnMarkerID ==>
              && r.engine.node == Node(true, req.carrierId, false)
              && r.engine.publisher == PublisherAtRest
              && r.outcome == DockingLoop
    ensures !req.startDocking ==>
              && !r.engine.node.startDocking
              && r.engine.node.arucoMarkerID == 0
              && r.engine.node.dockSucced == e.node.dockSucced
              && r.engine.publisher == e.publisher
              && r.outcome == Returned(false)
    ensures req.startDocking && req.feederId != OwnMarkerID ==> r == GoalResult(e, Returned(false))
    ensures r.engine.pid == e.pid && r.engine.search == e.search
  {
    if req.startDocking && req.feederId == OwnMarkerID then
      var node := e.node.(dockSucced := false, startDocking := true, arucoMarkerID := req.carrierId);
      GoalResult(e.(node := node, publisher := PublisherAtRest), DockingLoop)
    else if !req.startDocking then
      var node := e.node.(startDocking := false, arucoMarkerID := 0);
      GoalResult(e.(node := node), Returned(false))
    else
      GoalResult(e, Returned(false))
  }

  /** A captured frame: the detections and the time it is processed at. */
  datatype Capture = Capture(detections: seq<Detection>, now: real)

  /** Where the docking loop stands after some frames. */
  datatype LoopState = Running(engine: Engine) | Succeeded(engine: Engine)

  /** One loop iteration: dispatch the frame, then leave with success if the
      flag is up. */
  function Iteration(e: Engine, c: Capture): (r: LoopState)
    ensures r.engine.node == e.node
    ensures r.Succeeded? <==> e.node.dockSucced
  {
    var next := Dispatch.Frame(e, c.detections, c.now).engine;
    if next.node.dockSucced then Succeeded(next) else Running(next)
  }

  /** The docking loop over a finite prefix of its frames. */
  function RunLoop(e: Engine, cs: seq<Capture>): (r: LoopState)
    ensures r.engine.node == e.node
    ensures r.Succeeded? <==> |cs| > 0 && e.node.dockSucced
    decreases |cs|
  {
    if |cs| == 0 then Running(e)
    else
      match Iteration(e, cs[0])
      case Succeeded(done) => Succeeded(done)
      case Running(next) => RunLoop(next, cs[1..])
  }

  /** The loop never changes the node fields, so with the flag down it never
      leaves, whatever frames arrive. */
  lemma {:induction false} RunLoopKeepsNode(e: Engine, cs: seq<Capture>)
    requires !e.node.dockSucced
    ensures RunLoop(e, cs).Running?
    ensures RunLoop(e, cs).engine.node == e.node
    decreases |cs|
  {
    if |cs| > 0 {
      var next := Dispatch.Frame(e, cs[0].detections, cs[0].now).engine;
      assert Iteration(e, cs[0]) == Running(next);
      RunLoopKeepsNode(next, cs[1..]);
    }
  }

  /** A start request for this feeder arms the node for the requested carrier
      and the loop it enters never reports success. */
  lemma AcceptedGoalNeverSucceeds(e: Engine, req: Request, cs: seq<Capture>)
    requires req.startDocking && req.feederId == OwnMarkerID
    ensures var armed := ExecuteGoal(e, req).engine;
            && RunLoop(armed, cs).Running?
            && RunLoop(armed, cs).engine.node == Node(true, req.carrierId, false)
  {
    RunLoopKeepsNode(ExecuteGoal(e, req).engine, cs);
  }

  /** Frames of a running loop keep the linear command at zero: the search
      turns write zero and controlDocking never writes it. */
  lemma {:induction false} RunLoopKeepsLinearZero(e: Engine, cs: seq<Capture>)
    requires e.publisher.linearVec == Zero
    ensures RunLoop(e, cs).engine.publisher.linearVec == Zero
    decreases |cs|
  {
    if |cs| > 0 {
      var next := Dispatch.Frame(e, cs[0].detections, cs[0].now).engine;
      Dispatch.FrameKeepsLinearZero(e, cs[0].detections, cs[0].now);
      if !e.node.dockSucced {
        assert Iteration(e, cs[0]) == Running(next);
        RunLoopKeepsLinearZero(next, cs[1..]);
      }
    }
  }

  /** An accepted goal never commands linear motion: the robot only turns. */
  lemma AcceptedGoalNeverDrives(e: Engine, req: Request, cs: seq<Capture>)
    requires req.startDocking && req.feederId == OwnMarkerID
    ensures RunLoop(ExecuteGoal(e, req).engine, cs).engine.publisher.linearVec == Zero
  {
    RunLoopKeepsLinearZero(ExecuteGoal(e, req).engine, cs);
  }

  /** Frames of a running loop keep the search globals valid. */
  lemma {:induction false} RunLoopPreservesValid(e: Engine, cs: seq<Capture>)
    requires Search.Valid(e.search)
    ensures Search.Valid(RunLoop(e, cs).engine.search)
    decreases |cs|
  {
    if |cs| > 0 {
      var next := Dispatch.Frame(e, cs[0].detections, cs[0].now).engine;
      Dispatch.FramePreservesValid(e, cs[0].detections, cs[0].now);
      if !e.node.dockSucced {
        assert Iteration(e, cs[0]) == Running(next);
        RunLoopPreservesValid(next, cs[1..]);
      }
    }
  }

  /** No request resets the PID memory or the search state: a goal accepted
      after the frames of an earlier goal starts from the memory and the
      (still valid) search state those frames left behind; only the node
      fields and the publisher are fresh. */
  lemma GoalInheritsControllerState(e: Engine, first: Request, cs: seq<Capture>, second: Request)
    requires first.startDocking && first.feederId == OwnMarkerID
    requires second.startDocking && second.feederId == OwnMarkerID
    requires Search.Valid(e.search)
    ensures var left := RunLoop(ExecuteGoal(e, first).engine, cs).engine;
            var armed := ExecuteGoal(left, second).engine;
            && armed.pid == left.pid
            && armed.search == left.search
            && Search.Valid(armed.search)
            && armed.node == Node(true, second.carrierId, false)
            && armed.publisher == PublisherAtRest
  {
    RunLoopPreservesValid(ExecuteGoal(e, first).engine, cs);
  }
}
