/** The state of the docking engine: the module globals of the docking node
    (PID memory, search timing), the fields of the action server node, and the
    two velocity vectors the motor publisher republishes. Python floats are
    modelled as `real`. */
module EngineState {

  /** A three-component vector, as used for rotations, translations and twists. */
  datatype Vec3 = Vec3(x: real, y: real, z: real)

  const Zero: Vec3 := Vec3(0.0, 0.0, 0.0)

  /** One detected marker of a camera frame: its id and the rotation and
      translation vectors the pose estimator returned for it. */
  datatype Detection = Detection(id: int, rvec: Vec3, tvec: Vec3)

  /** The module-wide PID memory (`integral`, `derivative`, `last_error`),
      shared by every axis and every goal. */
  datatype PidState = PidState(integral: real, derivative: real, lastError: real)

  const PidAtRest: PidState := PidState(0.0, 0.0, 0.0)

  /** The module globals that drive the left/right scan. */
  datatype SearchState = SearchState(
    directionLookLeft: bool,
    searchPeriod: real,
    newTime: bool,
    timeBegin: real,
    startSearch: bool)

  /** The fields of the action server node. */
  datatype Node = Node(startDocking: bool, arucoMarkerID: int, dockSucced: bool)

  /** The two vectors the motor publisher sends on every timer tick. */
  datatype Publisher = Publisher(linearVec: Vec3, angularVec: Vec3)

  const PublisherAtRest: Publisher := Publisher(Zero, Zero)

  /** Everything a docking step reads or writes. */
  datatype Engine = Engine(pid: PidState, search: SearchState, node: Node, publisher: Publisher)

  // Tuning constants of the node.
  const TurnSpeed: real := 0.5
  const TargetDockingPos: Vec3 := Vec3(0.0, 0.0, 0.10)
  const TargetDockingAng: Vec3 := Vec3(0.0, 0.0, 0.0)
  const MaxSpeedZ: real := 0.07
  const MaxSpeedX: real := 0.07
  const MaxTurnSpeed: real := 0.10

  // Scan windows, in seconds: the first sweep and every later one.
  const ShortWindow: real := 3.0
  const LongWindow: real := 6.0

  /** The search globals as the module leaves them when it is loaded at
      `loadTime`: looking right, period 6, clock to be restarted. */
  function InitialSearch(loadTime: real): SearchState
  {
    SearchState(false, LongWindow, true, loadTime, true)
  }

  /** The whole engine right after the node is constructed. */
  function InitialEngine(loadTime: real): (e: Engine)
    ensures e.pid == PidAtRest
    ensures !e.node.startDocking && !e.node.dockSucced && e.node.arucoMarkerID == 0
    ensures e.search.newTime && e.search.startSearch && !e.search.directionLookLeft
    ensures e.search.searchPeriod == LongWindow
    ensures e.publisher.linearVec == Zero && e.publisher.angularVec == Zero
  {
    Engine(PidAtRest, InitialSearch(loadTime), Node(false, 0, false), PublisherAtRest)
  }
}
