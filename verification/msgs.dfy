/** Message shapes the move action reads and writes: the goal it receives,
    the result it reports, and the error-code values it distinguishes.
    Only the fields the action touches are modelled; everything else a
    message carries is folded into a few opaque fields. */
module MoveItMsgs {

  datatype Option<T> = None | Some(value: T)

  /** moveit_msgs/MoveItErrorCodes values the action names. A freshly
      constructed error-code message holds `UNSET`. */
  const SUCCESS: int := 1
  const FAILURE: int := 99999
  const PREEMPTED: int := -7
  const UNSET: int := 0

  /** The message fields typed `int32`, and C++ `unsigned int`. */
  type int32 = x: int | -0x8000_0000 <= x < 0x8000_0000
  type uint32 = x: int | 0 <= x < 0x1_0000_0000

  datatype RobotState = RobotState(
    jointNames: seq<string>,
    jointPositions: seq<real>,
    attachedObjects: seq<string>,
    isDiff: bool)

  datatype PlanningSceneDiff = PlanningSceneDiff(
    name: string,
    robotState: RobotState,
    worldObjects: seq<string>,
    isDiff: bool)

  datatype MotionPlanRequest = MotionPlanRequest(
    startState: RobotState,
    goalConstraints: seq<string>,
    groupName: string,
    pipelineId: string,
    plannerId: string)

  datatype PlanningOptions = PlanningOptions(
    planningSceneDiff: PlanningSceneDiff,
    planOnly: bool,
    lookAround: bool,
    lookAroundAttempts: int32,
    maxSafeExecutionCost: real,
    replan: bool,
    replanAttempts: int32,
    replanDelay: real)

  datatype MoveGroupGoal = MoveGroupGoal(request: MotionPlanRequest, planningOptions: PlanningOptions)

  /** A robot trajectory: the group it moves and its waypoints. */
  datatype Trajectory = Trajectory(groupName: string, waypoints: seq<seq<real>>)

  /** The action result. `plannedTrajectory` holds the planned segments in
      order, which is what the message conversion concatenates. */
  datatype MoveGroupResult = MoveGroupResult(
    errorCode: int,
    plannedTrajectory: seq<Trajectory>,
    executedTrajectory: Option<Trajectory>,
    planningTime: real)

  /** A default-constructed result message. */
  const EmptyResult := MoveGroupResult(UNSET, [], None, 0.0)
}
