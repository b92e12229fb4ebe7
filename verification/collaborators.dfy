/** The collaborators of the move action, reduced to what they hand back.
    Nothing here is implemented: helpers defined elsewhere are function
    values of `Env`, and the outcomes of planning and execution are oracle
    values chosen by the caller of the model. */
module Collaborators {
  import opened MoveItMsgs

  /** Configuration of the running service and the helpers the action calls
      without seeing their bodies. */
  datatype Env = Env(
    allowTrajectoryExecution: bool,
    // `context_->plan_with_sensing_` is set
    planWithSensing: bool,
    // resolvePlanningPipeline returns a pipeline for this id
    pipelineFound: string -> bool,
    // moveit::core::isEmpty on a robot state message
    isEmptyState: RobotState -> bool,
    clearRequestStartState: MotionPlanRequest -> MotionPlanRequest,
    clearSceneRobotState: PlanningSceneDiff -> PlanningSceneDiff,
    // trajectory_processing::isTrajectoryEmpty on the converted message
    isTrajectoryEmpty: seq<Trajectory> -> bool)

  /** What a planning pipeline leaves in its response. */
  datatype MotionPlanResponse = MotionPlanResponse(
    trajectory: Option<Trajectory>,
    planningTime: real,
    errorCode: int)

  /** One `generatePlan` call: it returns a solved flag with its response,
      or it throws after having written `partial` into the response. */
  datatype PlanOutcome =
    | Returned(solved: bool, response: MotionPlanResponse)
    | Threw(partial: MotionPlanResponse)

  /** What `planAndExecute` does while it runs, in order: each event is a
      call into a callback the action installed, or a cancel request that
      the action server delivers meanwhile. */
  datatype ExecEvent =
    | PlanRequested(outcome: PlanOutcome)  // the plan callback runs the base planner once
    | LookRequested                        // the sensing loop is about to look
    | ExecutionStarting                    // the before-execution callback
    | CancelRequested                      // the preempt callback, from the server's thread

  /** The whole run of `planAndExecute`: the events it fires, the executed
      trajectory it stores in the plan, and the error code it writes into
      the plan at the end (`None` when it leaves the one the planner wrote). */
  datatype ExecOracle = ExecOracle(
    events: seq<ExecEvent>,
    executedTrajectory: Option<Trajectory>,
    finalCode: Option<int>)

  /** Everything outside the action that shapes one goal: whether a cancel
      arrives while the action waits for the current robot state, whether one
      arrives after the plan-only checkpoint, the plan-only `generatePlan`
      outcome, and the run of `planAndExecute`. Only the part the chosen
      path reaches is used. */
  datatype GoalOracle = GoalOracle(
    cancelWhileWaiting: bool,
    cancelAfterCheckpoint: bool,
    planOnlyOutcome: PlanOutcome,
    execution: ExecOracle)

  datatype EventKind = PlanKind | LookKind | ExecuteKind | CancelKind

  function KindOf(e: ExecEvent): EventKind
  {
    match e
    case PlanRequested(_) => PlanKind
    case LookRequested => LookKind
    case ExecutionStarting => ExecuteKind
    case CancelRequested => CancelKind
  }

  /** Number of events of kind `k` in `events`. */
  function CountKind(events: seq<ExecEvent>, k: EventKind): (n: nat)
    ensures n <= |events|
    ensures n == 0 <==> forall i | 0 <= i < |events| :: KindOf(events[i]) != k
  {
    if |events| == 0 then 0
    else (if KindOf(events[0]) == k then 1 else 0) + CountKind(events[1..], k)
  }
}
