/** The move action of MoveGroup: one goal is planned, optionally executed,
    reported once, and the action returns to IDLE with its preempt flag
    cleared. The action's fields and the traces of what it publishes and
    calls are one `Machine` value, threaded through every operation. */
module MoveAction {
  import opened MoveItMsgs
  import opened Collaborators

  datatype MoveState = IDLE | PLANNING | MONITOR | LOOK

  datatype Outcome = Succeeded | Preempted | Aborted

  /** How the plan callback plans: the planning pipeline on `request`,
      wrapped by the sensing loop when `sensing` is present. */
  datatype SensingConfig = SensingConfig(attempts: int32, maxSafeExecutionCost: real)
  datatype PlanCallback = PlanCallback(request: MotionPlanRequest, sensing: Option<SensingConfig>)

  /** plan_execution options. The before-execution callback is always
      `StartMoveExecutionCallback`, so it is not a field. */
  datatype ExecutionOptions = ExecutionOptions(
    replan: bool,
    replanAttempts: uint32,
    replanDelay: real,
    planCallback: PlanCallback)

  datatype PlanComponent = PlanComponent(trajectory: Trajectory, description: string)

  /** plan_execution's executable motion plan, as far as the action reads
      or writes it. */
  datatype ExecutablePlan = ExecutablePlan(
    components: seq<PlanComponent>,
    executedTrajectory: Option<Trajectory>,
    errorCode: int)

  const EmptyPlan := ExecutablePlan([], None, UNSET)

  /** Calls the action makes into its collaborators, in the order made. */
  datatype Call =
    | WaitForCurrentRobotState
    | UpdateFrameTransforms
    | ResolvePipeline(id: string)
    | CopyPlanningScene(diff: PlanningSceneDiff)  // the scene monitor's copy with the goal's diff applied
    | CopyPlanScene                                // the executable plan's own copy of its scene
    | GeneratePlan(request: MotionPlanRequest)
    | SetBeforeLookCallback
    | PlanAndExecute(diff: PlanningSceneDiff, options: ExecutionOptions)
    | Stop

  /** A terminal report: the outcome the action server is told, the result
      sent with it, and the arguments the message text is built from. */
  datatype Report = Report(outcome: Outcome, result: MoveGroupResult, trajectoryEmpty: bool, planOnly: bool)

  datatype Machine = Machine(
    state: MoveState,
    preemptRequested: bool,
    feedback: seq<MoveState>,
    calls: seq<Call>,
    reports: seq<Report>)

  /** `m'` extends `m`'s traces without rewriting them and adds no report. */
  ghost predicate Extends(m: Machine, m': Machine)
  {
    && m.feedback <= m'.feedback
    && m.calls <= m'.calls
    && m'.reports == m.reports
  }

  /** The calls made between `m` and `m'`. */
  ghost function NewCalls(m: Machine, m': Machine): seq<Call>
    requires m.calls <= m'.calls
  {
    m'.calls[|m.calls|..]
  }

  /** The feedback published between `m` and `m'`. */
  ghost function NewFeedback(m: Machine, m': Machine): seq<MoveState>
    requires m.feedback <= m'.feedback
  {
    m'.feedback[|m.feedback|..]
  }

  /** No call between `m` and `m'` starts planning or execution. */
  ghost predicate NoPlanningWork(m: Machine, m': Machine)
    requires m.calls <= m'.calls
  {
    forall c | c in NewCalls(m, m') :: !c.ResolvePipeline? && !c.GeneratePlan? && !c.PlanAndExecute?
  }

  /** The state field is the state last published, once any was. */
  predicate StateShown(m: Machine)
  {
    |m.feedback| > 0 ==> m.state == m.feedback[|m.feedback| - 1]
  }

  lemma NewTracesSplit(a: Machine, b: Machine, c: Machine)
    requires a.calls <= b.calls <= c.calls && a.feedback <= b.feedback <= c.feedback
    ensures NewCalls(a, c) == NewCalls(a, b) + NewCalls(b, c)
    ensures NewFeedback(a, c) == NewFeedback(a, b) + NewFeedback(b, c)
  {
  }

  /** Between PLANNING and the path's end nothing publishes IDLE. */
  lemma NoIdleAfterPlanning(m: Machine, m1: Machine, p: Machine)
    requires m1.feedback == m.feedback + [PLANNING] && m1.feedback <= p.feedback
    requires forall s | s in NewFeedback(m1, p) :: s != IDLE
    ensures forall i | |m.feedback| <= i < |p.feedback| :: p.feedback[i] != IDLE
  {
    forall i | |m.feedback| <= i < |p.feedback|
      ensures p.feedback[i] != IDLE
    {
      if i == |m.feedback| {
        assert p.feedback[i] == m1.feedback[i] == PLANNING;
      } else {
        assert p.feedback[i] == NewFeedback(m1, p)[i - |m1.feedback|];
        assert p.feedback[i] in NewFeedback(m1, p);
      }
    }
  }

  function Record(m: Machine, c: Call): Machine
  {
    m.(calls := m.calls + [c])
  }

  /** setMoveState: the state changes and its name is published. */
  function SetMoveState(m: Machine, s: MoveState): (m': Machine)
    ensures StateShown(m')
    ensures m'.state == s && m'.feedback == m.feedback + [s]
    ensures m'.preemptRequested == m.preemptRequested && m'.calls == m.calls && m'.reports == m.reports
  {
    m.(state := s, feedback := m.feedback + [s])
  }

  /** The before-execution callback. */
  function StartMoveExecutionCallback(m: Machine): (m': Machine)
    ensures m'.state == MONITOR && m'.feedback == m.feedback + [MONITOR]
    ensures m'.preemptRequested == m.preemptRequested && m'.calls == m.calls && m'.reports == m.reports
  {
    SetMoveState(m, MONITOR)
  }

  /** The before-look callback of the sensing loop. */
  function StartMoveLookCallback(m: Machine): (m': Machine)
    ensures m'.state == LOOK && m'.feedback == m.feedback + [LOOK]
    ensures m'.preemptRequested == m.preemptRequested && m'.calls == m.calls && m'.reports == m.reports
  {
    SetMoveState(m, LOOK)
  }

  /** The preempt callback: raise the flag and stop execution, once. */
  function PreemptMoveCallback(m: Machine): (m': Machine)
    ensures m'.preemptRequested
    ensures m'.calls == m.calls + [Stop]
    ensures multiset(m'.calls)[Stop] == multiset(m.calls)[Stop] + 1
    ensures m'.state == m.state && m'.feedback == m.feedback && m'.reports == m.reports
  {
    Record(m, Stop).(preemptRequested := true)
  }

  /** The response left behind by a `generatePlan` call once the action has
      caught what it throws. */
  function CaughtResponse(o: PlanOutcome): MotionPlanResponse
  {
    match o
    case Returned(_, res) => res
    case Threw(partial) => partial.(errorCode := FAILURE)
  }

  /** The converted trajectory message of a plan-only response. */
  function SegmentsOf(t: Option<Trajectory>): seq<Trajectory>
  {
    match t
    case None => []
    case Some(tr) => [tr]
  }

  /** The converted trajectory message of a plan: its segments in order. */
  function PlannedSegments(cs: seq<PlanComponent>): seq<Trajectory>
  {
    seq(|cs|, i requires 0 <= i < |cs| => cs[i].trajectory)
  }

  /** Components a plan may hold while only this action's planner fills it:
      none, or the single component described "plan". */
  predicate PlannerShaped(cs: seq<PlanComponent>)
  {
    |cs| == 0 || (|cs| == 1 && cs[0].description == "plan")
  }

  /** planUsingPlanningPipeline: the plan callback's base planner. Returns
      the machine, the plan and whether the pipeline solved the request. */
  function PlanUsingPlanningPipeline(m: Machine, env: Env, req: MotionPlanRequest, plan: ExecutablePlan, o: PlanOutcome)
    : (r: (Machine, ExecutablePlan, bool))
    ensures r.0.state == PLANNING && r.0.feedback == m.feedback + [PLANNING]
    ensures r.0.preemptRequested == m.preemptRequested && r.0.reports == m.reports
    ensures r.2 ==> env.pipelineFound(req.pipelineId)
    ensures !env.pipelineFound(req.pipelineId) ==>
              r.0.calls == m.calls + [ResolvePipeline(req.pipelineId)] && r.1 == plan && !r.2
    ensures env.pipelineFound(req.pipelineId) ==>
              && r.0.calls == m.calls + [ResolvePipeline(req.pipelineId), CopyPlanScene, GeneratePlan(req)]
              && r.1.executedTrajectory == plan.executedTrajectory
              && (o.Threw? ==> r.1.errorCode == FAILURE && !r.2)
              && (o.Returned? ==> r.1.errorCode == o.response.errorCode && r.2 == o.solved)
              && (CaughtResponse(o).trajectory.Some? ==>
                    r.1.components == [PlanComponent(CaughtResponse(o).trajectory.value, "plan")])
              && (CaughtResponse(o).trajectory.None? ==> r.1.components == plan.components)
  {
    var m1 := Record(SetMoveState(m, PLANNING), ResolvePipeline(req.pipelineId));
    if !env.pipelineFound(req.pipelineId) then
      // the FAILURE code goes into a local response only; the plan keeps its own
      (m1, plan, false)
    else
      var m2 := Record(Record(m1, CopyPlanScene), GeneratePlan(req));
      var solved := o.Returned? && o.solved;
      var res := CaughtResponse(o);
      var components :=
        if res.trajectory.Some? then [PlanComponent(res.trajectory.value, "plan")] else plan.components;
      (m2, plan.(components := components, errorCode := res.errorCode), solved)
  }

  /** A call the installed callbacks can make: the planner's pipeline
      lookup, its copy of the plan's scene and its plan on the callback's
      request, or the preempt's stop. */
  predicate CallbackCall(c: Call, cb: PlanCallback)
  {
    c == ResolvePipeline(cb.request.pipelineId) || c == CopyPlanScene || c == GeneratePlan(cb.request) || c == Stop
  }

  /** One event of a `planAndExecute` run, handled by the callback it calls. */
  function HandleEvent(m: Machine, env: Env, cb: PlanCallback, plan: ExecutablePlan, e: ExecEvent)
    : (r: (Machine, ExecutablePlan))
    ensures Extends(m, r.0)
    ensures m.preemptRequested ==> r.0.preemptRequested
    ensures forall s | s in NewFeedback(m, r.0) :: s != IDLE
    ensures forall c | c in NewCalls(m, r.0) :: CallbackCall(c, cb)
    ensures StateShown(m) ==> StateShown(r.0)
    ensures r.1.executedTrajectory == plan.executedTrajectory
    ensures PlannerShaped(plan.components) ==> PlannerShaped(r.1.components)
    ensures e.LookRequested? || e.ExecutionStarting? ==> r.0.calls == m.calls
    ensures e.CancelRequested? ==> r.0.calls == m.calls + [Stop]
  {
    match e
    case PlanRequested(o) =>
      var r := PlanUsingPlanningPipeline(m, env, cb.request, plan, o);
      assert NewFeedback(m, r.0) == [PLANNING];
      assert NewCalls(m, r.0) == if env.pipelineFound(cb.request.pipelineId)
                                 then [ResolvePipeline(cb.request.pipelineId), CopyPlanScene, GeneratePlan(cb.request)]
                                 else [ResolvePipeline(cb.request.pipelineId)];
      (r.0, r.1)
    case LookRequested =>
      // only the sensing loop looks, and it runs only when it wraps the planner
      if cb.sensing.Some? then (StartMoveLookCallback(m), plan) else (m, plan)
    case ExecutionStarting => (StartMoveExecutionCallback(m), plan)
    case CancelRequested =>
      var m' := PreemptMoveCallback(m);
      assert NewCalls(m, m') == [Stop];
      (m', plan)
  }

  /** The callbacks fired during a `planAndExecute` run, applied in order. */
  function RunCallbacks(m: Machine, env: Env, cb: PlanCallback, plan: ExecutablePlan, events: seq<ExecEvent>)
    : (r: (Machine, ExecutablePlan))
    ensures Extends(m, r.0)
    ensures m.preemptRequested ==> r.0.preemptRequested
    ensures forall s | s in NewFeedback(m, r.0) :: s != IDLE
    ensures forall c | c in NewCalls(m, r.0) :: CallbackCall(c, cb)
    ensures StateShown(m) ==> StateShown(r.0)
    ensures r.1.executedTrajectory == plan.executedTrajectory
    ensures PlannerShaped(plan.components) ==> PlannerShaped(r.1.components)
    decreases |events|
  {
    if |events| == 0 then (m, plan)
    else
      var h := HandleEvent(m, env, cb, plan, events[0]);
      var r := RunCallbacks(h.0, env, cb, h.1, events[1..]);
      NewTracesSplit(m, h.0, r.0);
      r
  }

  /** The error code a plan holds after the callbacks of `events`, read
      backwards: the caught code of the last plan request whose pipeline
      resolves, or `init` when no request resolves. */
  function PlannerCode(env: Env, req: MotionPlanRequest, init: int, events: seq<ExecEvent>): int
    decreases |events|
  {
    if |events| == 0 then init
    else
      var e := events[|events| - 1];
      if e.PlanRequested? && env.pipelineFound(req.pipelineId) then CaughtResponse(e.outcome).errorCode
      else PlannerCode(env, req, init, events[..|events| - 1])
  }

  /** The trajectory of the last plan request in `events` whose pipeline
      resolves and whose response holds one, if any. */
  function PlannerTrajectory(env: Env, req: MotionPlanRequest, events: seq<ExecEvent>): Option<Trajectory>
    decreases |events|
  {
    if |events| == 0 then None
    else
      var e := events[|events| - 1];
      if e.PlanRequested? && env.pipelineFound(req.pipelineId) && CaughtResponse(e.outcome).trajectory.Some? then
        CaughtResponse(e.outcome).trajectory
      else PlannerTrajectory(env, req, events[..|events| - 1])
  }

  /** Reading one more event at the front: the code it leaves is the
      starting code of the rest. */
  lemma {:induction false} PlannerCodeCons(env: Env, req: MotionPlanRequest, init: int, e: ExecEvent, rest: seq<ExecEvent>)
    ensures PlannerCode(env, req, init, [e] + rest) == PlannerCode(env, req, PlannerCode(env, req, init, [e]), rest)
    decreases |rest|
  {
    if |rest| > 0 {
      var s := [e] + rest;
      assert s[|s| - 1] == rest[|rest| - 1];
      assert s[..|s| - 1] == [e] + rest[..|rest| - 1];
      PlannerCodeCons(env, req, init, e, rest[..|rest| - 1]);
    } else {
      assert [e] + rest == [e];
    }
  }

  /** Reading one more event at the front: a trajectory found later wins. */
  lemma {:induction false} PlannerTrajectoryCons(env: Env, req: MotionPlanRequest, e: ExecEvent, rest: seq<ExecEvent>)
    ensures PlannerTrajectory(env, req, [e] + rest)
            == if PlannerTrajectory(env, req, rest).Some? then PlannerTrajectory(env, req, rest)
               else PlannerTrajectory(env, req, [e])
    decreases |rest|
  {
    if |rest| > 0 {
      var s := [e] + rest;
      assert s[|s| - 1] == rest[|rest| - 1];
      assert s[..|s| - 1] == [e] + rest[..|rest| - 1];
      PlannerTrajectoryCons(env, req, e, rest[..|rest| - 1]);
    } else {
      assert [e] + rest == [e];
    }
  }

  /** The plan a `planAndExecute` run leaves: the code of its last resolved
      plan request, and the single "plan" component of the last trajectory
      produced, each kept from the starting plan when there is none. */
  lemma {:induction false} RunCallbacksPlan(m: Machine, env: Env, cb: PlanCallback, plan: ExecutablePlan, events: seq<ExecEvent>)
    ensures var r := RunCallbacks(m, env, cb, plan, events);
            && r.1.errorCode == PlannerCode(env, cb.request, plan.errorCode, events)
            && r.1.components == match PlannerTrajectory(env, cb.request, events)
                                 case Some(t) => [PlanComponent(t, "plan")]
                                 case None => plan.components
    decreases |events|
  {
    if |events| > 0 {
      var h := HandleEvent(m, env, cb, plan, events[0]);
      RunCallbacksPlan(h.0, env, cb, h.1, events[1..]);
      assert events == [events[0]] + events[1..];
      PlannerCodeCons(env, cb.request, plan.errorCode, events[0], events[1..]);
      PlannerTrajectoryCons(env, cb.request, events[0], events[1..]);
      assert [events[0]][..0] == [];
      assert h.1.errorCode == PlannerCode(env, cb.request, plan.errorCode, [events[0]]);
      assert h.1.components == match PlannerTrajectory(env, cb.request, [events[0]])
                               case Some(t) => [PlanComponent(t, "plan")]
                               case None => plan.components;
    }
  }

  /** Outcome the action server is told for a result code. */
  function Classify(code: int): (o: Outcome)
    ensures o == Succeeded <==> code == SUCCESS
    ensures o == Preempted <==> code == PREEMPTED
    ensures o == Aborted <==> code != SUCCESS && code != PREEMPTED
  {
    if code == SUCCESS then Succeeded
    else if code == PREEMPTED then Preempted
    else Aborted
  }

  /** The plan-only path runs when the goal asks for it or the service may
      not execute trajectories. */
  predicate UsesPlanOnlyPath(env: Env, goal: MoveGroupGoal)
  {
    goal.planningOptions.planOnly || !env.allowTrajectoryExecution
  }

  /** The calls the plan-only path makes past its checkpoint: the pipeline
      lookup, then, when it resolves, the scene monitor's copy of the goal's
      scene and the planner on the goal's own request. */
  function PlanOnlyCalls(env: Env, goal: MoveGroupGoal): seq<Call>
  {
    [ResolvePipeline(goal.request.pipelineId)]
    + if env.pipelineFound(goal.request.pipelineId) then
        [CopyPlanningScene(goal.planningOptions.planningSceneDiff), GeneratePlan(goal.request)]
      else []
  }

  /** The plan-only path's result, case by case: an unresolved pipeline
      leaves every field but the code at its default; otherwise the
      response's trajectory and planning time are reported whether the
      planner returned or threw, with FAILURE as the code after a throw. */
  predicate PlanOnlyReported(env: Env, goal: MoveGroupGoal, o: PlanOutcome, res: MoveGroupResult)
  {
    if !env.pipelineFound(goal.request.pipelineId) then res == EmptyResult.(errorCode := FAILURE)
    else match o
      case Threw(partial) =>
        res == MoveGroupResult(FAILURE, SegmentsOf(partial.trajectory), None, partial.planningTime)
      case Returned(_, response) =>
        res == MoveGroupResult(response.errorCode, SegmentsOf(response.trajectory), None, response.planningTime)
  }

  /** The planning half of executeMoveCallbackPlanOnly, once the
      preemption checkpoint has passed: resolve the pipeline, copy the
      scene, plan, and read the result off the response. */
  function PlanOnlyPlanning(m: Machine, env: Env, goal: MoveGroupGoal, o: PlanOutcome)
    : (r: (Machine, MoveGroupResult))
    ensures r.0.state == m.state && r.0.feedback == m.feedback && r.0.reports == m.reports
    ensures r.0.preemptRequested == m.preemptRequested && m.calls <= r.0.calls
    ensures r.1.executedTrajectory.None?
    ensures !env.pipelineFound(goal.request.pipelineId) ==>
              r.1.errorCode == FAILURE && NewCalls(m, r.0) == [ResolvePipeline(goal.request.pipelineId)]
    ensures env.pipelineFound(goal.request.pipelineId) ==>
              && NewCalls(m, r.0) == [ResolvePipeline(goal.request.pipelineId),
                                      CopyPlanningScene(goal.planningOptions.planningSceneDiff),
                                      GeneratePlan(goal.request)]
              && (o.Threw? ==> r.1.errorCode == FAILURE)
              && (o.Returned? ==> r.1.errorCode == o.response.errorCode
                                  && r.1.planningTime == o.response.planningTime)
    ensures forall c | c in NewCalls(m, r.0) :: !c.PlanAndExecute? && !c.SetBeforeLookCallback? && !c.Stop?
    ensures r.0.calls == m.calls + PlanOnlyCalls(env, goal)
    ensures PlanOnlyReported(env, goal, o, r.1)
  {
    var m1 := Record(m, ResolvePipeline(goal.request.pipelineId));
    if !env.pipelineFound(goal.request.pipelineId) then
      (m1, EmptyResult.(errorCode := FAILURE))
    else
      var m2 := Record(Record(m1, CopyPlanningScene(goal.planningOptions.planningSceneDiff)), GeneratePlan(goal.request));
      var res := CaughtResponse(o);
      (m2, MoveGroupResult(res.errorCode, SegmentsOf(res.trajectory), None, res.planningTime))
  }

  /** executeMoveCallbackPlanOnly once the preemption checkpoint has let
      the goal through; a cancel may still arrive before planning starts,
      and this path does not look at the flag again. */
  function PlanOnlyPastCheckpoint(m: Machine, env: Env, goal: MoveGroupGoal, cancelAfterCheckpoint: bool, o: PlanOutcome)
    : (r: (Machine, MoveGroupResult))
    requires !m.preemptRequested
    ensures r.0.state == m.state && r.0.feedback == m.feedback && r.0.reports == m.reports
    ensures r.0.preemptRequested <==> cancelAfterCheckpoint
    ensures m.calls <= r.0.calls
    ensures r.1.executedTrajectory.None?
    ensures !env.pipelineFound(goal.request.pipelineId) ==>
              r.1.errorCode == FAILURE && (forall c | c in NewCalls(m, r.0) :: !c.GeneratePlan?)
    ensures env.pipelineFound(goal.request.pipelineId) ==>
              && GeneratePlan(goal.request) in NewCalls(m, r.0)
              && (o.Threw? ==> r.1.errorCode == FAILURE)
              && (o.Returned? ==> r.1.errorCode == o.response.errorCode
                                  && r.1.planningTime == o.response.planningTime)
    ensures forall c | c in NewCalls(m, r.0) :: !c.PlanAndExecute? && !c.SetBeforeLookCallback?
    ensures r.0.calls == m.calls + (if cancelAfterCheckpoint then [Stop] else []) + PlanOnlyCalls(env, goal)
    ensures PlanOnlyReported(env, goal, o, r.1)
  {
    if cancelAfterCheckpoint then
      var m0 := PreemptMoveCallback(m);
      var p := PlanOnlyPlanning(m0, env, goal, o);
      NewTracesSplit(m, m0, p.0);
      assert NewCalls(m, p.0) == [Stop] + NewCalls(m0, p.0);
      forall c | c in NewCalls(m, p.0) ensures c == Stop || c in NewCalls(m0, p.0) {
      }
      p
    else
      PlanOnlyPlanning(m, env, goal, o)
  }

  /** executeMoveCallbackPlanOnly. */
  function ExecuteMoveCallbackPlanOnly(m: Machine, env: Env, goal: MoveGroupGoal, cancelAfterCheckpoint: bool, o: PlanOutcome)
    : (r: (Machine, MoveGroupResult))
    ensures r.0.state == m.state && r.0.feedback == m.feedback && r.0.reports == m.reports
    ensures r.0.preemptRequested <==> m.preemptRequested || cancelAfterCheckpoint
    ensures m.calls <= r.0.calls
    ensures r.1.executedTrajectory.None?
    ensures m.preemptRequested ==> r.1 == EmptyResult.(errorCode := PREEMPTED) && r.0.calls == m.calls
    ensures !m.preemptRequested && !env.pipelineFound(goal.request.pipelineId) ==>
              r.1.errorCode == FAILURE && (forall c | c in NewCalls(m, r.0) :: !c.GeneratePlan?)
    ensures !m.preemptRequested && env.pipelineFound(goal.request.pipelineId) ==>
              && GeneratePlan(goal.request) in NewCalls(m, r.0)
              && (o.Threw? ==> r.1.errorCode == FAILURE)
              && (o.Returned? ==> r.1.errorCode == o.response.errorCode
                                  && r.1.planningTime == o.response.planningTime)
    ensures forall c | c in NewCalls(m, r.0) :: !c.PlanAndExecute? && !c.SetBeforeLookCallback?
    ensures !m.preemptRequested ==>
              && r.0.calls == m.calls + (if cancelAfterCheckpoint then [Stop] else []) + PlanOnlyCalls(env, goal)
              && PlanOnlyReported(env, goal, o, r.1)
  {
    if m.preemptRequested then
      (m, EmptyResult.(errorCode := PREEMPTED))
    else
      PlanOnlyPastCheckpoint(m, env, goal, cancelAfterCheckpoint, o)
  }

  /** The motion request the execute path plans for: the goal's, with a
      supplied start state cleared. */
  function ForwardedRequest(env: Env, goal: MoveGroupGoal): MotionPlanRequest
  {
    if env.isEmptyState(goal.request.startState) then goal.request
    else env.clearRequestStartState(goal.request)
  }

  /** The scene diff the execute path forwards: the goal's, with a supplied
      robot state cleared. */
  function ForwardedSceneDiff(env: Env, goal: MoveGroupGoal): PlanningSceneDiff
  {
    var diff := goal.planningOptions.planningSceneDiff;
    if env.isEmptyState(diff.robotState) then diff else env.clearSceneRobotState(diff)
  }

  /** C++'s conversion of an `int32` to `unsigned int`: the value modulo
      2^32, so a negative value wraps around. */
  function ToUnsigned(a: int32): (u: uint32)
    ensures 0 <= a ==> u == a
    ensures a < 0 ==> u == a + 0x1_0000_0000
  {
    a % 0x1_0000_0000
  }

  /** The options built for plan_execution. */
  function ExecutionOptionsFor(env: Env, goal: MoveGroupGoal): (opt: ExecutionOptions)
    ensures opt.planCallback.request == ForwardedRequest(env, goal)
    ensures opt.planCallback.sensing.Some? <==> goal.planningOptions.lookAround && env.planWithSensing
  {
    var po := goal.planningOptions;
    var sensing :=
      if po.lookAround && env.planWithSensing then Some(SensingConfig(po.lookAroundAttempts, po.maxSafeExecutionCost))
      else None;
    ExecutionOptions(po.replan, ToUnsigned(po.replanAttempts), po.replanDelay, PlanCallback(ForwardedRequest(env, goal), sensing))
  }

  /** The error code a finished `planAndExecute` run leaves in the plan. */
  function FinalCode(plan: ExecutablePlan, x: ExecOracle): int
  {
    match x.finalCode
    case Some(code) => code
    case None => plan.errorCode
  }

  /** The code the execute path reports: the one plan_execution settles
      on, or else the caught code of the last resolved plan request, or
      UNSET when the planner never ran. */
  function ExecutionCode(env: Env, req: MotionPlanRequest, x: ExecOracle): int
  {
    match x.finalCode
    case Some(code) => code
    case None => PlannerCode(env, req, UNSET, x.events)
  }

  /** The `planAndExecute` call and the callbacks it fires. */
  function StartPlanAndExecute(m: Machine, env: Env, diff: PlanningSceneDiff, opt: ExecutionOptions, x: ExecOracle)
    : (r: (Machine, ExecutablePlan))
    ensures Extends(m, r.0)
    ensures m.preemptRequested ==> r.0.preemptRequested
    ensures forall s | s in NewFeedback(m, r.0) :: s != IDLE
    ensures PlanAndExecute(diff, opt) in NewCalls(m, r.0)
    ensures forall c | c in NewCalls(m, r.0) :: !c.SetBeforeLookCallback? && !c.CopyPlanningScene?
    ensures r.1.errorCode == PlannerCode(env, opt.planCallback.request, UNSET, x.events)
    ensures r.1.components == match PlannerTrajectory(env, opt.planCallback.request, x.events)
                              case Some(t) => [PlanComponent(t, "plan")]
                              case None => []
  {
    var m1 := Record(m, PlanAndExecute(diff, opt));
    var run := RunCallbacks(m1, env, opt.planCallback, EmptyPlan, x.events);
    NewTracesSplit(m, m1, run.0);
    assert NewCalls(m, run.0) == [PlanAndExecute(diff, opt)] + NewCalls(m1, run.0);
    forall c | c in NewCalls(m, run.0) ensures !c.SetBeforeLookCallback? && !c.CopyPlanningScene? {
      if c != PlanAndExecute(diff, opt) {
        assert CallbackCall(c, opt.planCallback);
      }
    }
    assert NewCalls(m, run.0)[0] == PlanAndExecute(diff, opt);
    RunCallbacksPlan(m1, env, opt.planCallback, EmptyPlan, x.events);
    run
  }

  /** The run of `planAndExecute` once the preemption checkpoint has passed,
      and the result read back from the plan it filled. */
  function PlanAndExecuteRun(m: Machine, env: Env, diff: PlanningSceneDiff, opt: ExecutionOptions, x: ExecOracle)
    : (r: (Machine, MoveGroupResult))
    ensures Extends(m, r.0)
    ensures m.preemptRequested ==> r.0.preemptRequested
    ensures forall s | s in NewFeedback(m, r.0) :: s != IDLE
    ensures PlanAndExecute(diff, opt) in NewCalls(m, r.0)
    ensures forall c | c in NewCalls(m, r.0) :: !c.SetBeforeLookCallback? && !c.CopyPlanningScene?
    ensures r.1.executedTrajectory == x.executedTrajectory && r.1.planningTime == 0.0
    ensures r.1.errorCode == ExecutionCode(env, opt.planCallback.request, x)
    ensures r.1.plannedTrajectory == SegmentsOf(PlannerTrajectory(env, opt.planCallback.request, x.events))
  {
    var run := StartPlanAndExecute(m, env, diff, opt, x);
    var plan := run.1.(executedTrajectory := x.executedTrajectory);
    (run.0, MoveGroupResult(FinalCode(plan, x), PlannedSegments(plan.components), plan.executedTrajectory, 0.0))
  }

  /** Records the before-look installation when the sensing loop wraps the
      planner. */
  function InstallLookCallback(m: Machine, opt: ExecutionOptions): (m': Machine)
    ensures m'.state == m.state && m'.preemptRequested == m.preemptRequested
    ensures m'.feedback == m.feedback && m'.reports == m.reports && m.calls <= m'.calls
    ensures NewCalls(m, m') == if opt.planCallback.sensing.Some? then [SetBeforeLookCallback] else []
  {
    if opt.planCallback.sensing.Some? then Record(m, SetBeforeLookCallback) else m
  }

  /** executeMoveCallbackPlanAndExecute. */
  function ExecuteMoveCallbackPlanAndExecute(m: Machine, env: Env, goal: MoveGroupGoal, x: ExecOracle)
    : (r: (Machine, MoveGroupResult))
    ensures Extends(m, r.0)
    ensures m.preemptRequested ==> r.0.preemptRequested
    ensures forall s | s in NewFeedback(m, r.0) :: s != IDLE
    ensures SetBeforeLookCallback in NewCalls(m, r.0) <==> goal.planningOptions.lookAround && env.planWithSensing
    ensures m.preemptRequested ==>
              && r.1 == EmptyResult.(errorCode := PREEMPTED) && NoPlanningWork(m, r.0) && r.0.feedback == m.feedback
              && NewCalls(m, r.0)
                 == if goal.planningOptions.lookAround && env.planWithSensing then [SetBeforeLookCallback] else []
    ensures !m.preemptRequested ==>
              && r.1.executedTrajectory == x.executedTrajectory
              && r.1.planningTime == 0.0
              && PlanAndExecute(ForwardedSceneDiff(env, goal), ExecutionOptionsFor(env, goal)) in NewCalls(m, r.0)
              && r.1.errorCode == ExecutionCode(env, ForwardedRequest(env, goal), x)
              && r.1.plannedTrajectory == SegmentsOf(PlannerTrajectory(env, ForwardedRequest(env, goal), x.events))
    ensures forall c | c in NewCalls(m, r.0) :: !c.CopyPlanningScene?
  {
    var opt := ExecutionOptionsFor(env, goal);
    var m1 := InstallLookCallback(m, opt);
    if m1.preemptRequested then
      (m1, EmptyResult.(errorCode := PREEMPTED))
    else
      var run := PlanAndExecuteRun(m1, env, ForwardedSceneDiff(env, goal), opt, x);
      NewTracesSplit(m, m1, run.0);
      run
  }

  /** The result of whichever path the goal takes. */
  function RunPath(m: Machine, env: Env, goal: MoveGroupGoal, oracle: GoalOracle): (r: (Machine, MoveGroupResult))
    ensures Extends(m, r.0)
    ensures m.preemptRequested ==> r.0.preemptRequested
    ensures forall s | s in NewFeedback(m, r.0) :: s != IDLE
  {
    if UsesPlanOnlyPath(env, goal) then
      ExecuteMoveCallbackPlanOnly(m, env, goal, oracle.cancelAfterCheckpoint, oracle.planOnlyOutcome)
    else
      ExecuteMoveCallbackPlanAndExecute(m, env, goal, oracle.execution)
  }

  /** The machine at the preemption checkpoint: PLANNING published, the
      robot state awaited, and a cancel delivered meanwhile if one came. */
  function AtCheckpoint(m: Machine, oracle: GoalOracle): (m': Machine)
    ensures m'.feedback == m.feedback + [PLANNING] && m'.reports == m.reports && m.calls <= m'.calls
    ensures m'.preemptRequested <==> m.preemptRequested || oracle.cancelWhileWaiting
    ensures NewCalls(m, m') == [WaitForCurrentRobotState, UpdateFrameTransforms]
                               + (if oracle.cancelWhileWaiting then [Stop] else [])
    ensures forall c | c in NewCalls(m, m') :: c.WaitForCurrentRobotState? || c.UpdateFrameTransforms? || c.Stop?
  {
    var m1 := Record(Record(SetMoveState(m, PLANNING), WaitForCurrentRobotState), UpdateFrameTransforms);
    assert NewCalls(m, m1) == [WaitForCurrentRobotState, UpdateFrameTransforms];
    if oracle.cancelWhileWaiting then
      var m' := PreemptMoveCallback(m1);
      assert NewCalls(m, m') == [WaitForCurrentRobotState, UpdateFrameTransforms, Stop];
      m'
    else
      m1
  }

  /** The end of every goal: the terminal report, then IDLE with the
      preempt flag cleared. */
  function CompleteGoal(m: Machine, rep: Report): (m': Machine)
    ensures m'.state == IDLE && !m'.preemptRequested
    ensures m'.feedback == m.feedback + [IDLE] && m'.calls == m.calls && m'.reports == m.reports + [rep]
  {
    SetMoveState(m.(reports := m.reports + [rep]), IDLE).(preemptRequested := false)
  }

  /** executeMoveCallback: one goal, from PLANNING to its single terminal
      report and back to IDLE with the preempt flag cleared. */
  function ExecuteMoveCallback(m: Machine, env: Env, goal: MoveGroupGoal, oracle: GoalOracle): (m': Machine)
    ensures m'.state == IDLE && !m'.preemptRequested
    ensures m.feedback <= m'.feedback && m.calls <= m'.calls
    ensures |m'.feedback| >= |m.feedback| + 2
    ensures m'.feedback[|m.feedback|] == PLANNING && m'.feedback[|m'.feedback| - 1] == IDLE
    ensures forall i | |m.feedback| <= i < |m'.feedback| - 1 :: m'.feedback[i] != IDLE
    ensures |m'.reports| == |m.reports| + 1 && m'.reports[..|m.reports|] == m.reports
    ensures var rep := m'.reports[|m.reports|];
            && rep.outcome == Classify(rep.result.errorCode)
            && rep.planOnly == goal.planningOptions.planOnly
            && rep.trajectoryEmpty == env.isTrajectoryEmpty(rep.result.plannedTrajectory)
  {
    var m1 := AtCheckpoint(m, oracle);
    var p := RunPath(m1, env, goal, oracle);
    var res := p.1;
    var rep := Report(Classify(res.errorCode), res, env.isTrajectoryEmpty(res.plannedTrajectory),
                      goal.planningOptions.planOnly);
    NoIdleAfterPlanning(m, m1, p.0);
    CompleteGoal(p.0, rep)
  }
}
